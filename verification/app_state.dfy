/**
 * The domain store: a reducer over events, OD requests and top students.
 * Every case returns a new record built by spread or by `map`; nothing is
 * updated in place.
 */
module AppStore {
  import opened Types

  datatype AppAction =
    | SetEvents(events: seq<Event>)
    | AddEvent(event: Event)
    | SetODRequests(requests: seq<ODRequest>)
    | UpdateODRequest(request: ODRequest)
    | SetTopStudents(students: seq<Student>)
    | SetLoading(loading: bool)
    | SetError(error: Option<string>)
      /** Any other action object: the reducer's `default` branch. */
    | Unknown

  /** `requests.map(req => req.id === id ? x : req)` */
  function ReplaceById(requests: seq<ODRequest>, id: string, x: ODRequest): (r: seq<ODRequest>)
    ensures |r| == |requests|
    ensures forall i :: 0 <= i < |r| ==> r[i] == (if requests[i].id == id then x else requests[i])
  {
    if |requests| == 0 then []
    else [if requests[0].id == id then x else requests[0]] + ReplaceById(requests[1..], id, x)
  }

  const InitialAppState := AppState([], [], [], false, None)

  function AppReducer(state: AppState, action: AppAction): AppState {
    match action
    case SetEvents(es) => state.(events := es)
    case AddEvent(e) => state.(events := state.events + [e])
    case SetODRequests(rs) => state.(odRequests := rs)
    case UpdateODRequest(r) => state.(odRequests := ReplaceById(state.odRequests, r.id, r))
    case SetTopStudents(ss) => state.(topStudents := ss)
    case SetLoading(b) => state.(isLoading := b)
    case SetError(e) => state.(error := e)
    case Unknown => state
  }

  // ---------------------------------------------------------------------
  // Properties
  // ---------------------------------------------------------------------

  lemma InitialStateIsEmpty()
    ensures InitialAppState.events == [] && InitialAppState.odRequests == []
    ensures InitialAppState.topStudents == []
    ensures !InitialAppState.isLoading && InitialAppState.error == None
  {
  }

  /** The three "set" actions each replace one collection and keep every other field. */
  lemma SetActionsReplaceOneField(s: AppState, es: seq<Event>, rs: seq<ODRequest>, ss: seq<Student>)
    ensures AppReducer(s, SetEvents(es)) == AppState(es, s.odRequests, s.topStudents, s.isLoading, s.error)
    ensures AppReducer(s, SetODRequests(rs)) == AppState(s.events, rs, s.topStudents, s.isLoading, s.error)
    ensures AppReducer(s, SetTopStudents(ss)) == AppState(s.events, s.odRequests, ss, s.isLoading, s.error)
  {
  }

  /** ADD_EVENT appends: one more element, the payload last, the old list as prefix. */
  lemma AddEventAppends(s: AppState, e: Event)
    ensures var t := AppReducer(s, AddEvent(e));
      |t.events| == |s.events| + 1 && t.events[|s.events|] == e
      && t.events[..|s.events|] == s.events
      && t.odRequests == s.odRequests && t.topStudents == s.topStudents
      && t.isLoading == s.isLoading && t.error == s.error
  {
  }

  /**
   * UPDATE_OD_REQUEST keeps the length, puts the payload at every index
   * whose id matches it, and keeps every other entry and every other field.
   */
  lemma UpdateReplacesMatching(s: AppState, x: ODRequest)
    ensures var t := AppReducer(s, UpdateODRequest(x));
      |t.odRequests| == |s.odRequests|
      && (forall i :: 0 <= i < |s.odRequests| && s.odRequests[i].id == x.id ==> t.odRequests[i] == x)
      && (forall i :: 0 <= i < |s.odRequests| && s.odRequests[i].id != x.id ==>
            t.odRequests[i] == s.odRequests[i])
      && t.events == s.events && t.topStudents == s.topStudents
      && t.isLoading == s.isLoading && t.error == s.error
  {
  }

  /** Replacing by id twice with the same value is replacing once. */
  lemma {:induction false} ReplaceByIdIdempotent(rs: seq<ODRequest>, id: string, x: ODRequest)
    ensures ReplaceById(ReplaceById(rs, id, x), id, x) == ReplaceById(rs, id, x)
  {
    if |rs| > 0 {
      ReplaceByIdIdempotent(rs[1..], id, x);
      assert ReplaceById(rs, id, x)[1..] == ReplaceById(rs[1..], id, x);
    }
  }

  /** Replacing an id nobody carries leaves the list as it was. */
  lemma {:induction false} ReplaceByIdMissing(rs: seq<ODRequest>, id: string, x: ODRequest)
    requires forall i :: 0 <= i < |rs| ==> rs[i].id != id
    ensures ReplaceById(rs, id, x) == rs
  {
    if |rs| > 0 {
      ReplaceByIdMissing(rs[1..], id, x);
    }
  }

  /** UPDATE_OD_REQUEST is idempotent, and a no-op when no id matches. */
  lemma UpdateIdempotent(s: AppState, x: ODRequest)
    ensures AppReducer(AppReducer(s, UpdateODRequest(x)), UpdateODRequest(x)) == AppReducer(s, UpdateODRequest(x))
    ensures (forall i :: 0 <= i < |s.odRequests| ==> s.odRequests[i].id != x.id) ==>
              AppReducer(s, UpdateODRequest(x)) == s
  {
    ReplaceByIdIdempotent(s.odRequests, x.id, x);
    if forall i :: 0 <= i < |s.odRequests| ==> s.odRequests[i].id != x.id {
      ReplaceByIdMissing(s.odRequests, x.id, x);
    }
  }

  /** SET_LOADING and SET_ERROR each touch one flag; an unknown action changes nothing. */
  lemma FlagActionsChangeOneField(s: AppState, b: bool, e: Option<string>)
    ensures AppReducer(s, SetLoading(b)) == s.(isLoading := b)
    ensures AppReducer(s, SetError(e)) == s.(error := e)
    ensures AppReducer(s, Unknown) == s
  {
  }
}
