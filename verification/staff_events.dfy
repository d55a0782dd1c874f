/**
 * The staff events page: the event form, creating an event through the API,
 * editing one in the page's list, deleting one after confirmation, and
 * opening a blank form.
 */
module StaffEvents {
  import opened Types
  import Api

  /** The page's form state. */
  datatype EventForm = EventForm(
    title: string,
    description: string,
    date: string,
    time: string,
    department: string)

  /** One change event from a named control, carrying its value. */
  datatype FieldChange =
    | Title(text: string)
    | Description(text: string)
    | Date(text: string)
    | Time(text: string)
    | Department(text: string)

  /** The blank form: every field empty except the staff member's department. */
  function BlankForm(staff: Staff): EventForm {
    EventForm("", "", "", "", staff.department)
  }

  /** handleInputChange: `{ ...prev, [name]: value }`. */
  function ApplyChange(f: EventForm, ch: FieldChange): EventForm {
    match ch
    case Title(t) => f.(title := t)
    case Description(t) => f.(description := t)
    case Date(t) => f.(date := t)
    case Time(t) => f.(time := t)
    case Department(t) => f.(department := t)
  }

  /** The form copied out of an existing event (handleEdit). */
  function FormOf(e: Event): EventForm {
    EventForm(e.title, e.description, e.date, e.time, e.department)
  }

  /** `{ ...formData, createdBy: staff.staffId }` */
  function Draft(f: EventForm, staff: Staff): Api.EventDraft {
    Api.EventDraft(f.title, f.description, f.date, f.time, f.department, staff.staffId)
  }

  /** `{ ...editingEvent, ...eventData }`: the form's fields and the author over the edited event. */
  function Overlay(e: Event, d: Api.EventDraft): Event {
    e.(title := d.title, description := d.description, date := d.date, time := d.time,
       department := d.department, createdBy := d.createdBy)
  }

  /** `events.map(event => event.id === id ? x : event)` */
  function ReplaceEvent(events: seq<Event>, id: string, x: Event): (r: seq<Event>)
    ensures |r| == |events|
    ensures forall i :: 0 <= i < |r| ==> r[i] == (if events[i].id == id then x else events[i])
  {
    if |events| == 0 then []
    else [if events[0].id == id then x else events[0]] + ReplaceEvent(events[1..], id, x)
  }

  /** `events.filter(event => event.id !== id)` */
  function WithoutId(events: seq<Event>, id: string): (r: seq<Event>)
    ensures |r| <= |events|
  {
    if |events| == 0 then []
    else (if events[0].id != id then [events[0]] else []) + WithoutId(events[1..], id)
  }

  class StaffEventsPage {
    const staff: Staff
    var events: seq<Event>
    var loading: bool
    var showForm: bool
    var editing: Option<Event>
    var submitting: bool
    var form: EventForm

    constructor (staff: Staff)
      ensures this.staff == staff
      ensures events == [] && loading && !showForm && editing == None && !submitting
      ensures form == BlankForm(staff)
    {
      this.staff := staff;
      events := [];
      loading := true;
      showForm := false;
      editing := None;
      submitting := false;
      form := BlankForm(staff);
    }

    /** fetchEvents: the API's events; loading ends either way. */
    method FetchEvents(fails: bool)
      modifies this
      ensures events == if fails then old(events) else Api.FetchEvents()
      ensures !loading && form == old(form) && editing == old(editing)
      ensures showForm == old(showForm) && submitting == old(submitting)
    {
      if !fails {
        events := Api.FetchEvents();
      }
      loading := false;
    }

    method HandleInputChange(ch: FieldChange)
      modifies this
      ensures form == ApplyChange(old(form), ch)
      ensures events == old(events) && editing == old(editing) && showForm == old(showForm)
      ensures submitting == old(submitting) && loading == old(loading)
    {
      form := ApplyChange(form, ch);
    }

    /**
     * handleSubmit: an edit overlays the form on the edited event at every
     * entry with its id; otherwise the API creates the event and it is
     * prepended (unless that call rejects, `fails`, which changes nothing).
     * After a save the form is reset, closed and no event is being edited.
     */
    method HandleSubmit(id: string, createdAt: string, fails: bool)
      modifies this
      ensures !submitting && loading == old(loading)
      ensures old(editing).Some? ==>
        events == ReplaceEvent(old(events), old(editing).value.id, Overlay(old(editing).value, Draft(old(form), staff)))
        && form == BlankForm(staff) && !showForm && editing == None
      ensures old(editing) == None && !fails ==>
        events == [Api.CreateEvent(Draft(old(form), staff), id, createdAt)] + old(events)
        && form == BlankForm(staff) && !showForm && editing == None
      ensures old(editing) == None && fails ==>
        events == old(events) && form == old(form) && showForm == old(showForm) && editing == None
    {
      submitting := true;
      var draft := Draft(form, staff);
      if editing.Some? {
        events := ReplaceEvent(events, editing.value.id, Overlay(editing.value, draft));
      } else if !fails {
        var created := Api.CreateEvent(draft, id, createdAt);
        events := [created] + events;
      }
      if editing.Some? || !fails {
        form := BlankForm(staff);
        showForm := false;
        editing := None;
      }
      submitting := false;
    }

    /** handleEdit: remember the event, copy it into the form, open the form. */
    method HandleEdit(e: Event)
      modifies this
      ensures editing == Some(e) && form == FormOf(e) && showForm
      ensures events == old(events) && submitting == old(submitting) && loading == old(loading)
    {
      editing := Some(e);
      form := FormOf(e);
      showForm := true;
    }

    /** handleDelete: only when the user confirms, every event with that id goes. */
    method HandleDelete(eventId: string, confirmed: bool)
      modifies this
      ensures events == if confirmed then WithoutId(old(events), eventId) else old(events)
      ensures form == old(form) && editing == old(editing) && showForm == old(showForm)
      ensures submitting == old(submitting) && loading == old(loading)
    {
      if confirmed {
        events := WithoutId(events, eventId);
      }
    }

    /** handleNewEvent: no event being edited, a blank form, shown. */
    method HandleNewEvent()
      modifies this
      ensures editing == None && form == BlankForm(staff) && showForm
      ensures events == old(events) && submitting == old(submitting) && loading == old(loading)
    {
      editing := None;
      form := BlankForm(staff);
      showForm := true;
    }

    /** "Cancel": hide the form and forget the edited event; the form's contents stay. */
    method CancelForm()
      modifies this
      ensures !showForm && editing == None
      ensures form == old(form) && events == old(events)
      ensures submitting == old(submitting) && loading == old(loading)
    {
      showForm := false;
      editing := None;
    }
  }

  // ---------------------------------------------------------------------
  // Properties
  // ---------------------------------------------------------------------

  /** A change sets its own field and keeps the other four. */
  lemma ChangeSetsOneField(f: EventForm, ch: FieldChange)
    ensures var g := ApplyChange(f, ch);
      g.title == (if ch.Title? then ch.text else f.title)
      && g.description == (if ch.Description? then ch.text else f.description)
      && g.date == (if ch.Date? then ch.text else f.date)
      && g.time == (if ch.Time? then ch.text else f.time)
      && g.department == (if ch.Department? then ch.text else f.department)
  {
  }

  /**
   * An edit keeps the event's id and creation time, takes every form field,
   * and records the editor as the author: saving an unchanged form still
   * changes `createdBy` when someone else created the event.
   */
  lemma EditedEvent(e: Event, f: EventForm, staff: Staff)
    ensures var x := Overlay(e, Draft(f, staff));
      x.id == e.id && x.createdAt == e.createdAt && FormOf(x) == f && x.createdBy == staff.staffId
    ensures Overlay(e, Draft(FormOf(e), staff)) == e <==> e.createdBy == staff.staffId
  {
    var x := Overlay(e, Draft(FormOf(e), staff));
    if x == e {
      assert x.createdBy == e.createdBy;
    }
  }

  /** Deleting keeps exactly the events with another id. */
  lemma {:induction false} WithoutIdMembers(events: seq<Event>, id: string)
    ensures forall x :: x in WithoutId(events, id) <==> x in events && x.id != id
  {
    if |events| > 0 {
      WithoutIdMembers(events[1..], id);
      assert events == [events[0]] + events[1..];
    }
  }

  /** Deleting keeps the remaining events in order: it distributes over concatenation. */
  lemma {:induction false} WithoutIdConcat(a: seq<Event>, b: seq<Event>, id: string)
    ensures WithoutId(a + b, id) == WithoutId(a, id) + WithoutId(b, id)
  {
    if |a| > 0 {
      assert (a + b)[1..] == a[1..] + b;
      WithoutIdConcat(a[1..], b, id);
    } else {
      assert a + b == b;
    }
  }

  /** Deleting an id nobody carries changes nothing; deleting twice is deleting once. */
  lemma {:induction false} WithoutIdAbsent(events: seq<Event>, id: string)
    requires forall i :: 0 <= i < |events| ==> events[i].id != id
    ensures WithoutId(events, id) == events
  {
    if |events| > 0 {
      WithoutIdAbsent(events[1..], id);
      assert [events[0]] + events[1..] == events;
    }
  }

  lemma WithoutIdIdempotent(events: seq<Event>, id: string)
    ensures WithoutId(WithoutId(events, id), id) == WithoutId(events, id)
  {
    var r := WithoutId(events, id);
    WithoutIdMembers(events, id);
    forall i | 0 <= i < |r|
      ensures r[i].id != id
    {
      assert r[i] in r;
    }
    WithoutIdAbsent(r, id);
  }

  /** Creating an event puts it first, carries the form and the author, and keeps the older events after it. */
  lemma CreatedEventFirst(events: seq<Event>, f: EventForm, staff: Staff, id: string, at: string)
    ensures var t := [Api.CreateEvent(Draft(f, staff), id, at)] + events;
      |t| == |events| + 1 && t[1..] == events
      && t[0].id == id && t[0].createdAt == at && FormOf(t[0]) == f && t[0].createdBy == staff.staffId
  {
  }
}
