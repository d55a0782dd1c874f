/**
 * The staff review page for OD requests: who may act on a request, which
 * requests each staff role sees, the four status counts, and the approve
 * and reject handlers that rewrite the page's request list.
 *
 * The page enforces the approval gate only by rendering: the Review and
 * Approve/Reject controls appear when `CanApprove` holds, and the handlers
 * themselves do not consult it. The model keeps that: the handlers accept
 * any request, and `ApproveBypassesGate` shows what follows.
 */
module StaffODRequests {
  import opened Types
  import Validators
  import Api
  import AppStore

  /** canApprove: a tutor acts on `pending`, an HOD on `approved_by_tutor`. */
  predicate CanApprove(role: Option<StaffRank>, r: ODRequest) {
    (role == Some(Tutor) && r.status == Pending) || (role == Some(Hod) && r.status == ApprovedByTutor)
  }

  /** The statuses a tutor's view keeps. */
  predicate InTutorQueue(r: ODRequest) {
    r.status == Pending || r.status == ApprovedByTutor
  }

  function TutorQueue(rs: seq<ODRequest>): (q: seq<ODRequest>)
    ensures |q| <= |rs|
  {
    if |rs| == 0 then []
    else (if InTutorQueue(rs[0]) then [rs[0]] else []) + TutorQueue(rs[1..])
  }

  /** filteredRequests: tutors see their queue, HODs see everything, an unknown role sees nothing. */
  function FilteredRequests(role: Option<StaffRank>, rs: seq<ODRequest>): seq<ODRequest> {
    match role
    case Some(Tutor) => TutorQueue(rs)
    case Some(Hod) => rs
    case None => []
  }

  /** `requests.filter(r => r.status === status).length` */
  function StatusCount(rs: seq<ODRequest>, status: ODStatus): nat {
    if |rs| == 0 then 0
    else (if rs[0].status == status then 1 else 0) + StatusCount(rs[1..], status)
  }

  /** The reject handler's record: `{...request, status: 'rejected', [key]: comments}`. */
  function WithRejection(request: ODRequest, role: Option<StaffRank>, comments: string): ODRequest {
    if role == Some(Tutor) then request.(status := Rejected, tutorComments := Some(comments))
    else request.(status := Rejected, hodComments := Some(comments))
  }

  class StaffODRequestsPage {
    const staff: Staff
    var requests: seq<ODRequest>
    var loading: bool
    var selected: Option<ODRequest>
    var actionLoading: bool
    var comments: string

    constructor (staff: Staff)
      ensures this.staff == staff
      ensures requests == [] && loading && selected == None && !actionLoading && comments == ""
    {
      this.staff := staff;
      requests := [];
      loading := true;
      selected := None;
      actionLoading := false;
      comments := "";
    }

    /** fetchRequests: every mock request (no student filter); loading ends either way. */
    method FetchRequests(fails: bool)
      modifies this
      ensures requests == if fails then old(requests) else Api.FetchODRequests("")
      ensures !loading
      ensures selected == old(selected) && comments == old(comments) && actionLoading == old(actionLoading)
    {
      if !fails {
        requests := Api.FetchODRequests("");
      }
      loading := false;
    }

    /** The list the page renders. */
    function Visible(): seq<ODRequest>
      reads this
    {
      FilteredRequests(staff.staffRole, requests)
    }

    /** "View Details": selects the request and keeps the comment draft. */
    method ViewDetails(r: ODRequest)
      modifies this
      ensures selected == Some(r)
      ensures requests == old(requests) && comments == old(comments)
      ensures actionLoading == old(actionLoading) && loading == old(loading)
    {
      selected := Some(r);
    }

    /** "Review" (rendered only when `CanApprove`): selects the request and clears the draft. */
    method Review(r: ODRequest)
      modifies this
      ensures selected == Some(r) && comments == ""
      ensures requests == old(requests) && actionLoading == old(actionLoading) && loading == old(loading)
    {
      selected := Some(r);
      comments := "";
    }

    /** Typing into the comments box. */
    method EditComments(text: string)
      modifies this
      ensures comments == text
      ensures requests == old(requests) && selected == old(selected)
      ensures actionLoading == old(actionLoading) && loading == old(loading)
    {
      comments := text;
    }

    /** "Close": deselects and clears the draft. */
    method Close()
      modifies this
      ensures selected == None && comments == ""
      ensures requests == old(requests) && actionLoading == old(actionLoading) && loading == old(loading)
    {
      selected := None;
      comments := "";
    }

    /**
     * handleApprove: refused when the draft is blank after trimming;
     * otherwise the API's record replaces every entry with the request's id,
     * unless the call rejects (`fails`), which changes nothing but the
     * loading flag.
     */
    method HandleApprove(request: ODRequest, fails: bool)
      modifies this
      ensures loading == old(loading)
      ensures !Validators.ValidateRequired(old(comments)) ==>
        requests == old(requests) && selected == old(selected)
        && comments == old(comments) && actionLoading == old(actionLoading)
      ensures Validators.ValidateRequired(old(comments)) && !fails ==>
        requests == AppStore.ReplaceById(old(requests), request.id,
                      Api.ApproveODRequest(request.id, old(comments), staff.staffRole))
        && selected == None && comments == "" && !actionLoading
      ensures Validators.ValidateRequired(old(comments)) && fails ==>
        requests == old(requests) && selected == old(selected)
        && comments == old(comments) && !actionLoading
    {
      if !Validators.ValidateRequired(comments) {
        return;
      }
      actionLoading := true;
      if !fails {
        var updated := Api.ApproveODRequest(request.id, comments, staff.staffRole);
        requests := AppStore.ReplaceById(requests, request.id, updated);
        selected := None;
        comments := "";
      }
      actionLoading := false;
    }

    /**
     * handleReject: refused when the draft is blank after trimming;
     * otherwise the request, marked rejected with the comment under the
     * actor's key, replaces every entry with its id.
     */
    method HandleReject(request: ODRequest)
      modifies this
      ensures loading == old(loading)
      ensures !Validators.ValidateRequired(old(comments)) ==>
        requests == old(requests) && selected == old(selected)
        && comments == old(comments) && actionLoading == old(actionLoading)
      ensures Validators.ValidateRequired(old(comments)) ==>
        requests == AppStore.ReplaceById(old(requests), request.id,
                      WithRejection(request, staff.staffRole, old(comments)))
        && selected == None && comments == "" && !actionLoading
    {
      if !Validators.ValidateRequired(comments) {
        return;
      }
      actionLoading := true;
      var updated := WithRejection(request, staff.staffRole, comments);
      requests := AppStore.ReplaceById(requests, request.id, updated);
      selected := None;
      comments := "";
      actionLoading := false;
    }
  }

  // ---------------------------------------------------------------------
  // Properties
  // ---------------------------------------------------------------------

  /** Terminal requests are actionable by nobody; each non-terminal one by exactly one role. */
  lemma CanApproveTable(r: ODRequest)
    ensures r.status == ApprovedByHod || r.status == Rejected ==>
      forall role :: !CanApprove(role, r)
    ensures r.status == Pending ==>
      forall role :: CanApprove(role, r) <==> role == Some(Tutor)
    ensures r.status == ApprovedByTutor ==>
      forall role :: CanApprove(role, r) <==> role == Some(Hod)
  {
  }

  /** The tutor view holds exactly the queued requests of the list. */
  lemma {:induction false} TutorQueueMembers(rs: seq<ODRequest>)
    ensures forall x :: x in TutorQueue(rs) <==> x in rs && InTutorQueue(x)
  {
    if |rs| > 0 {
      TutorQueueMembers(rs[1..]);
      assert rs == [rs[0]] + rs[1..];
    }
  }

  /** The tutor view preserves relative order: it distributes over concatenation. */
  lemma {:induction false} TutorQueueConcat(a: seq<ODRequest>, b: seq<ODRequest>)
    ensures TutorQueue(a + b) == TutorQueue(a) + TutorQueue(b)
  {
    if |a| > 0 {
      assert (a + b)[1..] == a[1..] + b;
      TutorQueueConcat(a[1..], b);
    } else {
      assert a + b == b;
    }
  }

  /** Every request a staff member may act on is in that member's view. */
  lemma ApprovableIsVisible(role: Option<StaffRank>, rs: seq<ODRequest>, r: ODRequest)
    requires r in rs && CanApprove(role, r)
    ensures r in FilteredRequests(role, rs)
  {
    TutorQueueMembers(rs);
  }

  lemma {:induction false} StatusCountsSum(rs: seq<ODRequest>)
    ensures StatusCount(rs, Pending) + StatusCount(rs, ApprovedByTutor)
          + StatusCount(rs, ApprovedByHod) + StatusCount(rs, Rejected) == |rs|
  {
    if |rs| > 0 {
      StatusCountsSum(rs[1..]);
    }
  }

  /** The tutor view is as long as the pending and tutor-approved counts together. */
  lemma {:induction false} TutorQueueLength(rs: seq<ODRequest>)
    ensures |TutorQueue(rs)| == StatusCount(rs, Pending) + StatusCount(rs, ApprovedByTutor)
  {
    if |rs| > 0 {
      TutorQueueLength(rs[1..]);
    }
  }

  /** Reject marks the request rejected, files the comment under the actor's key, and keeps the rest. */
  lemma RejectionRecord(r: ODRequest, role: Option<StaffRank>, c: string)
    ensures var x := WithRejection(r, role, c);
      x.status == Rejected
      && x.tutorComments == (if role == Some(Tutor) then Some(c) else r.tutorComments)
      && x.hodComments == (if role == Some(Tutor) then r.hodComments else Some(c))
      && x.(status := r.status, tutorComments := r.tutorComments, hodComments := r.hodComments) == r
  {
  }

  /** After either action the list keeps its length and only entries with the acted-on id change. */
  lemma ActionTouchesOnlyThatId(rs: seq<ODRequest>, id: string, x: ODRequest)
    ensures var t := AppStore.ReplaceById(rs, id, x);
      |t| == |rs| && forall i :: 0 <= i < |rs| && rs[i].id != id ==> t[i] == rs[i]
  {
  }

  /**
   * The approve handler is not gated: a tutor approving a request that is
   * already rejected, or an HOD approving one the tutor never saw, still
   * yields an approval.
   */
  lemma ApproveBypassesGate(r: ODRequest, c: string)
    ensures r.status == Rejected ==>
      !CanApprove(Some(Tutor), r) && Api.ApproveODRequest(r.id, c, Some(Tutor)).status == ApprovedByTutor
    ensures r.status == Pending ==>
      !CanApprove(Some(Hod), r) && Api.ApproveODRequest(r.id, c, Some(Hod)).status == ApprovedByHod
  {
  }

  /**
   * The two-stage approval of a pending request: the tutor's approval is
   * actionable by the HOD next, whose approval is terminal. The mock
   * service's second record carries only the HOD's comment.
   */
  lemma TwoStageApproval(r: ODRequest, tutorNote: string, hodNote: string)
    requires r.status == Pending
    ensures CanApprove(Some(Tutor), r)
    ensures var a := Api.ApproveODRequest(r.id, tutorNote, Some(Tutor));
      a.status == ApprovedByTutor && a.tutorComments == Some(tutorNote) && CanApprove(Some(Hod), a)
      && !CanApprove(Some(Tutor), a)
    ensures var b := Api.ApproveODRequest(r.id, hodNote, Some(Hod));
      b.status == ApprovedByHod && b.hodComments == Some(hodNote) && b.tutorComments == None
      && forall role :: !CanApprove(role, b)
  {
  }
}
