/**
 * The mock API client. It holds a bearer token and builds request headers
 * from it; every data call returns canned or caller-derived records. The
 * generated ids and timestamps (`Date.now()`, `toISOString()`) are
 * parameters here, and the artificial delays are not modelled.
 */
module Api {
  import opened Types

  /** The fields of an event that the caller supplies (`Omit<Event, 'id' | 'createdAt'>`). */
  datatype EventDraft = EventDraft(
    title: string,
    description: string,
    date: string,
    time: string,
    department: string,
    createdBy: string)

  /** The fields of a request that the caller supplies (`Omit<ODRequest, 'id' | 'status' | 'submittedAt'>`). */
  datatype RequestDraft = RequestDraft(
    studentId: string,
    studentName: string,
    title: string,
    description: string,
    odType: ODType,
    category: Category,
    department: string,
    eventName: Option<string>,
    dateFrom: string,
    dateTo: string,
    fileUrl: Option<string>,
    tutorComments: Option<string>,
    hodComments: Option<string>)

  class ApiService {
    var token: Option<string>

    constructor ()
      ensures token == None
    {
      token := None;
    }

    /** setToken: replaces the stored token. */
    method SetToken(t: Option<string>)
      modifies this
      ensures token == t
    {
      token := t;
    }

    /** getHeaders: always JSON; a bearer header only for a non-null, non-empty token. */
    method GetHeaders() returns (headers: map<string, string>)
      ensures "Content-Type" in headers && headers["Content-Type"] == "application/json"
      ensures "Authorization" in headers <==> token.Some? && token.value != ""
      ensures "Authorization" in headers ==> headers["Authorization"] == "Bearer " + token.value
      ensures headers.Keys <= {"Content-Type", "Authorization"}
    {
      headers := map["Content-Type" := "application/json"];
      if token.Some? && token.value != "" {
        headers := headers["Authorization" := "Bearer " + token.value];
      }
    }
  }

  /** fetchEvents: the two canned events. */
  function FetchEvents(): (r: seq<Event>)
    ensures |r| == 2 && r[0].id != r[1].id
  {
    [ Event("1", "Annual Sports Day", "Inter-department sports competition",
            "2025-02-15", "09:00", "All Departments", "admin", "2025-01-10T08:00:00Z"),
      Event("2", "Technical Symposium", "Technical paper presentations and competitions",
            "2025-02-20", "10:00", "Computer Science", "staff-cs", "2025-01-12T10:00:00Z") ]
  }

  /** createEvent: the draft's fields unchanged, plus the generated id and timestamp. */
  function CreateEvent(d: EventDraft, id: string, createdAt: string): (e: Event)
    ensures e.id == id && e.createdAt == createdAt
    ensures EventDraft(e.title, e.description, e.date, e.time, e.department, e.createdBy) == d
  {
    Event(id, d.title, d.description, d.date, d.time, d.department, d.createdBy, createdAt)
  }

  /** The two canned requests of fetchODRequests. */
  const MockRequests: seq<ODRequest> := [
    ODRequest("1", "1", "John Doe", "Medical Appointment", "Regular health checkup",
              Medical, Other, "Computer Science", None, "2025-01-20", "2025-01-20",
              Pending, None, None, None, "2025-01-15T09:00:00Z"),
    ODRequest("2", "2", "Jane Smith", "Family Function", "Sister's wedding ceremony",
              Personal, Other, "Electronics", None, "2025-01-25", "2025-01-27",
              ApprovedByTutor, None, Some("Approved for family emergency"), None, "2025-01-18T14:00:00Z")
  ]

  /** The requests submitted by `studentId`, in their original order. */
  function OfStudent(rs: seq<ODRequest>, studentId: string): (r: seq<ODRequest>)
    ensures |r| <= |rs|
    ensures forall x :: x in r <==> x in rs && x.studentId == studentId
  {
    if |rs| == 0 then []
    else (if rs[0].studentId == studentId then [rs[0]] else []) + OfStudent(rs[1..], studentId)
  }

  /** fetchODRequests: a truthy (non-empty) id filters by requester; otherwise all. */
  function FetchODRequests(studentId: string): (r: seq<ODRequest>)
    ensures studentId == "" ==> r == MockRequests
    ensures forall x :: x in r <==> x in MockRequests && (studentId == "" || x.studentId == studentId)
  {
    if studentId != "" then OfStudent(MockRequests, studentId) else MockRequests
  }

  /** submitODRequest: the draft unchanged, `pending`, with generated id and timestamp. */
  function SubmitODRequest(d: RequestDraft, id: string, submittedAt: string): (r: ODRequest)
    ensures r.id == id && r.status == Pending && r.submittedAt == submittedAt
    ensures RequestDraft(r.studentId, r.studentName, r.title, r.description, r.odType, r.category,
                         r.department, r.eventName, r.dateFrom, r.dateTo, r.fileUrl,
                         r.tutorComments, r.hodComments) == d
  {
    ODRequest(id, d.studentId, d.studentName, d.title, d.description, d.odType, d.category,
              d.department, d.eventName, d.dateFrom, d.dateTo, Pending, d.fileUrl,
              d.tutorComments, d.hodComments, submittedAt)
  }

  /**
   * approveODRequest: a canned request carrying the given id. The status
   * and comments depend on the approver's role alone; the request's
   * current status is never consulted. A role other than "tutor"
   * (including none) yields `approved_by_hod`.
   */
  function ApproveODRequest(id: string, comments: string, approverRole: Option<StaffRank>): (r: ODRequest)
    ensures r.id == id
    ensures r.status == (if approverRole == Some(Tutor) then ApprovedByTutor else ApprovedByHod)
    ensures r.tutorComments == (if approverRole == Some(Tutor) then Some(comments) else None)
    ensures r.hodComments == (if approverRole == Some(Hod) then Some(comments) else None)
  {
    ODRequest(id, "1", "John Doe", "Medical Appointment", "Regular health checkup",
              Medical, Other, "Computer Science", None, "2025-01-20", "2025-01-20",
              if approverRole == Some(Tutor) then ApprovedByTutor else ApprovedByHod,
              None,
              if approverRole == Some(Tutor) then Some(comments) else None,
              if approverRole == Some(Hod) then Some(comments) else None,
              "2025-01-15T09:00:00Z")
  }

  /** The snapshot's percentage is presentDays / totalDays * 100 rounded to one decimal. */
  predicate PercentageRounded(a: Attendance) {
    a.totalDays > 0
    && -0.05 * a.totalDays as real <= a.percentage * a.totalDays as real - a.presentDays as real * 100.0
    && a.percentage * a.totalDays as real - a.presentDays as real * 100.0 <= 0.05 * a.totalDays as real
  }

  /** fetchTopStudents: two canned students; their day counts add up. */
  function FetchTopStudents(): (r: seq<Student>)
    ensures |r| == 2
    ensures forall s :: s in r ==> DaysAddUp(s.attendance) && PercentageRounded(s.attendance)
    ensures r[0].attendance.percentage >= r[1].attendance.percentage
  {
    [ Student("101", "Alice Johnson", "alice@example.com", Some(College), "CS2021001",
              "Computer Science", "", "", Some(Morning), Some(3),
              Attendance(180, 175, 5, 97.2, 25)),
      Student("102", "Bob Wilson", "bob@example.com", Some(College), "EE2021002",
              "Electronics", "", "", Some(Morning), Some(3),
              Attendance(180, 172, 8, 95.6, 22)) ]
  }

  // ---------------------------------------------------------------------
  // Properties
  // ---------------------------------------------------------------------

  /** Filtering keeps the original order: it is the identity when every request matches. */
  lemma {:induction false} OfStudentAllMatch(rs: seq<ODRequest>, studentId: string)
    requires forall i :: 0 <= i < |rs| ==> rs[i].studentId == studentId
    ensures OfStudent(rs, studentId) == rs
  {
    if |rs| > 0 {
      OfStudentAllMatch(rs[1..], studentId);
      assert [rs[0]] + rs[1..] == rs;
    }
  }

  /** Filtering distributes over concatenation, so relative order is preserved. */
  lemma {:induction false} OfStudentConcat(a: seq<ODRequest>, b: seq<ODRequest>, studentId: string)
    ensures OfStudent(a + b, studentId) == OfStudent(a, studentId) + OfStudent(b, studentId)
  {
    if |a| > 0 {
      assert (a + b)[1..] == a[1..] + b;
      OfStudentConcat(a[1..], b, studentId);
    } else {
      assert a + b == b;
    }
  }
}
