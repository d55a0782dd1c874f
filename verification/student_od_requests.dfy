/**
 * The student's OD request page: the request form and its change handlers,
 * the submit handler that builds the API payload, prepends the new request
 * and resets the form, and the status labels.
 */
module StudentODRequests {
  import opened Types
  import Api

  /** A file chosen in the upload control. */
  datatype FileRef = FileRef(name: string)

  /** The page's form state. */
  datatype ODForm = ODForm(
    title: string,
    description: string,
    odType: ODType,
    category: Category,
    department: string,
    eventName: string,
    dateFrom: string,
    dateTo: string,
    file: Option<FileRef>)

  /** One change event from a named control, carrying that control's value. */
  datatype FieldChange =
    | Title(text: string)
    | Description(text: string)
    | TypeField(odType: ODType)
    | CategoryField(category: Category)
    | Department(text: string)
    | EventName(text: string)
    | DateFrom(text: string)
    | DateTo(text: string)

  /** The blank form for a student: medical, other, the student's department. */
  function BlankForm(student: Student): ODForm {
    ODForm("", "", Medical, Other, student.department, "", "", "", None)
  }

  /** handleInputChange: set the named field; a category change also clears the event name. */
  function ApplyChange(f: ODForm, ch: FieldChange): ODForm {
    match ch
    case Title(t) => f.(title := t)
    case Description(t) => f.(description := t)
    case TypeField(ty) => f.(odType := ty)
    case CategoryField(c) => f.(category := c, eventName := "")
    case Department(t) => f.(department := t)
    case EventName(t) => f.(eventName := t)
    case DateFrom(t) => f.(dateFrom := t)
    case DateTo(t) => f.(dateTo := t)
  }

  /** The placeholder reference the page sends for an attached file. */
  const UploadedFileUrl := "uploaded-file-url"

  /** The submit payload: empty event name dropped, a file turned into a URL, the requester filled in. */
  function Payload(student: Student, f: ODForm): Api.RequestDraft {
    Api.RequestDraft(
      student.id, student.name, f.title, f.description, f.odType, f.category, f.department,
      if f.eventName != "" then Some(f.eventName) else None,
      f.dateFrom, f.dateTo,
      if f.file.Some? then Some(UploadedFileUrl) else None,
      None, None)
  }

  /** getStatusText */
  function StatusText(status: ODStatus): string {
    match status
    case Pending => "Pending Review"
    case ApprovedByTutor => "Approved by Tutor"
    case ApprovedByHod => "Fully Approved"
    case Rejected => "Rejected"
  }

  class StudentODRequestsPage {
    const student: Student
    var requests: seq<ODRequest>
    var loading: bool
    var showForm: bool
    var submitting: bool
    var form: ODForm

    constructor (student: Student)
      ensures this.student == student
      ensures requests == [] && loading && !showForm && !submitting && form == BlankForm(student)
    {
      this.student := student;
      requests := [];
      loading := true;
      showForm := false;
      submitting := false;
      form := BlankForm(student);
    }

    /** fetchRequests: the requests of this student (all of them when the id is empty). */
    method FetchRequests(fails: bool)
      modifies this
      ensures requests == if fails then old(requests) else Api.FetchODRequests(student.id)
      ensures !loading && form == old(form) && showForm == old(showForm) && submitting == old(submitting)
    {
      if !fails {
        requests := Api.FetchODRequests(student.id);
      }
      loading := false;
    }

    method HandleInputChange(ch: FieldChange)
      modifies this
      ensures form == ApplyChange(old(form), ch)
      ensures requests == old(requests) && showForm == old(showForm)
      ensures submitting == old(submitting) && loading == old(loading)
    {
      form := ApplyChange(form, ch);
    }

    /** handleFileChange: the first selected file, or none when the list is missing or empty. */
    method HandleFileChange(files: Option<seq<FileRef>>)
      modifies this
      ensures form == old(form).(file := if files.Some? && |files.value| > 0 then Some(files.value[0]) else None)
      ensures requests == old(requests) && showForm == old(showForm)
      ensures submitting == old(submitting) && loading == old(loading)
    {
      var file: Option<FileRef> := None;
      if files.Some? && |files.value| > 0 {
        file := Some(files.value[0]);
      }
      form := form.(file := file);
    }

    /** The "New Request" buttons: open the form, keeping whatever it holds. */
    method ShowForm()
      modifies this
      ensures showForm
      ensures requests == old(requests) && form == old(form)
      ensures submitting == old(submitting) && loading == old(loading)
    {
      showForm := true;
    }

    /** "Cancel": hide the form without clearing it. */
    method CancelForm()
      modifies this
      ensures !showForm
      ensures requests == old(requests) && form == old(form)
      ensures submitting == old(submitting) && loading == old(loading)
    {
      showForm := false;
    }

    /**
     * handleSubmit: on success the created request is prepended, the form
     * reset and hidden; on a rejected call (`fails`) nothing changes. The
     * submitting flag is false afterwards either way.
     */
    method HandleSubmit(id: string, submittedAt: string, fails: bool)
      modifies this
      ensures !submitting && loading == old(loading)
      ensures !fails ==>
        requests == [Api.SubmitODRequest(Payload(student, old(form)), id, submittedAt)] + old(requests)
        && form == BlankForm(student) && !showForm
      ensures fails ==> requests == old(requests) && form == old(form) && showForm == old(showForm)
    {
      submitting := true;
      if !fails {
        var created := Api.SubmitODRequest(Payload(student, form), id, submittedAt);
        requests := [created] + requests;
        form := BlankForm(student);
        showForm := false;
      }
      submitting := false;
    }
  }

  // ---------------------------------------------------------------------
  // Properties
  // ---------------------------------------------------------------------

  /** A category change clears the event name; no other change touches it except its own. */
  lemma ChangeResetsEventName(f: ODForm, ch: FieldChange)
    ensures ch.CategoryField? ==> ApplyChange(f, ch).eventName == ""
    ensures !ch.CategoryField? && !ch.EventName? ==> ApplyChange(f, ch).eventName == f.eventName
    ensures ch.EventName? ==> ApplyChange(f, ch).eventName == ch.text
  {
  }

  /** The created request is pending, carries the student as requester and the form's fields. */
  lemma SubmittedRequest(student: Student, f: ODForm, id: string, at: string)
    ensures var r := Api.SubmitODRequest(Payload(student, f), id, at);
      r.status == Pending && r.id == id && r.submittedAt == at
      && r.studentId == student.id && r.studentName == student.name
      && r.title == f.title && r.description == f.description && r.odType == f.odType
      && r.category == f.category && r.department == f.department
      && r.dateFrom == f.dateFrom && r.dateTo == f.dateTo
      && (r.eventName.Some? <==> f.eventName != "")
      && (r.eventName.Some? ==> r.eventName.value == f.eventName)
      && (r.fileUrl.Some? <==> f.file.Some?)
      && r.tutorComments == None && r.hodComments == None
  {
  }

  /** The four status labels are pairwise distinct. */
  lemma StatusTextInjective(a: ODStatus, b: ODStatus)
    ensures StatusText(a) == StatusText(b) ==> a == b
  {
  }
}
