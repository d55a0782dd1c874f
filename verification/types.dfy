/**
 * The records and enumerations shared by the whole application: users
 * (students and staff), events, OD (on-duty leave) requests and the two
 * state records held by the session store and the domain store.
 *
 * A field that a caller's loosely typed credentials object may lack is an
 * `Option` when it is an enumeration or a number (`None` stands for
 * `undefined`), and the empty string when it is a string.
 */
module Types {

  datatype Option<+T> = None | Some(value: T)

  datatype Role = StudentRole | StaffRole
  datatype InstitutionType = School | College
  datatype Shift = Morning | Evening
  datatype StaffRank = Tutor | Hod

  datatype ODType = Medical | Personal | Official | Academic
  datatype Category = Intercollege | Intracollege | Other

  /** The four states of the OD approval workflow. */
  datatype ODStatus = Pending | ApprovedByTutor | ApprovedByHod | Rejected

  /** The attendance snapshot embedded in a student; `percentage` is a JS number, kept exact. */
  datatype Attendance = Attendance(
    totalDays: int,
    presentDays: int,
    absentDays: int,
    percentage: real,
    leavesRemaining: int)

  /** The day counts add up. */
  predicate DaysAddUp(a: Attendance) {
    a.presentDays + a.absentDays == a.totalDays
  }

  datatype Student = Student(
    id: string,
    name: string,
    email: string,
    institutionType: Option<InstitutionType>,
    regNo: string,
    department: string,
    degreeName: string,
    stream: string,
    shift: Option<Shift>,
    year: Option<int>,
    attendance: Attendance)

  datatype Staff = Staff(
    id: string,
    name: string,
    email: string,
    institutionType: Option<InstitutionType>,
    staffId: string,
    department: string,
    shift: Option<Shift>,
    staffRole: Option<StaffRank>)

  /** `Student | Staff`, tagged by its constructor instead of a `role` string. */
  datatype User = StudentUser(student: Student) | StaffUser(staff: Staff) {
    function Role(): Role {
      if StudentUser? then StudentRole else StaffRole
    }
  }

  datatype Event = Event(
    id: string,
    title: string,
    description: string,
    date: string,
    time: string,
    department: string,
    createdBy: string,
    createdAt: string)

  datatype ODRequest = ODRequest(
    id: string,
    studentId: string,
    studentName: string,
    title: string,
    description: string,
    odType: ODType,
    category: Category,
    department: string,
    eventName: Option<string>,
    dateFrom: string,
    dateTo: string,
    status: ODStatus,
    fileUrl: Option<string>,
    tutorComments: Option<string>,
    hodComments: Option<string>,
    submittedAt: string)

  /** The session store's record. */
  datatype AuthState = AuthState(
    user: Option<User>,
    token: Option<string>,
    isAuthenticated: bool,
    isLoading: bool)

  /** The domain store's record. */
  datatype AppState = AppState(
    events: seq<Event>,
    odRequests: seq<ODRequest>,
    topStudents: seq<Student>,
    isLoading: bool,
    error: Option<string>)
}
