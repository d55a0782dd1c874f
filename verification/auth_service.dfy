/**
 * The mocked authentication service: `login` and `signup` fabricate a user
 * and a token from whatever credentials they are given, and the session is
 * persisted in the browser's key-value storage under two keys.
 *
 * The storage is a map from keys to stored values; JSON serialisation is
 * taken as the identity, so a serialised user is stored as the user itself.
 */
module AuthService {
  import opened Types

  /**
   * The credentials object the pages pass in. A string field the page does
   * not supply is the empty string; an absent enumeration or number is `None`.
   */
  datatype Credentials = Credentials(
    name: string,
    email: string,
    password: string,
    regNo: string,
    staffId: string,
    department: string,
    degreeName: string,
    stream: string,
    shift: Option<Shift>,
    year: Option<int>,
    role: Option<Role>,
    institutionType: Option<InstitutionType>,
    staffRole: Option<StaffRank>)

  datatype Session = Session(user: User, token: string)

  const DefaultDegreeName := "Bachelor of Technology (B.Tech)"
  const DefaultStream := "Computer Science and Engineering"
  const DefaultDepartment := "Computer Science"

  /** `value || fallback` for a string: an empty string falls back. */
  function OrElse(value: string, fallback: string): string {
    if value != "" then value else fallback
  }

  /** The fixed attendance snapshot every logged-in student receives. */
  const LoginAttendance := Attendance(180, 162, 18, 90.0, 12)

  /** login: a student when the role is "student", a staff member for any other role or none. */
  function Login(c: Credentials): (r: Session)
    ensures r.user.StudentUser? <==> c.role == Some(StudentRole)
    ensures r.user.StudentUser? ==>
      r.token == "mock-jwt-token-student"
      && r.user.student.name == c.name && r.user.student.email == c.email
      && r.user.student.regNo == c.regNo && r.user.student.department == c.department
      && r.user.student.degreeName == (if c.degreeName == "" then DefaultDegreeName else c.degreeName)
      && r.user.student.stream == (if c.stream == "" then DefaultStream else c.stream)
      && DaysAddUp(r.user.student.attendance)
      && r.user.student.attendance.percentage * r.user.student.attendance.totalDays as real
         == r.user.student.attendance.presentDays as real * 100.0
    ensures r.user.StaffUser? ==>
      r.token == "mock-jwt-token-staff"
      && r.user.staff.name == c.name && r.user.staff.email == c.email
      && r.user.staff.staffId == c.staffId && r.user.staff.department == c.department
      && r.user.staff.staffRole == c.staffRole
  {
    if c.role == Some(StudentRole) then
      Session(StudentUser(Student(
        "1", c.name, c.email, c.institutionType, c.regNo, c.department,
        OrElse(c.degreeName, DefaultDegreeName), OrElse(c.stream, DefaultStream),
        c.shift, c.year, LoginAttendance)), "mock-jwt-token-student")
    else
      Session(StaffUser(Staff(
        "2", c.name, c.email, c.institutionType, c.staffId, c.department,
        c.shift, c.staffRole)), "mock-jwt-token-staff")
  }

  /** signup: like login, with a caller-supplied id, an all-zero snapshot and a defaulted department. */
  function Signup(c: Credentials, id: string): (r: Session)
    ensures r.user.StudentUser? <==> c.role == Some(StudentRole)
    ensures r.user.StudentUser? ==>
      r.token == "mock-jwt-token-student-new" && r.user.student.id == id
      && r.user.student.attendance == Attendance(0, 0, 0, 0.0, 0)
      && r.user.student.department == (if c.department == "" then DefaultDepartment else c.department)
      && r.user.student.degreeName == c.degreeName && r.user.student.stream == c.stream
      && r.user.student.year == c.year
    ensures r.user.StaffUser? ==>
      r.token == "mock-jwt-token-staff-new" && r.user.staff.id == id
      && r.user.staff.department == (if c.department == "" then DefaultDepartment else c.department)
      && r.user.staff.staffRole == c.staffRole && r.user.staff.staffId == c.staffId
  {
    if c.role == Some(StudentRole) then
      Session(StudentUser(Student(
        id, c.name, c.email, c.institutionType, c.regNo, OrElse(c.department, DefaultDepartment),
        c.degreeName, c.stream, c.shift, c.year, Attendance(0, 0, 0, 0.0, 0))), "mock-jwt-token-student-new")
    else
      Session(StaffUser(Staff(
        id, c.name, c.email, c.institutionType, c.staffId, OrElse(c.department, DefaultDepartment),
        c.shift, c.staffRole)), "mock-jwt-token-staff-new")
  }

  // ---------------------------------------------------------------------
  // Persisted session
  // ---------------------------------------------------------------------

  const TokenKey := "auth_token"
  const UserKey := "user_data"

  /** What a storage slot holds: plain text, or a serialised user. */
  datatype StoredValue = Text(text: string) | UserJson(user: User)

  /** JavaScript truthiness of a `getItem` result: present and not the empty string. */
  predicate Truthy(items: map<string, StoredValue>, key: string) {
    key in items && items[key] != Text("")
  }

  /**
   * getCurrentUser over a storage snapshot. Both keys must be truthy; a
   * `user_data` text that is not a serialised user fails to parse and gives
   * (null, null), and so does a token slot that does not hold text.
   */
  function CurrentUserIn(items: map<string, StoredValue>): (r: (Option<User>, Option<string>))
    ensures r.0.Some? <==> r.1.Some?
    ensures r.0.Some? ==> TokenKey in items && UserKey in items
                          && items[UserKey] == UserJson(r.0.value)
                          && items[TokenKey] == Text(r.1.value) && r.1.value != ""
  {
    if Truthy(items, TokenKey) && Truthy(items, UserKey)
       && items[UserKey].UserJson? && items[TokenKey].Text?
    then (Some(items[UserKey].user), Some(items[TokenKey].text))
    else (None, None)
  }

  /** The browser's local storage. */
  class LocalStore {
    var items: map<string, StoredValue>

    constructor (initial: map<string, StoredValue>)
      ensures items == initial
    {
      items := initial;
    }

    /** saveAuthData: writes the token, then the serialised user. */
    method SaveAuthData(user: User, token: string)
      modifies this
      ensures items == old(items)[TokenKey := Text(token)][UserKey := UserJson(user)]
    {
      items := items[TokenKey := Text(token)];
      items := items[UserKey := UserJson(user)];
    }

    /** logout: removes both keys and nothing else. */
    method Logout()
      modifies this
      ensures items == old(items) - {TokenKey, UserKey}
    {
      items := items - {TokenKey};
      items := items - {UserKey};
    }

    /** getCurrentUser: reads both keys; a user and a token together, or neither. */
    method GetCurrentUser() returns (user: Option<User>, token: Option<string>)
      ensures (user, token) == CurrentUserIn(items)
      ensures user.Some? <==> token.Some?
      ensures user.Some? ==> items[UserKey] == UserJson(user.value) && items[TokenKey] == Text(token.value)
      ensures !(TokenKey in items && UserKey in items) ==> user == None && token == None
    {
      user, token := None, None;
      var hasToken := TokenKey in items && items[TokenKey] != Text("");
      var hasUser := UserKey in items && items[UserKey] != Text("");
      if hasToken && hasUser {
        if items[UserKey].UserJson? && items[TokenKey].Text? {
          // JSON.parse succeeds only on a serialised user
          user, token := Some(items[UserKey].user), Some(items[TokenKey].text);
        }
      }
    }
  }

  // ---------------------------------------------------------------------
  // Properties
  // ---------------------------------------------------------------------

  /** Saving then reading gives back the same user and token, for any non-empty token. */
  lemma SaveThenRead(items: map<string, StoredValue>, user: User, token: string)
    ensures var after := items[TokenKey := Text(token)][UserKey := UserJson(user)];
      CurrentUserIn(after) == if token != "" then (Some(user), Some(token)) else (None, None)
  {
    assert TokenKey != UserKey;
  }

  /** After logout nothing can be read back. */
  lemma LogoutThenRead(items: map<string, StoredValue>)
    ensures CurrentUserIn(items - {TokenKey, UserKey}) == (None, None)
  {
  }

  /** The mocked service issues non-empty tokens, so its sessions always survive a save. */
  lemma IssuedTokensAreNonEmpty(c: Credentials, id: string)
    ensures Login(c).token != "" && Signup(c, id).token != ""
  {
  }
}
