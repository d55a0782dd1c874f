/**
 * What the login and signup pages share: the field-error map each keeps,
 * clearing a field's error on input, the password rule, and the dashboard
 * each navigates to after a successful submit.
 */
module AuthForms {
  import opened Types
  import Validators

  /**
   * The keys of a page's error record: the `name` attribute of each form
   * control, and "submit" for the error of the submit call itself.
   */
  datatype FormKey =
    | NameKey | EmailKey | PasswordKey | ConfirmPasswordKey | RegNoKey | StaffIdKey
    | DegreeNameKey | StreamKey | ShiftKey | YearKey | StaffRoleKey | SubmitKey

  /** `Record<string, string>` of field errors. */
  type Errors = map<FormKey, string>

  const PasswordMessage := "Password must be at least 6 characters"
  const EmailMessage := "Please enter a valid email"

  /** `if (errors[name]) setErrors(prev => ({ ...prev, [name]: '' }))` */
  function ClearError(errors: Errors, name: FormKey): (r: Errors)
    ensures r.Keys == errors.Keys
    ensures name in r ==> r[name] == ""
    ensures forall k :: k in errors && k != name ==> r[k] == errors[k]
  {
    if name in errors && errors[name] != "" then errors[name := ""] else errors
  }

  /** `if (bad) newErrors[key] = message` */
  function RecordIf(errors: Errors, bad: bool, key: FormKey, message: string): Errors {
    if bad then errors[key := message] else errors
  }

  /** The password is refused when blank after trimming or shorter than six characters. */
  predicate PasswordRejected(password: string) {
    !Validators.ValidateRequired(password) || |password| < 6
  }

  const StudentDashboard := "/student/dashboard"
  const StaffDashboard := "/staff/dashboard"

  /** The navigation target after a successful submit: a student's dashboard only for role "student". */
  function DashboardFor(role: Option<Role>): (r: string)
    ensures r == StudentDashboard <==> role == Some(StudentRole)
    ensures r == StaffDashboard <==> role != Some(StudentRole)
  {
    if role == Some(StudentRole) then StudentDashboard else StaffDashboard
  }

  /** Six non-blank characters or more pass the password rule; anything shorter never does. */
  lemma PasswordRule(password: string)
    ensures |password| < 6 ==> PasswordRejected(password)
    ensures |password| >= 6 ==> (PasswordRejected(password) <==> !Validators.HasNonBlank(password))
  {
    Validators.ValidateRequiredIffNonBlank(password);
  }

  /** Clearing twice is clearing once; clearing an absent or empty entry changes nothing. */
  lemma ClearErrorIdempotent(errors: Errors, name: FormKey)
    ensures ClearError(ClearError(errors, name), name) == ClearError(errors, name)
    ensures (name !in errors || errors[name] == "") ==> ClearError(errors, name) == errors
  {
  }
}
