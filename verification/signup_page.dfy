/**
 * The signup page: its form (text fields, three selects and the numeric
 * year), the error map `validateForm` fills with role-dependent rules,
 * clearing an error on input, and the submit handler that calls the
 * session provider's `signup` and chooses the dashboard.
 */
module SignupPage {
  import opened Types
  import Validators
  import AuthService
  import AuthContext
  import AuthForms

  datatype SignupForm = SignupForm(
    name: string,
    email: string,
    password: string,
    confirmPassword: string,
    regNo: string,
    staffId: string,
    /** The page renders no department control, so this stays as initialised. */
    department: string,
    degreeName: string,
    stream: string,
    shift: Shift,
    /** `parseInt` of the selected option; `None` stands for `NaN`. */
    year: Option<int>,
    staffRole: StaffRank)

  const InitialForm := SignupForm("", "", "", "", "", "", "", "", "", Morning, Some(1), Tutor)

  datatype TextField = Name | Email | Password | ConfirmPassword | RegNo | StaffId | DegreeName | Stream

  /** One change event: a text control, a select, or the year select's raw value. */
  datatype FieldChange =
    | Text(field: TextField, value: string)
    | ShiftSelect(shift: Shift)
    | StaffRoleSelect(rank: StaffRank)
    | YearSelect(raw: string)

  /** The control's `name` attribute, which is also its key in the error map. */
  function FieldName(ch: FieldChange): AuthForms.FormKey {
    match ch
    case Text(f, _) =>
      (match f
       case Name => AuthForms.NameKey
       case Email => AuthForms.EmailKey
       case Password => AuthForms.PasswordKey
       case ConfirmPassword => AuthForms.ConfirmPasswordKey
       case RegNo => AuthForms.RegNoKey
       case StaffId => AuthForms.StaffIdKey
       case DegreeName => AuthForms.DegreeNameKey
       case Stream => AuthForms.StreamKey)
    case ShiftSelect(_) => AuthForms.ShiftKey
    case StaffRoleSelect(_) => AuthForms.StaffRoleKey
    case YearSelect(_) => AuthForms.YearKey
  }

  // ---------------------------------------------------------------------
  // parseInt, for the decimal strings the year select supplies
  // ---------------------------------------------------------------------

  predicate IsDigit(c: char) {
    '0' <= c <= '9'
  }

  /** The longest prefix of decimal digits. */
  function LeadingDigits(s: string): (r: string)
    ensures |r| <= |s| && r == s[..|r|]
    ensures forall i :: 0 <= i < |r| ==> IsDigit(r[i])
    ensures |r| < |s| ==> !IsDigit(s[|r|])
  {
    if |s| == 0 || !IsDigit(s[0]) then [] else [s[0]] + LeadingDigits(s[1..])
  }

  /** The value of a string of decimal digits, most significant first. */
  function DigitsValue(d: string): nat
    requires forall i :: 0 <= i < |d| ==> IsDigit(d[i])
  {
    if |d| == 0 then 0
    else
      var last := d[|d| - 1];
      assert IsDigit(last);
      DigitsValue(d[..|d| - 1]) * 10 + (last as int - '0' as int)
  }

  /** `parseInt(value)` on a string starting with a digit; `None` (NaN) when there is no leading digit. */
  function ParseInt(s: string): (r: Option<int>)
    ensures r.Some? <==> |s| > 0 && IsDigit(s[0])
    ensures r.Some? ==> r.value >= 0
  {
    var d := LeadingDigits(s);
    if |d| == 0 then None else Some(DigitsValue(d))
  }

  /** The decimal spelling of a natural number, as the year options render it. */
  function DecimalString(n: nat): (r: string)
    ensures |r| > 0
    ensures forall i :: 0 <= i < |r| ==> IsDigit(r[i])
  {
    if n < 10 then [('0' as int + n) as char]
    else DecimalString(n / 10) + [('0' as int + n % 10) as char]
  }

  /** handleInputChange's form update: each control sets its own field; the year goes through parseInt. */
  function ApplyChange(f: SignupForm, ch: FieldChange): SignupForm {
    match ch
    case Text(field, v) =>
      (match field
       case Name => f.(name := v)
       case Email => f.(email := v)
       case Password => f.(password := v)
       case ConfirmPassword => f.(confirmPassword := v)
       case RegNo => f.(regNo := v)
       case StaffId => f.(staffId := v)
       case DegreeName => f.(degreeName := v)
       case Stream => f.(stream := v))
    case ShiftSelect(s) => f.(shift := s)
    case StaffRoleSelect(r) => f.(staffRole := r)
    case YearSelect(raw) => f.(year := ParseInt(raw))
  }

  // ---------------------------------------------------------------------
  // Validation
  // ---------------------------------------------------------------------

  const NameMessage := "Name is required"
  const ConfirmMessage := "Passwords do not match"
  const RegNoMessage := "Registration number is required"
  const DegreeMessage := "Degree name is required"
  const StreamMessage := "Stream is required"
  const StaffIdMessage := "Staff ID is required"
  const SubmitMessage := "Registration failed. Please try again."

  /** The keys `validateForm` can set. */
  const Checked: set<AuthForms.FormKey> := {
    AuthForms.NameKey, AuthForms.EmailKey, AuthForms.PasswordKey, AuthForms.ConfirmPasswordKey,
    AuthForms.RegNoKey, AuthForms.DegreeNameKey, AuthForms.StreamKey, AuthForms.StaffIdKey }

  /** The four checks every signup runs: name, email, password, confirmation. */
  function CommonErrors(f: SignupForm): AuthForms.Errors {
    var e := AuthForms.RecordIf(map[], !Validators.ValidateRequired(f.name), AuthForms.NameKey, NameMessage);
    var e := AuthForms.RecordIf(e, !Validators.ValidateEmail(f.email), AuthForms.EmailKey, AuthForms.EmailMessage);
    var e := AuthForms.RecordIf(e, AuthForms.PasswordRejected(f.password), AuthForms.PasswordKey, AuthForms.PasswordMessage);
    AuthForms.RecordIf(e, f.password != f.confirmPassword, AuthForms.ConfirmPasswordKey, ConfirmMessage)
  }

  /** The identity checks added to `e`: registration number, degree and stream for a student, staff id otherwise. */
  function IdentityErrors(e: AuthForms.Errors, f: SignupForm, role: Option<Role>): AuthForms.Errors {
    if role == Some(StudentRole) then
      var e := AuthForms.RecordIf(e, !Validators.ValidateRequired(f.regNo), AuthForms.RegNoKey, RegNoMessage);
      var e := AuthForms.RecordIf(e, !Validators.ValidateRequired(f.degreeName), AuthForms.DegreeNameKey, DegreeMessage);
      AuthForms.RecordIf(e, !Validators.ValidateRequired(f.stream), AuthForms.StreamKey, StreamMessage)
    else
      AuthForms.RecordIf(e, !Validators.ValidateRequired(f.staffId), AuthForms.StaffIdKey, StaffIdMessage)
  }

  /** The errors `validateForm` records for a form and the role from the route state. */
  function SignupErrors(f: SignupForm, role: Option<Role>): AuthForms.Errors {
    IdentityErrors(CommonErrors(f), f, role)
  }

  /** What `signup` receives: the whole form spread with the role and institution from the route state. */
  function SignupCredentials(f: SignupForm, role: Option<Role>, inst: Option<InstitutionType>): AuthService.Credentials {
    AuthService.Credentials(f.name, f.email, f.password, f.regNo, f.staffId, f.department,
                            f.degreeName, f.stream, Some(f.shift), f.year, role, inst, Some(f.staffRole))
  }

  class SignupPageState {
    var form: SignupForm
    var errors: AuthForms.Errors

    constructor ()
      ensures form == InitialForm && errors == map[]
    {
      form := InitialForm;
      errors := map[];
    }

    /** handleInputChange: store the (parsed) value and clear that field's error if it had one. */
    method HandleInputChange(ch: FieldChange)
      modifies this
      ensures form == ApplyChange(old(form), ch)
      ensures errors == AuthForms.ClearError(old(errors), FieldName(ch))
    {
      form := ApplyChange(form, ch);
      var name := FieldName(ch);
      if name in errors && errors[name] != "" {
        errors := errors[name := ""];
      }
    }

    /** validateForm: fill a fresh error map check by check, store it, report whether it is empty. */
    method ValidateForm(role: Option<Role>) returns (ok: bool)
      modifies this
      ensures errors == SignupErrors(form, role) && form == old(form)
      ensures ok <==> errors == map[]
    {
      var f := form;
      var newErrors: AuthForms.Errors := map[];
      newErrors := AuthForms.RecordIf(newErrors, !Validators.ValidateRequired(f.name), AuthForms.NameKey, NameMessage);
      newErrors := AuthForms.RecordIf(newErrors, !Validators.ValidateEmail(f.email), AuthForms.EmailKey, AuthForms.EmailMessage);
      newErrors := AuthForms.RecordIf(newErrors, AuthForms.PasswordRejected(f.password), AuthForms.PasswordKey, AuthForms.PasswordMessage);
      newErrors := AuthForms.RecordIf(newErrors, f.password != f.confirmPassword, AuthForms.ConfirmPasswordKey, ConfirmMessage);
      assert newErrors == CommonErrors(f);
      ghost var common := newErrors;
      if role == Some(StudentRole) {
        newErrors := AuthForms.RecordIf(newErrors, !Validators.ValidateRequired(f.regNo), AuthForms.RegNoKey, RegNoMessage);
        newErrors := AuthForms.RecordIf(newErrors, !Validators.ValidateRequired(f.degreeName), AuthForms.DegreeNameKey, DegreeMessage);
        newErrors := AuthForms.RecordIf(newErrors, !Validators.ValidateRequired(f.stream), AuthForms.StreamKey, StreamMessage);
      } else {
        newErrors := AuthForms.RecordIf(newErrors, !Validators.ValidateRequired(f.staffId), AuthForms.StaffIdKey, StaffIdMessage);
      }
      assert newErrors == IdentityErrors(common, f, role);
      errors := newErrors;
      ok := newErrors == map[];
    }

    /**
     * handleSubmit: nothing reaches the provider when validation fails;
     * otherwise `signup` runs with the caller-supplied id, and either the
     * dashboard for the role is the navigation target or (a rejected
     * signup, `fails`) the errors become the single submit message.
     */
    method HandleSubmit(auth: AuthContext.AuthProvider, role: Option<Role>, inst: Option<InstitutionType>,
                        id: string, fails: bool) returns (navigateTo: Option<string>)
      requires auth.Valid()
      modifies this, auth, auth.store
      ensures auth.Valid() && form == old(form)
      ensures SignupErrors(old(form), role) != map[] ==>
        navigateTo == None && errors == SignupErrors(old(form), role)
        && auth.dispatched == old(auth.dispatched) && auth.state == old(auth.state)
        && auth.store.items == old(auth.store.items)
      ensures SignupErrors(old(form), role) == map[] && !fails ==>
        navigateTo == Some(AuthForms.DashboardFor(role)) && errors == map[]
        && auth.state.user == Some(AuthService.Signup(SignupCredentials(old(form), role, inst), id).user)
      ensures SignupErrors(old(form), role) == map[] && fails ==>
        navigateTo == None && errors == map[AuthForms.SubmitKey := SubmitMessage]
        && auth.state == AuthContext.InitialAuthState
    {
      var ok := ValidateForm(role);
      if !ok {
        return None;
      }
      var signedUp := auth.Signup(SignupCredentials(form, role, inst), id, fails);
      if signedUp {
        navigateTo := Some(AuthForms.DashboardFor(role));
      } else {
        errors := map[AuthForms.SubmitKey := SubmitMessage];
        navigateTo := None;
      }
    }
  }

  // ---------------------------------------------------------------------
  // Properties
  // ---------------------------------------------------------------------

  /** The common checks record their keys exactly when they fail, and no other key. */
  lemma CommonErrorsKeys(f: SignupForm)
    ensures AuthForms.NameKey in CommonErrors(f) <==> !Validators.ValidateRequired(f.name)
    ensures AuthForms.EmailKey in CommonErrors(f) <==> !Validators.ValidateEmail(f.email)
    ensures AuthForms.PasswordKey in CommonErrors(f) <==> AuthForms.PasswordRejected(f.password)
    ensures AuthForms.ConfirmPasswordKey in CommonErrors(f) <==> f.password != f.confirmPassword
    ensures CommonErrors(f).Keys <= {AuthForms.NameKey, AuthForms.EmailKey, AuthForms.PasswordKey, AuthForms.ConfirmPasswordKey}
  {
  }

  /** The identity checks keep what is already recorded and add each identity key exactly when its check fails. */
  lemma IdentityErrorsKeys(e: AuthForms.Errors, f: SignupForm, role: Option<Role>)
    ensures e.Keys <= IdentityErrors(e, f, role).Keys
    ensures IdentityErrors(e, f, role).Keys <= e.Keys + {AuthForms.RegNoKey, AuthForms.DegreeNameKey, AuthForms.StreamKey, AuthForms.StaffIdKey}
    ensures AuthForms.RegNoKey in IdentityErrors(e, f, role) <==>
      AuthForms.RegNoKey in e || (role == Some(StudentRole) && !Validators.ValidateRequired(f.regNo))
    ensures AuthForms.DegreeNameKey in IdentityErrors(e, f, role) <==>
      AuthForms.DegreeNameKey in e || (role == Some(StudentRole) && !Validators.ValidateRequired(f.degreeName))
    ensures AuthForms.StreamKey in IdentityErrors(e, f, role) <==>
      AuthForms.StreamKey in e || (role == Some(StudentRole) && !Validators.ValidateRequired(f.stream))
    ensures AuthForms.StaffIdKey in IdentityErrors(e, f, role) <==>
      AuthForms.StaffIdKey in e || (role != Some(StudentRole) && !Validators.ValidateRequired(f.staffId))
  {
  }

  /** Each check records its key exactly when it fails, the identity checks only for the role they belong to. */
  lemma SignupErrorsKeys(f: SignupForm, role: Option<Role>)
    ensures AuthForms.NameKey in SignupErrors(f, role) <==> !Validators.ValidateRequired(f.name)
    ensures AuthForms.EmailKey in SignupErrors(f, role) <==> !Validators.ValidateEmail(f.email)
    ensures AuthForms.PasswordKey in SignupErrors(f, role) <==> AuthForms.PasswordRejected(f.password)
    ensures AuthForms.ConfirmPasswordKey in SignupErrors(f, role) <==> f.password != f.confirmPassword
    ensures AuthForms.RegNoKey in SignupErrors(f, role) <==> role == Some(StudentRole) && !Validators.ValidateRequired(f.regNo)
    ensures AuthForms.DegreeNameKey in SignupErrors(f, role) <==> role == Some(StudentRole) && !Validators.ValidateRequired(f.degreeName)
    ensures AuthForms.StreamKey in SignupErrors(f, role) <==> role == Some(StudentRole) && !Validators.ValidateRequired(f.stream)
    ensures AuthForms.StaffIdKey in SignupErrors(f, role) <==> role != Some(StudentRole) && !Validators.ValidateRequired(f.staffId)
    ensures SignupErrors(f, role).Keys <= Checked
  {
    CommonErrorsKeys(f);
    IdentityErrorsKeys(CommonErrors(f), f, role);
  }

  /** A student passes without a staff id, and staff pass without a registration number, degree or stream. */
  lemma RoleDecidesRequiredIds(f: SignupForm)
    ensures SignupErrors(f, Some(StudentRole)) == map[] <==>
      Validators.ValidateRequired(f.name) && Validators.ValidateEmail(f.email)
      && !AuthForms.PasswordRejected(f.password) && f.password == f.confirmPassword
      && Validators.ValidateRequired(f.regNo) && Validators.ValidateRequired(f.degreeName)
      && Validators.ValidateRequired(f.stream)
    ensures forall role :: role != Some(StudentRole) ==>
      (SignupErrors(f, role) == map[] <==>
        Validators.ValidateRequired(f.name) && Validators.ValidateEmail(f.email)
        && !AuthForms.PasswordRejected(f.password) && f.password == f.confirmPassword
        && Validators.ValidateRequired(f.staffId))
  {
    SignupErrorsKeys(f, Some(StudentRole));
    var s := SignupErrors(f, Some(StudentRole));
    if s == map[] {
      assert AuthForms.NameKey !in s && AuthForms.EmailKey !in s && AuthForms.PasswordKey !in s && AuthForms.ConfirmPasswordKey !in s;
      assert AuthForms.RegNoKey !in s && AuthForms.DegreeNameKey !in s && AuthForms.StreamKey !in s;
    }
    forall role | role != Some(StudentRole)
      ensures SignupErrors(f, role) == map[] <==>
        Validators.ValidateRequired(f.name) && Validators.ValidateEmail(f.email)
        && !AuthForms.PasswordRejected(f.password) && f.password == f.confirmPassword
        && Validators.ValidateRequired(f.staffId)
    {
      SignupErrorsKeys(f, role);
      var t := SignupErrors(f, role);
      if t == map[] {
        assert AuthForms.NameKey !in t && AuthForms.EmailKey !in t && AuthForms.PasswordKey !in t && AuthForms.ConfirmPasswordKey !in t;
        assert AuthForms.StaffIdKey !in t;
      }
    }
  }

  /** The leading digits of a string of digits are the whole string. */
  lemma {:induction false} AllDigitsLead(s: string)
    requires forall i :: 0 <= i < |s| ==> IsDigit(s[i])
    ensures LeadingDigits(s) == s
  {
    if |s| > 0 {
      AllDigitsLead(s[1..]);
    }
  }

  /** Reading back a rendered number gives the number. */
  lemma {:induction false} DigitsValueOfDecimal(n: nat)
    ensures DigitsValue(DecimalString(n)) == n
  {
    var d := DecimalString(n);
    if n >= 10 {
      DigitsValueOfDecimal(n / 10);
      assert d[..|d| - 1] == DecimalString(n / 10);
    }
  }

  /** parseInt inverts the decimal rendering, so the year select's options 1 to 4 parse to 1 to 4. */
  lemma ParseIntRoundTrip(n: nat)
    ensures ParseInt(DecimalString(n)) == Some(n)
  {
    AllDigitsLead(DecimalString(n));
    DigitsValueOfDecimal(n);
  }

  /** A change to one control leaves every other field and the year alone unless it is the year. */
  lemma YearChangeOnly(f: SignupForm, ch: FieldChange)
    ensures !ch.YearSelect? ==> ApplyChange(f, ch).year == f.year
    ensures ch.YearSelect? ==> ApplyChange(f, ch) == f.(year := ParseInt(ch.raw))
  {
  }
}
