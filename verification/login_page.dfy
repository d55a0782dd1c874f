/**
 * The login page: its two-field form, the error map `validateForm` fills,
 * clearing an error on input, and the submit handler that validates, calls
 * the session provider's `login` and chooses the dashboard.
 */
module LoginPage {
  import opened Types
  import Validators
  import AuthService
  import AuthContext
  import AuthForms

  datatype LoginForm = LoginForm(email: string, password: string)

  datatype LoginField = Email | Password

  /** The control's `name` attribute, which is also its key in the error map. */
  function FieldName(f: LoginField): AuthForms.FormKey {
    match f
    case Email => AuthForms.EmailKey
    case Password => AuthForms.PasswordKey
  }

  const SubmitMessage := "Invalid credentials. Please try again."

  /** The errors `validateForm` records for a form. */
  function LoginErrors(f: LoginForm): (r: AuthForms.Errors)
    ensures AuthForms.EmailKey in r <==> !Validators.ValidateEmail(f.email)
    ensures AuthForms.PasswordKey in r <==> AuthForms.PasswordRejected(f.password)
    ensures r.Keys <= {AuthForms.EmailKey, AuthForms.PasswordKey}
    ensures AuthForms.EmailKey in r ==> r[AuthForms.EmailKey] == AuthForms.EmailMessage
    ensures AuthForms.PasswordKey in r ==> r[AuthForms.PasswordKey] == AuthForms.PasswordMessage
  {
    (if !Validators.ValidateEmail(f.email) then map[AuthForms.EmailKey := AuthForms.EmailMessage] else map[])
    + (if AuthForms.PasswordRejected(f.password) then map[AuthForms.PasswordKey := AuthForms.PasswordMessage] else map[])
  }

  /** What `login` receives: the form spread with the role and institution from the route state. */
  function LoginCredentials(f: LoginForm, role: Option<Role>, inst: Option<InstitutionType>): AuthService.Credentials {
    AuthService.Credentials("", f.email, f.password, "", "", "", "", "", None, None, role, inst, None)
  }

  class LoginPageState {
    var form: LoginForm
    var errors: AuthForms.Errors

    constructor ()
      ensures form == LoginForm("", "") && errors == map[]
    {
      form := LoginForm("", "");
      errors := map[];
    }

    /** handleInputChange: store the value and clear that field's error if it had one. */
    method HandleInputChange(field: LoginField, value: string)
      modifies this
      ensures form == (match field case Email => old(form).(email := value) case Password => old(form).(password := value))
      ensures errors == AuthForms.ClearError(old(errors), FieldName(field))
    {
      match field {
        case Email => form := form.(email := value);
        case Password => form := form.(password := value);
      }
      if FieldName(field) in errors && errors[FieldName(field)] != "" {
        errors := errors[FieldName(field) := ""];
      }
    }

    /** validateForm: fill a fresh error map check by check, store it, report whether it is empty. */
    method ValidateForm() returns (ok: bool)
      modifies this
      ensures errors == LoginErrors(form) && form == old(form)
      ensures ok <==> errors == map[]
    {
      var newErrors: AuthForms.Errors := map[];
      var emailBad := !Validators.ValidateEmail(form.email);
      var passwordBad := AuthForms.PasswordRejected(form.password);
      if emailBad {
        newErrors := newErrors[AuthForms.EmailKey := AuthForms.EmailMessage];
      }
      if passwordBad {
        newErrors := newErrors[AuthForms.PasswordKey := AuthForms.PasswordMessage];
      }
      assert newErrors == LoginErrors(form);
      errors := newErrors;
      ok := newErrors == map[];
    }

    /**
     * handleSubmit: nothing reaches the provider when validation fails;
     * otherwise `login` runs, and either the dashboard for the role is the
     * navigation target or (a rejected login, `fails`) the errors become
     * the single submit message.
     */
    method HandleSubmit(auth: AuthContext.AuthProvider, role: Option<Role>, inst: Option<InstitutionType>, fails: bool)
      returns (navigateTo: Option<string>)
      requires auth.Valid()
      modifies this, auth, auth.store
      ensures auth.Valid() && form == old(form)
      ensures LoginErrors(old(form)) != map[] ==>
        navigateTo == None && errors == LoginErrors(old(form))
        && auth.dispatched == old(auth.dispatched) && auth.state == old(auth.state)
        && auth.store.items == old(auth.store.items)
      ensures LoginErrors(old(form)) == map[] && !fails ==>
        navigateTo == Some(AuthForms.DashboardFor(role)) && errors == map[]
        && auth.state.user == Some(AuthService.Login(LoginCredentials(old(form), role, inst)).user)
      ensures LoginErrors(old(form)) == map[] && fails ==>
        navigateTo == None && errors == map[AuthForms.SubmitKey := SubmitMessage]
        && auth.state == AuthContext.InitialAuthState
    {
      var ok := ValidateForm();
      if !ok {
        return None;
      }
      var loggedIn := auth.Login(LoginCredentials(form, role, inst), fails);
      if loggedIn {
        navigateTo := Some(AuthForms.DashboardFor(role));
      } else {
        errors := map[AuthForms.SubmitKey := SubmitMessage];
        navigateTo := None;
      }
    }
  }

  // ---------------------------------------------------------------------
  // Properties
  // ---------------------------------------------------------------------

  /** The form passes exactly when the email is valid and the password rule accepts the password. */
  lemma LoginFormValidIff(f: LoginForm)
    ensures LoginErrors(f) == map[] <==> Validators.ValidateEmail(f.email) && !AuthForms.PasswordRejected(f.password)
  {
    if LoginErrors(f) == map[] {
      assert AuthForms.EmailKey !in LoginErrors(f) && AuthForms.PasswordKey !in LoginErrors(f);
    }
  }

  /** A login from this page always yields a student for role "student" and staff otherwise, with no staff rank. */
  lemma LoginPageUser(f: LoginForm, role: Option<Role>, inst: Option<InstitutionType>)
    ensures var u := AuthService.Login(LoginCredentials(f, role, inst)).user;
      (u.StudentUser? <==> role == Some(StudentRole))
      && (u.StaffUser? ==> u.staff.staffRole == None)
      && (u.StudentUser? ==> u.student.email == f.email)
  {
  }
}
