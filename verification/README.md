# mark_my_day — a verified model of the attendance and OD-request core

mark_my_day is a React/TypeScript front end for college attendance. Students file
OD (on-duty leave) requests, and staff approve them in two stages: first a tutor,
then the head of department (HOD). Staff publish events. Both kinds of user sign up,
log in and land on a dashboard. Everything behind the pages is mocked in the browser:
the API service returns canned data, the authentication service fabricates users and
tokens, and the session lives in the browser's key-value storage.

This Dafny project models the logic under the rendering:

- **Types** (`types.dfy`): the records and enumerations of `src/types/index.ts`.
  A user is either a student or a staff member, and its role is read off that.
- **Validators** (`validators.dfy`): the five string validators, as character-level
  predicates. The email regular expression is given as a language and proved equal to
  the character-level decision.
- **Api** (`api_service.dfy`): the mocked API. The token holder is a class; the canned
  data and the record builders are functions.
- **AuthService** (`auth_service.dfy`): `login`/`signup` user construction, and the
  persisted session over a `LocalStore` class.
- **AppStore** and **AuthContext** (`app_state.dfy`, `auth_context.dfy`): the two
  reducers, the session invariant, and the `AuthProvider`. The provider is a class whose
  `login`, `signup`, `logout` and restore effect dispatch in the source's order. It keeps
  a ghost log of everything it dispatched, and its state is always the replay of that log.
- **Pages** (`staff_od_requests.dfy`, `student_od_requests.dfy`, `staff_events.dfy`,
  `auth_forms.dfy`, `login_page.dfy`, `signup_page.dfy`): each page's React state is a
  class. Each handler is a method with `modifies this`, and its postcondition states the
  whole new state. The list updates and the form validation are specified by functions,
  and lemmas prove the promised properties about those functions.
- **AppRouter** (`app_router.dfy`): the route table, React Router's matching of a
  location against it, the role guard and the catch-all redirect. A route path matches a
  location whose ASCII letters agree without regard to case and which may end in any
  number of '/'. This is the pattern React Router compiles for a path without parameters:
  the route followed by `\/*`, with the `i` flag, because no route sets `caseSensitive`.
  The route paths are ASCII, and the `i` flag never folds a non-ASCII character onto an
  ASCII one, so folding ASCII letters is exact here.
- **StudentDashboard** (`student_dashboard.dfy`): the rank label and the year suffix.

Things the model takes as parameters:

- Whether an awaited call rejects is a `fails: bool` parameter.
- The answer to the `confirm` dialog is a `confirmed: bool` parameter.
- Generated ids and timestamps are `id`/`createdAt`/`submittedAt` string parameters.

## Model

| member | source | states |
|---|---|---|
| Validators.TrimStartShape | src/utils/validators.ts:17 | trimming the front drops exactly a leading run of whitespace and stops at a non-whitespace character |
| Validators.TrimEndShape | src/utils/validators.ts:17 | trimming the back drops exactly a trailing run of whitespace and stops at a non-whitespace character |
| Validators.ValidateRequiredIffNonBlank | src/utils/validators.ts:16-18 | `validateRequired(s)` holds iff `s` has at least one non-whitespace character |
| Validators.ValidateMinLengthMonotone | src/utils/validators.ts:20-22 | a string that passes a minimum length also passes every smaller minimum |
| Validators.UpperDigitsAreRequired | src/utils/validators.ts:6-18 | any string accepted by `validateRegNo` or `validateStaffId` is accepted by `validateRequired` |
| Validators.IndexOf | src/utils/validators.ts:2 | the position of the first occurrence of a character, or the length when it is absent |
| Validators.ValidEmailMatches | src/utils/validators.ts:1-4 | a string the character-level check accepts has a split local@domain.tld matching the regex |
| Validators.MatchSplitsAtFirstAt | src/utils/validators.ts:2 | in any split matching the regex, the '@' after the local part is the first '@' of the string |
| Validators.DomainSplit | src/utils/validators.ts:2 | the domain part matches `[^\s@]+\.[^\s@]+` iff it has no '@' or whitespace and an inner '.' |
| Validators.ValidateEmailMatchesPattern | src/utils/validators.ts:1-4 | `validateEmail` accepts exactly the language of `^[^\s@]+@[^\s@]+\.[^\s@]+$` |
| Validators.ValidEmailHasOneAt | src/utils/validators.ts:2-3 | a valid email contains exactly one '@' |
| Validators.ValidateEmail | src/utils/validators.ts:1-4 | `validateEmail`: a plain non-empty local part before the first '@', then a plain domain with a '.' inside it; ValidateEmailMatchesPattern proves this is the regex's language |
| Validators.ValidateRegNo | src/utils/validators.ts:6-9 | `validateRegNo`: 6 to 12 characters, each an ASCII capital letter or a digit |
| Validators.ValidateStaffId | src/utils/validators.ts:11-14 | `validateStaffId`: 4 to 10 characters from the same alphabet |
| Validators.ValidateRequired | src/utils/validators.ts:16-18 | `validateRequired`: something remains after trimming (characterised by ValidateRequiredIffNonBlank) |
| Validators.ValidateMinLength | src/utils/validators.ts:20-22 | `validateMinLength`: at least `minLength` characters |
| Api.ApiService.SetToken | src/services/apiService.ts:7-9 | `setToken` replaces the stored token |
| Api.ApiService.GetHeaders | src/services/apiService.ts:11-21 | Content-Type is always application/json; Authorization is `Bearer <token>`, present iff the token is non-null and non-empty; no other header |
| Api.FetchEvents | src/services/apiService.ts:24-49 | two canned events with distinct ids |
| Api.CreateEvent | src/services/apiService.ts:51-59 | every supplied field comes back unchanged, plus the given id and createdAt |
| Api.OfStudent | src/services/apiService.ts:96-100 | the filter keeps exactly the requests of that student and never lengthens the list |
| Api.FetchODRequests | src/services/apiService.ts:61-101 | with an empty id, all mock requests; otherwise exactly the mock requests of that student |
| Api.OfStudentAllMatch | src/services/apiService.ts:96-100 | the filter is the identity when every request matches, so it keeps the original order |
| Api.OfStudentConcat | src/services/apiService.ts:96-100 | the filter distributes over concatenation, so relative order is preserved |
| Api.SubmitODRequest | src/services/apiService.ts:103-112 | every supplied field comes back unchanged, with status pending and the given id and timestamp |
| Api.ApproveODRequest | src/services/apiService.ts:114-135 | the given id; approved_by_tutor for a tutor, approved_by_hod otherwise, whatever the prior status; the comment goes to the approver's field only |
| Api.FetchTopStudents | src/services/apiService.ts:137-166 | two canned students whose day counts add up and whose percentage is the rounded ratio, in descending percentage |
| AuthService.Login | src/services/authService.ts:4-52 | a student iff the role is "student", else staff; fixed tokens; a missing degree and stream are defaulted; the student's snapshot adds up and its percentage is present/total*100 |
| AuthService.Signup | src/services/authService.ts:54-102 | same role split with the new tokens and the given id; an all-zero snapshot; an empty department becomes "Computer Science" |
| AuthService.CurrentUserIn | src/services/authService.ts:109-123 | a user and a token together or neither; a user only when both keys hold a token and a serialised user |
| AuthService.LocalStore.SaveAuthData | src/services/authService.ts:125-128 | writes the token and the serialised user and nothing else |
| AuthService.LocalStore.Logout | src/services/authService.ts:104-107 | removes both keys and nothing else |
| AuthService.LocalStore.GetCurrentUser | src/services/authService.ts:109-123 | returns (null, null) unless both keys are present and parse |
| AuthService.SaveThenRead | src/services/authService.ts:109-128 | saving and then reading gives back the same user and token, for a non-empty token |
| AuthService.LogoutThenRead | src/services/authService.ts:104-123 | after logout, reading yields (null, null) |
| AuthService.IssuedTokensAreNonEmpty | src/services/authService.ts:4-102 | the tokens login and signup issue are non-empty, so a saved session can be read back |
| AppStore.AppReducer | src/context/AppStateProvider.tsx:26-57 | `appReducer`: the SET actions replace their own collection, ADD_EVENT appends, UPDATE_OD_REQUEST replaces by id, SET_LOADING and SET_ERROR set one flag; the lemmas below prove each |
| AppStore.ReplaceById | src/context/AppStateProvider.tsx:37-43 | same length; every entry with the payload's id is replaced and every other entry kept |
| AppStore.InitialStateIsEmpty | src/context/AppStateProvider.tsx:59-65 | empty lists, not loading, no error |
| AppStore.SetActionsReplaceOneField | src/context/AppStateProvider.tsx:28-46 | each SET action replaces exactly its own collection |
| AppStore.AddEventAppends | src/context/AppStateProvider.tsx:31-32 | ADD_EVENT grows the list by one, with the payload last and the old list as prefix |
| AppStore.UpdateReplacesMatching | src/context/AppStateProvider.tsx:37-43 | UPDATE_OD_REQUEST keeps the length, replaces the matching entries and changes no other field |
| AppStore.ReplaceByIdIdempotent | src/context/AppStateProvider.tsx:40-42 | replacing twice with the same record is replacing once |
| AppStore.ReplaceByIdMissing | src/context/AppStateProvider.tsx:40-42 | replacing an id nobody carries leaves the list as it was |
| AppStore.UpdateIdempotent | src/context/AppStateProvider.tsx:37-43 | UPDATE_OD_REQUEST is idempotent, and a no-op when no id matches |
| AppStore.FlagActionsChangeOneField | src/context/AppStateProvider.tsx:48-55 | SET_LOADING and SET_ERROR each change one flag; an unknown action changes nothing |
| AuthContext.AuthReducer | src/context/AuthContext.tsx:21-61 | `authReducer`: LOGIN_START raises loading; LOGIN_SUCCESS and RESTORE_SESSION authenticate with the payload; LOGIN_ERROR and LOGOUT reset; the lemmas below prove each and that the session stays consistent |
| AuthContext.LoginStartOnlyRaisesLoading | src/context/AuthContext.tsx:23-24 | LOGIN_START sets loading and keeps user, token and authentication |
| AuthContext.SuccessAndRestoreAgree | src/context/AuthContext.tsx:26-56 | LOGIN_SUCCESS and RESTORE_SESSION give the same authenticated, not-loading state |
| AuthContext.ErrorAndLogoutReset | src/context/AuthContext.tsx:34-68 | LOGIN_ERROR and LOGOUT both give exactly the initial state |
| AuthContext.ReducerKeepsConsistent | src/context/AuthContext.tsx:21-61 | every action preserves authenticated ⇔ user present ⇔ token present |
| AuthContext.ReplayConsistent | src/context/AuthContext.tsx:21-68 | every action sequence from the initial state ends in a consistent session |
| AuthContext.ReplaySnoc | src/context/AuthContext.tsx:21-61 | replaying one more action is one more reducer step |
| AuthContext.AuthProvider.constructor | src/context/AuthContext.tsx:63-71 | the provider starts in the initial state, having dispatched nothing |
| AuthContext.AuthProvider.Dispatch | src/context/AuthContext.tsx:71 | dispatching applies the reducer and appends to the log; the state is always the replay of the log |
| AuthContext.AuthProvider.RestoreSession | src/context/AuthContext.tsx:73-78 | RESTORE_SESSION is dispatched only when storage yields both a user and a token, and nothing is written |
| AuthContext.AuthProvider.Login | src/context/AuthContext.tsx:80-90 | LOGIN_START and then exactly one of SUCCESS (after saving the session) or ERROR (rethrown); loading ends false |
| AuthContext.AuthProvider.Signup | src/context/AuthContext.tsx:92-102 | the same dispatch sequence with the signup service |
| AuthContext.AuthProvider.Logout | src/context/AuthContext.tsx:104-107 | storage is cleared, LOGOUT is dispatched, and nothing can be read back |
| AuthContext.LoginSurvivesReload | src/context/AuthContext.tsx:73-90 | after a successful login, a page reload restores exactly the same session |
| StaffODRequests.TutorQueue | src/pages/staff/StaffODRequests.tsx:148-149 | the tutor's filter never lengthens the list |
| StaffODRequests.StaffODRequestsPage.constructor | src/pages/staff/StaffODRequests.tsx:12-16 | empty list, loading, nothing selected, empty draft |
| StaffODRequests.StaffODRequestsPage.FetchRequests | src/pages/staff/StaffODRequests.tsx:21-30 | every mock request on success, the old list on failure; loading ends either way |
| StaffODRequests.StaffODRequestsPage.ViewDetails | src/pages/staff/StaffODRequests.tsx:276 | selects the request and keeps the draft |
| StaffODRequests.StaffODRequestsPage.Review | src/pages/staff/StaffODRequests.tsx:283-296 | selects the request and clears the draft |
| StaffODRequests.StaffODRequestsPage.EditComments | src/pages/staff/StaffODRequests.tsx:385 | typing sets the draft and nothing else |
| StaffODRequests.StaffODRequestsPage.Close | src/pages/staff/StaffODRequests.tsx:418-421 | deselects and clears the draft |
| StaffODRequests.StaffODRequestsPage.HandleApprove | src/pages/staff/StaffODRequests.tsx:91-116 | a blank draft changes nothing; success replaces the entries with that id by the API's record, then clears selection and draft; failure changes only the loading flag |
| StaffODRequests.StaffODRequestsPage.HandleReject | src/pages/staff/StaffODRequests.tsx:118-144 | a blank draft changes nothing; otherwise the rejected record replaces the entries with that id, then selection and draft are cleared |
| StaffODRequests.CanApprove | src/pages/staff/StaffODRequests.tsx:81-89 | `canApprove`: a tutor on a pending request, an HOD on a tutor-approved one, nobody otherwise (tabulated by CanApproveTable) |
| StaffODRequests.FilteredRequests | src/pages/staff/StaffODRequests.tsx:146-153 | `filteredRequests`: the tutor queue for a tutor, every request for an HOD, nothing without a rank (TutorQueueMembers, ApprovableIsVisible) |
| StaffODRequests.StatusCount | src/pages/staff/StaffODRequests.tsx:190-232 | the number of requests in one status, as each summary card shows it (StatusCountsSum) |
| StaffODRequests.WithRejection | src/pages/staff/StaffODRequests.tsx:127-131 | the rejected record: status rejected, the comment in the tutor's field for a tutor and in the HOD's field otherwise (RejectionRecord) |
| StaffODRequests.CanApproveTable | src/pages/staff/StaffODRequests.tsx:81-89 | a tutor may act exactly on pending and an HOD exactly on approved_by_tutor; approved_by_hod and rejected are actionable by nobody |
| StaffODRequests.TutorQueueMembers | src/pages/staff/StaffODRequests.tsx:146-153 | the tutor view holds exactly the pending and approved_by_tutor requests |
| StaffODRequests.TutorQueueConcat | src/pages/staff/StaffODRequests.tsx:146-153 | the tutor view keeps the original order |
| StaffODRequests.ApprovableIsVisible | src/pages/staff/StaffODRequests.tsx:81-153 | every request a staff member may act on is in that member's view |
| StaffODRequests.StatusCountsSum | src/pages/staff/StaffODRequests.tsx:190-232 | the four status counts over the unfiltered list sum to its length |
| StaffODRequests.TutorQueueLength | src/pages/staff/StaffODRequests.tsx:146-204 | the tutor view is as long as the pending and tutor-approved counts together |
| StaffODRequests.RejectionRecord | src/pages/staff/StaffODRequests.tsx:127-131 | status rejected, the comment in the actor's field, every other field unchanged |
| StaffODRequests.ActionTouchesOnlyThatId | src/pages/staff/StaffODRequests.tsx:105-135 | after an action the list keeps its length and only entries with that id change |
| StaffODRequests.ApproveBypassesGate | src/services/apiService.ts:114-128 | the API approves even a rejected request, which the page never offers to do |
| StaffODRequests.TwoStageApproval | src/pages/staff/StaffODRequests.tsx:81-116 | a pending request approved by a tutor becomes actionable by an HOD, and the HOD's approval makes it final |
| StudentODRequests.StudentODRequestsPage.constructor | src/pages/student/StudentODRequests.tsx:14-32 | empty list, loading, form hidden, blank form for the student |
| StudentODRequests.StudentODRequestsPage.FetchRequests | src/pages/student/StudentODRequests.tsx:34-43 | this student's requests on success, the old list on failure; loading ends either way |
| StudentODRequests.StudentODRequestsPage.HandleInputChange | src/pages/student/StudentODRequests.tsx:49-57 | the form takes the change and nothing else moves |
| StudentODRequests.StudentODRequestsPage.HandleFileChange | src/pages/student/StudentODRequests.tsx:59-62 | the first selected file, or none when nothing is selected |
| StudentODRequests.StudentODRequestsPage.HandleSubmit | src/pages/student/StudentODRequests.tsx:64-101 | on success the new request is prepended and the form resets and hides; on failure list and form are unchanged; submitting ends false |
| StudentODRequests.StudentODRequestsPage.ShowForm | src/pages/student/StudentODRequests.tsx:167 | "New Request" (and "Submit Your First Request" at line 434) shows the form; the form's contents and the list are kept |
| StudentODRequests.StudentODRequestsPage.CancelForm | src/pages/student/StudentODRequests.tsx:360-366 | "Cancel" hides the form; its contents and the list are kept |
| StudentODRequests.ApplyChange | src/pages/student/StudentODRequests.tsx:49-57 | one control's new value; a category change also clears the event name (ChangeResetsEventName) |
| StudentODRequests.Payload | src/pages/student/StudentODRequests.tsx:69-81 | the submitted draft: the student's id and name, the form's fields, no event name when it is empty, a placeholder file URL iff a file was chosen (SubmittedRequest) |
| StudentODRequests.StatusText | src/pages/student/StudentODRequests.tsx:118-131 | `getStatusText`: the label of each status (StatusTextInjective) |
| StudentODRequests.ChangeResetsEventName | src/pages/student/StudentODRequests.tsx:49-57 | a category change clears the event name; only the event-name control otherwise changes it |
| StudentODRequests.SubmittedRequest | src/pages/student/StudentODRequests.tsx:69-83 | pending; requester is the student; an empty event name is absent; a file URL iff a file was chosen |
| StudentODRequests.StatusTextInjective | src/pages/student/StudentODRequests.tsx:118-131 | the four status labels are pairwise distinct |
| StaffEvents.ReplaceEvent | src/pages/staff/StaffEvents.tsx:65 | same length; the event with the edited id replaced, every other kept |
| StaffEvents.WithoutId | src/pages/staff/StaffEvents.tsx:105 | deleting never lengthens the list |
| StaffEvents.StaffEventsPage.constructor | src/pages/staff/StaffEvents.tsx:15-30 | empty list, loading, nothing edited, blank form for the staff member |
| StaffEvents.StaffEventsPage.FetchEvents | src/pages/staff/StaffEvents.tsx:32-41 | the API's events on success, the old list on failure; loading ends either way |
| StaffEvents.StaffEventsPage.HandleInputChange | src/pages/staff/StaffEvents.tsx:47-50 | the form takes the change and nothing else moves |
| StaffEvents.StaffEventsPage.HandleSubmit | src/pages/staff/StaffEvents.tsx:52-87 | an edit replaces the edited event by the overlay; a create prepends the API's event; after a save the form resets, hides and nothing is edited |
| StaffEvents.StaffEventsPage.HandleEdit | src/pages/staff/StaffEvents.tsx:89-99 | remembers the event, copies its five fields into the form, shows the form |
| StaffEvents.StaffEventsPage.HandleDelete | src/pages/staff/StaffEvents.tsx:101-110 | a confirmed delete removes every event with that id; an unconfirmed one changes nothing |
| StaffEvents.StaffEventsPage.HandleNewEvent | src/pages/staff/StaffEvents.tsx:112-122 | nothing edited, a blank form, shown |
| StaffEvents.StaffEventsPage.CancelForm | src/pages/staff/StaffEvents.tsx:222-231 | "Cancel" hides the form and forgets the edited event; the form's contents and the list stay |
| StaffEvents.ApplyChange | src/pages/staff/StaffEvents.tsx:47-50 | one control's new value (ChangeSetsOneField) |
| StaffEvents.Draft | src/pages/staff/StaffEvents.tsx:57-60 | `eventData`: the form's five fields with the staff id as author |
| StaffEvents.Overlay | src/pages/staff/StaffEvents.tsx:64 | the edited event with the draft spread over it, keeping id and createdAt (EditedEvent) |
| StaffEvents.ChangeSetsOneField | src/pages/staff/StaffEvents.tsx:47-50 | a change sets its own field and keeps the other four |
| StaffEvents.EditedEvent | src/pages/staff/StaffEvents.tsx:57-65 | an edit keeps id and createdAt and takes the form's fields and the author; saving an untouched form is a no-op iff the editor is the author |
| StaffEvents.WithoutIdMembers | src/pages/staff/StaffEvents.tsx:105 | deleting keeps exactly the events with another id |
| StaffEvents.WithoutIdConcat | src/pages/staff/StaffEvents.tsx:105 | deleting keeps the remaining events in order |
| StaffEvents.WithoutIdAbsent | src/pages/staff/StaffEvents.tsx:105 | deleting an id nobody carries changes nothing |
| StaffEvents.WithoutIdIdempotent | src/pages/staff/StaffEvents.tsx:105 | deleting twice is deleting once |
| StaffEvents.CreatedEventFirst | src/pages/staff/StaffEvents.tsx:67-69 | the created event comes first, carries the form and the author, and the older events follow |
| AuthForms.ClearError | src/pages/auth/LoginPage.tsx:31-33 | the field's existing error becomes "" and every other entry is kept |
| AuthForms.ClearErrorIdempotent | src/pages/auth/SignupPage.tsx:43-45 | clearing twice is clearing once; clearing an absent or empty entry changes nothing |
| AuthForms.PasswordRule | src/pages/auth/SignupPage.tsx:59-61 | fewer than six characters is always refused; from six on, refused iff all whitespace |
| AuthForms.DashboardFor | src/pages/auth/LoginPage.tsx:63-67 | the student dashboard iff the role is "student", the staff dashboard otherwise |
| LoginPage.LoginErrors | src/pages/auth/LoginPage.tsx:36-49 | an email error iff `validateEmail` fails, a password error iff the password rule fails, and no other key |
| LoginPage.LoginPageState.constructor | src/pages/auth/LoginPage.tsx:11-15 | empty form, no errors |
| LoginPage.LoginPageState.HandleInputChange | src/pages/auth/LoginPage.tsx:24-34 | stores the value and clears that field's existing error |
| LoginPage.LoginPageState.ValidateForm | src/pages/auth/LoginPage.tsx:36-49 | stores the error map and reports true iff it is empty |
| LoginPage.LoginPageState.HandleSubmit | src/pages/auth/LoginPage.tsx:51-71 | an invalid form reaches no provider call; success navigates by role; failure leaves exactly the submit error |
| LoginPage.LoginFormValidIff | src/pages/auth/LoginPage.tsx:36-49 | the form passes iff the email is valid and the password rule accepts the password |
| LoginPage.LoginCredentials | src/pages/auth/LoginPage.tsx:57-61 | the form's email and password with the chosen role and institution; no name, ids or rank (LoginPageUser) |
| LoginPage.LoginPageUser | src/pages/auth/LoginPage.tsx:57-61 | a login from this page yields a student iff the role is "student", and staff without a rank otherwise |
| SignupPage.LeadingDigits | src/pages/auth/SignupPage.tsx:39 | the longest prefix of decimal digits |
| SignupPage.ParseInt | src/pages/auth/SignupPage.tsx:39 | NaN (absent) iff there is no leading digit; otherwise the value of the leading digits |
| SignupPage.DecimalString | src/pages/auth/SignupPage.tsx:257-260 | a non-empty string of decimal digits |
| SignupPage.SignupPageState.constructor | src/pages/auth/SignupPage.tsx:12-26 | the initial form (morning shift, first year, tutor) and no errors |
| SignupPage.SignupPageState.HandleInputChange | src/pages/auth/SignupPage.tsx:35-46 | stores the value (parsed for the year) and clears that field's existing error |
| SignupPage.SignupPageState.ValidateForm | src/pages/auth/SignupPage.tsx:48-86 | stores the error map and reports true iff it is empty |
| SignupPage.SignupPageState.HandleSubmit | src/pages/auth/SignupPage.tsx:88-109 | an invalid form reaches no provider call; success navigates by role; failure leaves exactly the submit error |
| SignupPage.ApplyChange | src/pages/auth/SignupPage.tsx:35-40 | one control's new value, the year read with parseInt (YearChangeOnly) |
| SignupPage.CommonErrors | src/pages/auth/SignupPage.tsx:51-65 | the name, email, password and confirmation errors (CommonErrorsKeys) |
| SignupPage.IdentityErrors | src/pages/auth/SignupPage.tsx:67-81 | the role's identity errors added to a map (IdentityErrorsKeys) |
| SignupPage.SignupErrors | src/pages/auth/SignupPage.tsx:48-86 | `validateForm`'s error map (SignupErrorsKeys) |
| SignupPage.CommonErrorsKeys | src/pages/auth/SignupPage.tsx:51-65 | name, email, password and confirmation errors are each recorded iff their check fails |
| SignupPage.IdentityErrorsKeys | src/pages/auth/SignupPage.tsx:67-81 | the identity checks keep what is recorded and add each identity key iff its check fails for the role |
| SignupPage.SignupErrorsKeys | src/pages/auth/SignupPage.tsx:48-86 | each of the eight keys is recorded iff its check fails, identity keys only for their role, and no other key |
| SignupPage.RoleDecidesRequiredIds | src/pages/auth/SignupPage.tsx:67-81 | a student needs registration number, degree and stream but no staff id; any other role, a missing one included, needs only the staff id |
| SignupPage.AllDigitsLead | src/pages/auth/SignupPage.tsx:39 | on a string of digits the leading digits are the whole string |
| SignupPage.DigitsValueOfDecimal | src/pages/auth/SignupPage.tsx:39 | reading back a rendered number gives the number |
| SignupPage.ParseIntRoundTrip | src/pages/auth/SignupPage.tsx:257-260 | parseInt inverts the rendering of the year options, so each option parses to its number |
| SignupPage.YearChangeOnly | src/pages/auth/SignupPage.tsx:35-40 | only the year control changes the year, and it stores the parsed value |
| AppRouter.ProtectedRoute | src/routes/AppRouter.tsx:24-39 | home when not authenticated or, with a required role, when the user's role differs; otherwise the page |
| AppRouter.CatchAllTarget | src/routes/AppRouter.tsx:128-143 | /student/dashboard for an authenticated student, /staff/dashboard for any other authenticated user, "/" otherwise |
| AppRouter.Matches | src/routes/AppRouter.tsx:45-126 | React Router's test of a location against a route path: the route's characters with letters compared without case, then only '/' |
| AppRouter.MatchFromMeans | src/routes/AppRouter.tsx:45-126 | the character-by-character match from any index holds iff the lower-cased location repeats the route there and has only '/' after it |
| AppRouter.MatchesMeans | src/routes/AppRouter.tsx:45-126 | a location matches a route iff, lower-cased, it starts with the route path and has only '/' after it |
| AppRouter.MatchOutside | src/routes/AppRouter.tsx:45-126 | a location that matches a route differing from a prefix at some index is not under that prefix |
| AppRouter.Lookup | src/routes/AppRouter.tsx:45-143 | the first route the location matches, or none when no route matches |
| AppRouter.LookupFinds | src/routes/AppRouter.tsx:45-126 | Lookup returns a matching route when no earlier route matches |
| AppRouter.Resolve | src/routes/AppRouter.tsx:45-143 | what `<Routes>` shows at a location: the matched route's page, through the guard when wrapped, else the catch-all redirect |
| AppRouter.PublicRouteArea | src/routes/AppRouter.tsx:47-50 | the public routes are unguarded and under neither /student/ nor /staff/ |
| AppRouter.StudentRouteArea | src/routes/AppRouter.tsx:53-84 | the /student/ routes are guarded for role student |
| AppRouter.StaffRouteArea | src/routes/AppRouter.tsx:86-126 | the /staff/ routes are guarded for role staff |
| AppRouter.RoutesRequireTheirRole | src/routes/AppRouter.tsx:47-126 | every /student/ route requires student, every /staff/ route requires staff, and every guarded route is under one of them |
| AppRouter.PublicMatchArea | src/routes/AppRouter.tsx:47-50 | a location matching a public route is, lower-cased, under neither /student/ nor /staff/ |
| AppRouter.StudentMatchArea | src/routes/AppRouter.tsx:53-84 | a location matching a student route is not under /staff/ in any case |
| AppRouter.StaffMatchArea | src/routes/AppRouter.tsx:86-126 | a location matching a staff route is not under /student/ in any case |
| AppRouter.MatchedArea | src/routes/AppRouter.tsx:47-126 | a location under /student/, in any case, matches only routes guarded for students; under /staff/, only routes guarded for staff |
| AppRouter.RenderNeedsRole | src/routes/AppRouter.tsx:24-143 | a location whose lower-cased form is under /student/ renders only for an authenticated student, and one under /staff/ only for authenticated staff |
| AppRouter.MatchesLower | src/routes/AppRouter.tsx:45-126 | lower-casing the location changes no match |
| AppRouter.LookupLower | src/routes/AppRouter.tsx:45-143 | lower-casing the location changes no lookup |
| AppRouter.CaseIgnored | src/routes/AppRouter.tsx:45-143 | the router shows the same thing at a location and at its lower-cased form |
| AppRouter.MatchesSlash | src/routes/AppRouter.tsx:45-126 | one more '/' after a non-empty location changes no match with a route path that does not end in '/' |
| AppRouter.LookupSlash | src/routes/AppRouter.tsx:45-143 | the same for the lookup over such routes |
| AppRouter.RoutesHaveNoTrailingSlash | src/routes/AppRouter.tsx:47-126 | every route path is "/" or does not end in '/' |
| AppRouter.TrailingSlashIgnored | src/routes/AppRouter.tsx:45-143 | the router shows the same thing with and without one more '/' at the end of a non-empty location |
| AppRouter.MatchesBoth | src/routes/AppRouter.tsx:45-126 | when one location matches two route paths, the longer is the shorter followed by '/' characters |
| AppRouter.RoutePathsDistinct | src/routes/AppRouter.tsx:47-126 | no two routes share a path |
| AppRouter.AtMostOneRouteMatches | src/routes/AppRouter.tsx:45-126 | no location matches two routes, so taking the first match agrees with React Router's ranking |
| AppRouter.HomeRenders | src/routes/AppRouter.tsx:47 | "/" always renders the splash page, so every guard redirect ends on a page |
| AppRouter.StudentDashboardRoute | src/routes/AppRouter.tsx:53-60 | "/student/dashboard" reaches the student dashboard route, guarded for students |
| AppRouter.StaffDashboardRoute | src/routes/AppRouter.tsx:87-94 | "/staff/dashboard" reaches the staff dashboard route, guarded for staff |
| AppRouter.CatchAllTargetRenders | src/routes/AppRouter.tsx:128-143 | for a consistent session the catch-all target renders: the role's dashboard, or the splash page |
| StudentDashboard.RankLabel | src/pages/student/StudentDashboard.tsx:125-131 | Excellent from 95, Good from 85, Average from 75, Below Average under 75 |
| StudentDashboard.RankMonotone | src/pages/student/StudentDashboard.tsx:125-131 | a higher percentage never gets a lower label |
| StudentDashboard.RankLevelCountsThresholds | src/pages/student/StudentDashboard.tsx:125-131 | the label's level is the number of thresholds the percentage reaches |
| StudentDashboard.RankLabelDeterminesBand | src/pages/student/StudentDashboard.tsx:125-131 | the label determines which thresholds the percentage reaches |
| StudentDashboard.YearSuffix | src/pages/student/StudentDashboard.tsx:60 | "st" iff year 1, "nd" iff 2, "rd" iff 3, "th" for anything else |

## Left out

- Rendering, styling, icons, charts and the display-only pages (profiles, the staff dashboard, splash and role selection) are not part of this model.
- StudentODRequests.StudentODRequestsPage.HandleSubmit, StaffEvents.StaffEventsPage.HandleSubmit, LoginPage.LoginPageState.HandleSubmit and SignupPage.SignupPageState.HandleSubmit: the browser's constraint validation of the forms (`required`, `type="email"`, `type="date"`), which runs before `onSubmit` fires, is not modelled. The handlers are modelled on every form state, including ones the browser never submits, such as a blank OD or event title or a login email like "a@b..c" that the page's regular expression accepts and HTML's email grammar rejects.
- Asynchrony: every `await` completes in order; the mocked delays (`setTimeout`) are dropped. Whether a call rejects is a `fails` parameter.
- `alert` and `console.error` calls are dropped; they only report.
- The `confirm` dialog in `handleDelete` is the `confirmed` parameter. `Date.now()` ids and `new Date().toISOString()` timestamps are parameters.
- JSON serialisation is taken as the identity: a stored user is the user itself. A `user_data` slot that holds something other than a serialised user is read as a parse failure. An `auth_token` slot that holds a serialised user is read as no session, where the source would return that string as the token; nothing in the model writes such a slot.
- JavaScript `undefined` is modelled as `None` for enumerations and numbers, and as "" for strings a page does not supply, so `value || fallback` is an emptiness test.
- The regular-expression engine is replaced by character-level predicates. `\s` and `trim` both use ECMAScript's fixed whitespace set: tab, line feed, vertical tab, form feed, carriage return, space, U+00A0, U+1680, U+2000–U+200A, U+2028, U+2029, U+202F, U+205F, U+3000 and U+FEFF. It is written out as a list rather than derived from the Unicode database.
- String lengths count characters, not UTF-16 code units, so the six-character password rule differs from the source for text outside the Basic Multilingual Plane.
- Percentages are exact reals, not floating point. `toFixed`-style rounding appears only as the canned values the mocked service returns.
- SignupPage.ParseInt: models `parseInt` on leading decimal digits only. Leading whitespace, signs and hexadecimal prefixes are not handled, because the only input is the year select, whose option values are the digits 1 to 4.
- The error maps are keyed by a datatype naming the form controls, not by arbitrary strings. Every key a page can write is one of those controls or "submit".
- The signup page has no department control, so a signup always sends an empty department and the service's "Computer Science" default applies. The model keeps the department field and that default.
- The login page sends no staff rank, so staff who log in have no rank. Their OD view is then empty and no action is offered; the service itself would record such an approval as an HOD approval. The model keeps both behaviours as the source has them.
- Authorisation of approve and reject exists only in which controls are rendered. `approveODRequest` ignores the request's current status (see StaffODRequests.ApproveBypassesGate). Both gaps are modelled as they are, not repaired.
- `handleBack`, `handleLoginRedirect` and the role-selection navigation only move between pages; they are not modelled.
- The students returned by `fetchTopStudents` have no degree name or stream in the source; the model gives them empty strings.
- AppRouter.Lookup: React Router decodes percent-escapes in the location before matching (so "/%6Cogin" reaches the login page); the model matches the location as given.
- React Router's dynamic segments, splats other than the catch-all, nested routes and a base name are not used by this route table and are not modelled. React Router ranks routes by specificity; Lookup takes the first match, which is the same route because AtMostOneRouteMatches shows no location matches two.
