# Hospital application: request rules and client state machines

This project models the decision logic of a role-based hospital web application with four
roles: administrator, doctor, nurse and patient. It covers two parts.

- **The Flask servers.** `app.py` is the current REST server. `backend/app.py` is an older
  server over the same `users` collection. The model covers the e-mail and password
  validators and the `Authorization: Bearer` check. It covers registration, login, profile
  lookup and onboarding completion. It covers appointment booking with its slot-conflict
  check, role-based listing, and the permission rules of appointment updates. The MongoDB
  collections are sequences of documents in insertion order, so `find_one` returns the first
  match. The routes are methods of a `Database` class that update those sequences in place.
  bcrypt's `checkpw`, `jwt.decode`, the password hash and the ObjectId of a new document are
  parameters.
- **The React client.** The session context keeps the user, the loading flag and the
  onboarding flag, and mirrors them into localStorage. The onboarding wizard, the sign-in form
  and the appointment form are each a class whose methods are the component's handlers.
  The appointment list, the navigation bar, the dashboard, the onboarding card and the
  appointment page are also modelled. `localStorage` is a string-to-string map. `fetch`,
  `JSON.stringify` and `JSON.parse` are function parameters. Navigation targets and toasts
  are returned values.

The session code marks its sign-in and sign-up as stand-ins: the comments at
`frontend/src/context/AuthContext.tsx` lines 60, 63, 86 and 89 say the wait simulates an API
call that a real application would make. The model follows the code as written, which means:

- Sign-in and sign-up are simulated on the client. No request is made, the password is not
  used, and no token is stored. The data components read a `token` entry that nothing in the
  client writes. `Fetch.SessionKeepsNoToken` shows that every session operation leaves that
  entry as it was.
- The onboarding flag belongs to the browser, not to the account. Sign-out keeps it, so the
  next person to sign in skips onboarding (`AuthContext.OnboardingFlagIsShared`).
- Sign-out removes only the stored user.

Three server behaviours follow from the code:

- Documents written by the older server have no `name`. The current server's login and
  appointment listing fail on them with status 500.
- The update route lets a patient set a cancelled appointment back to "scheduled" without a
  conflict check. So "one live appointment per doctor, date and time" is preserved by
  bookings only (`Api.StatusUpdateCanDoubleBook`).
- The older server's profile route never answers with a profile. It passes the stored
  document, ObjectId included, to `jsonify`, which cannot encode it, so every user it finds
  gets status 500 (`LegacyApi.GetProfile`).

## Model

| member | source | states |
|---|---|---|
| Validators.ValidatePassword | app.py:47-49 | accepted iff at least 8 characters with at least one ASCII digit and one ASCII letter |
| Validators.ValidateEmail | app.py:43-45 | accepted iff the whole string is local@domain.tld over the pattern's character classes, or is such a string followed by one newline, which Python's `$` lets through |
| Validators.EmailPatternDecided | app.py:43-45 | splitting at the first `@` and the last `.` succeeds exactly when some split matches the pattern |
| Validators.BearerToken | app.py:153-158 | a token exists iff the header starts with the case-sensitive "Bearer "; the token is the text after it up to the next space |
| Api.Authenticate | app.py:153-161 | 401 "Invalid token" unless the header carries a bearer token that decodes to a non-empty subject; otherwise that subject is the caller's id |
| Api.FindUser | app.py:77 | `find_one`: the first document matching the key, or none when no document matches |
| Api.FindAppointment | app.py:451 | `find_one` on appointments: the first with the id, or none when none has it |
| Api.RegistrationError | app.py:57-82 | the first failing check in the source's order, each message iff its check is the first to fail: "Missing required fields", "Invalid email format", the password rule, "Invalid role", "Email already registered"; no error iff all pass |
| Api.Database.Register | app.py:51-113 | 400 with the first failing check and nothing stored, or exactly one new user with onboarding false and 201 carrying a token for its id; unique e-mails stay unique |
| Api.Login | app.py:115-148 | 400 "Missing required fields" iff a field is missing; 401 "Invalid credentials" iff the e-mail is unknown, the password fails or the stored role differs; success iff the credentials match and the document has a name, reporting the stored user with onboarding true only when stored true; otherwise 500 "'name'" |
| Api.LoginDefaultsOnboarding | app.py:143 | a user stored without an onboarding flag logs in with onboarding false |
| Api.RegisterThenLogin | app.py:85-95 | after a successful registration, logging in with the same e-mail, password and role succeeds and reports the new user with onboarding false |
| Api.GetProfile | app.py:150-174 | 401 "Invalid token" for a bad token, 404 "User not found" iff the id is unknown, else 200 with the first document holding that id, without its password hash; no other status |
| Api.MarkOnboarded | app.py:190-193 | sets the onboarding flag of the first document with the id and changes nothing else |
| Api.MarkOnboardedIdempotent | app.py:190-196 | marking twice is marking once, so a repeated call modifies nothing |
| Api.Database.CompleteOnboarding | app.py:176-201 | 401 for a bad token; otherwise the flag is set, and 404 "User not found" iff nothing changed (unknown user or already onboarded) |
| Api.BookingError | app.py:218-243 | 403 "Only patients can schedule appointments" iff the caller is not a stored patient; then 400 "Missing required fields" iff a field is missing; then 404 "Doctor not found" iff no doctor has the id; then 409 "This time slot is already booked" iff a live appointment holds the slot; no error otherwise |
| Api.BookingKeepsSlotsUnique | app.py:235-256 | a booking that passes the checks keeps each doctor, date and time slot held by at most one live appointment |
| Api.Database.CreateAppointment | app.py:204-272 | 401, or the booking error with nothing stored, or 201 with one new "scheduled" appointment appended; slot uniqueness preserved |
| Api.Apply | app.py:438-445 | an update changes only `status` and `doctor_notes`, each only when supplied |
| Api.UpdateError | app.py:447-468 | in the source's order, each iff its check is the first to fail: 400 no fields, 404 "Appointment not found", 404 "User not found", 403 "Unauthorized" for a doctor or patient who does not own it, 403 "Patients cannot add doctor notes"; no error iff every check passes |
| Api.OwnsIffSees | app.py:385-392 | a caller may update exactly the appointments the listing route shows it |
| Api.StatusUpdateCanDoubleBook | app.py:466-473 | a patient may reopen a cancelled appointment whose slot is taken again, breaking slot uniqueness |
| Api.Database.UpdateAppointmentStatus | app.py:424-482 | 401 for a bad token; otherwise UpdateError's rejection with the store unchanged, or the first appointment with the id replaced by its update, with 500 "Failed to update appointment" iff the update changes nothing |
| Api.VisibleTo | app.py:385-392 | patients see exactly their own appointments, doctors exactly theirs, every other role all of them |
| Api.PartyFor | app.py:397-415 | the summary of the first user with the id: absent iff there is none, nameless iff that user has no name, else its id, name and e-mail |
| Api.ViewOf | app.py:395-417 | the appointment with exactly the found patient and doctor summaries attached; none iff either party exists without a name |
| Api.Database.UsersWithRole | app.py:354 | exactly the stored users with the role |
| Api.WithRole | app.py:354 | exactly the users with the role |
| Api.Database.GetUsers | app.py:334-364 | 401 "Invalid token" for a bad token, 400 "Role parameter is required" iff the role argument is missing or empty, else 200 with every user with that role, in order, without the password; no other status |
| Api.Database.GetAppointments | app.py:366-422 | 401, 404 "User not found" iff the caller is unknown, 500 "'name'" iff a visible appointment has a nameless party, else the views of exactly the visible appointments in order |
| LegacyApi.LegacyUser | backend/app.py:47-52 | the older server stores e-mail, hash and role, with no name and no onboarding flag |
| LegacyApi.Register | backend/app.py:34-64 | 400 "Email already registered" for a taken e-mail, 500 for missing fields, else one new user and 201 with message, token for the e-mail and token type, without a user object |
| LegacyApi.Login | backend/app.py:66-89 | 500 iff the e-mail is missing, or the e-mail is known and the password missing; 401 "Invalid credentials" iff the e-mail is unknown or the password fails; no other failure; success returns only the stored e-mail and role |
| LegacyApi.LoginIgnoresRole | backend/app.py:66-89 | the requested role never changes the answer |
| LegacyApi.GetProfile | backend/app.py:91-113 | never succeeds: 401 "Invalid token" without a "Bearer " token or for an undecodable one, 404 "User not found" iff the subject is missing or no user has that e-mail, 500 iff the user is found, because `jsonify` cannot encode its ObjectId |
| LegacyApi.LegacyUserCannotLogInToApp | backend/app.py:47-55 | a user the older server registered gets 500 from the current server's login |
| AuthContext.NameFromEmail | frontend/src/context/AuthContext.tsx:66 | the e-mail's prefix before its first `@`, the whole e-mail when it has none |
| AuthContext.LoginTarget | frontend/src/context/AuthContext.tsx:76-80 | onboarding iff the flag is false, the dashboard iff it is true |
| AuthContext.IsAuthenticated | frontend/src/context/AuthContext.tsx:118 | authenticated exactly when a user is held |
| AuthContext.AuthProvider.constructor | frontend/src/context/AuthContext.tsx:36-38 | no user, loading, onboarding false |
| AuthContext.AuthProvider.Restore | frontend/src/context/AuthContext.tsx:41-55 | user read from a non-empty stored entry, flag raised only by a stored "true", loading ends |
| AuthContext.AuthProvider.BeginRequest | frontend/src/context/AuthContext.tsx:58 | loading starts and nothing else changes |
| AuthContext.AuthProvider.FinishLogin | frontend/src/context/AuthContext.tsx:64-80 | user named after the e-mail, stored under "user", loading ends, navigation chosen by the flag |
| AuthContext.AuthProvider.FinishSignup | frontend/src/context/AuthContext.tsx:90-100 | user with the given name stored, loading ends, always on to onboarding |
| AuthContext.AuthProvider.Logout | frontend/src/context/AuthContext.tsx:103-107 | user cleared, only the "user" entry removed, flag kept, on to login |
| AuthContext.AuthProvider.CompleteOnboarding | frontend/src/context/AuthContext.tsx:109-112 | flag true and "true" stored |
| AuthContext.ReloadRestoresUser | frontend/src/context/AuthContext.tsx:41-55 | a reload right after sign-in restores the same user when parsing undoes stringifying |
| AuthContext.ReloadRemembersOnboarding | frontend/src/context/AuthContext.tsx:50-51 | a reload after completing onboarding keeps the flag |
| AuthContext.SignOutUndoesSignIn | frontend/src/context/AuthContext.tsx:103-107 | sign-in then sign-out leaves storage as before minus the user, and the flag unchanged |
| AuthContext.OnboardedIdempotent | frontend/src/context/AuthContext.tsx:109-112 | completing onboarding twice equals once |
| AuthContext.OnboardingFlagIsShared | frontend/src/context/AuthContext.tsx:76-80 | after one user completes onboarding and signs out, the next user to sign in goes to the dashboard |
| Fetch.StoredToken | frontend/src/components/AppointmentsList.tsx:37-38 | a token exists iff a non-empty "token" entry is stored |
| Fetch.HeaderCarriesToken | frontend/src/components/ScheduleAppointmentForm.tsx:80 | the server reads back from `Bearer ${token}` exactly the token, when it has no space |
| Fetch.SessionKeepsNoToken | frontend/src/context/AuthContext.tsx:57-112 | no session operation writes or removes the "token" entry |
| OnboardingPage.Toggle | frontend/src/pages/Onboarding.tsx:47-52 | the chosen switch flips and the other three keep their positions |
| OnboardingPage.ToggleTwice | frontend/src/pages/Onboarding.tsx:47-52 | toggling twice restores the settings |
| OnboardingPage.TogglesCommute | frontend/src/pages/Onboarding.tsx:47-52 | the order of two toggles does not matter |
| OnboardingPage.WalkStaysInRange | frontend/src/pages/Onboarding.tsx:24-45 | any sequence of Next and Previous from a step in 1..4 ends in 1..4 |
| OnboardingPage.NextPresses | frontend/src/pages/Onboarding.tsx:32-39 | n presses of Next advance n steps, stopping at step 4 |
| OnboardingPage.Redirect | frontend/src/pages/Onboarding.tsx:26-30 | to login exactly when there is no user |
| OnboardingPage.CardOn | frontend/src/pages/Onboarding.tsx:63-73 | a card exactly for steps 1..4, marked first on step 1 and last on step 4 |
| OnboardingPage.CardButtons | frontend/src/pages/Onboarding.tsx:72-73 | Previous disabled iff step 1; "Get Started" iff step 4 |
| OnboardingPage.Onboarding.constructor | frontend/src/pages/Onboarding.tsx:16-22 | step 1, notifications and e-mail updates on, dark mode and accessibility off |
| OnboardingPage.Onboarding.HandleNext | frontend/src/pages/Onboarding.tsx:32-39 | below step 4 one step on and the session untouched; at step 4 the step stays, onboarding completes and the page goes to the dashboard |
| OnboardingPage.Onboarding.HandlePrevious | frontend/src/pages/Onboarding.tsx:41-45 | one step back, no change at step 1 |
| OnboardingPage.Onboarding.HandleToggle | frontend/src/pages/Onboarding.tsx:47-52 | settings replaced by their toggle, step unchanged |
| OnboardingStep.Decimal | frontend/src/components/OnboardingStep.tsx:58 | a whole number in decimal digits, without a leading zero |
| OnboardingStep.DecimalRoundTrip | frontend/src/components/OnboardingStep.tsx:58 | reading the digits back gives the number |
| OnboardingStep.Header | frontend/src/components/OnboardingStep.tsx:58 | the header starts with "Step " |
| OnboardingStep.HeaderDeterminesSteps | frontend/src/components/OnboardingStep.tsx:58 | two headers are equal only for the same step and the same total |
| OnboardingStep.Gradient | frontend/src/components/OnboardingStep.tsx:34-42 | the gradient starts with "from-role-"; CardDistinguishesRoles shows each role has its own |
| OnboardingStep.Capitalize | frontend/src/components/OnboardingStep.tsx:63 | first character upper-cased, the rest unchanged |
| OnboardingStep.CardDistinguishesRoles | frontend/src/components/OnboardingStep.tsx:34-63 | different roles get different gradients and badge labels |
| OnboardingStep.RoleLabels | frontend/src/components/OnboardingStep.tsx:63 | "Admin View", "Doctor View", "Nurse View", "Patient View" |
| OnboardingStep.ProgressPercent | frontend/src/components/OnboardingStep.tsx:52 | within (0, 100] on steps 1..m, and 100 iff the last step |
| OnboardingStep.CardFor | frontend/src/components/OnboardingStep.tsx:44-103 | Previous disabled and hidden iff first step; "Get Started" iff last step, else "Next" |
| AuthForm.WithField | frontend/src/components/AuthForm.tsx:35-38 | only the named input changes; the role is kept |
| AuthForm.WithSameValue | frontend/src/components/AuthForm.tsx:35-38 | typing the current text changes nothing |
| AuthForm.PasswordInputType | frontend/src/components/AuthForm.tsx:123 | "text" iff the password is shown |
| AuthForm.AuthFormState.constructor | frontend/src/components/AuthForm.tsx:27-33 | empty inputs, role patient, password hidden |
| AuthForm.AuthFormState.HandleChange | frontend/src/components/AuthForm.tsx:35-38 | form updated at the named input only |
| AuthForm.AuthFormState.HandleRoleSelect | frontend/src/components/AuthForm.tsx:40-42 | only the role changes |
| AuthForm.AuthFormState.ToggleShowPassword | frontend/src/components/AuthForm.tsx:133 | visibility flips, form unchanged |
| AuthForm.AuthFormState.HandleSubmit | frontend/src/components/AuthForm.tsx:44-67 | submitted iff e-mail and password are filled and, for sign-up, the name; submitted data is the form; otherwise one validation toast naming the first failing check |
| ScheduleForm.WithField | frontend/src/components/ScheduleAppointmentForm.tsx:59-66 | only the named input changes |
| ScheduleForm.BodyOf | frontend/src/components/ScheduleAppointmentForm.tsx:82 | the JSON body has exactly the four fields the server requires, with the form's values |
| ScheduleForm.FormBooksWhatItShows | frontend/src/components/ScheduleAppointmentForm.tsx:76-83 | the server stores the form's doctor, date, time and reason for the caller as "scheduled" |
| ScheduleForm.RejectionMessage | frontend/src/components/ScheduleAppointmentForm.tsx:85-88 | the server's non-empty `error`, otherwise "Failed to schedule appointment" |
| ScheduleForm.ScheduleAppointmentForm.constructor | frontend/src/components/ScheduleAppointmentForm.tsx:20-27 | no doctors, not loading, empty form |
| ScheduleForm.ScheduleAppointmentForm.FetchDoctors | frontend/src/components/ScheduleAppointmentForm.tsx:29-57 | request only with a stored token; doctors replaced only by a successful answer, else one "Failed to load doctors list" toast |
| ScheduleForm.ScheduleAppointmentForm.HandleChange | frontend/src/components/ScheduleAppointmentForm.tsx:59-66 | form updated at the named input only |
| ScheduleForm.ScheduleAppointmentForm.HandleSubmit | frontend/src/components/ScheduleAppointmentForm.tsx:68-114 | nothing sent without a token ("Authentication required"); otherwise the form is posted; success clears the form, shows success and notifies the page; failures keep the form and show the server's or the network's message; loading ends |
| AppointmentsList.StatusColor | frontend/src/components/AppointmentsList.tsx:101-112 | green, blue, red for scheduled, completed, cancelled in any letter case, grey otherwise |
| AppointmentsList.StatusIgnoresCase | frontend/src/components/AppointmentsList.tsx:102 | colour and cancel button are unchanged by lower-casing the status |
| AppointmentsList.CancelShownExactlyWhenGreen | frontend/src/components/AppointmentsList.tsx:150 | the cancel button is offered exactly on green rows |
| AppointmentsList.CancelRequestOnlyCancels | frontend/src/components/AppointmentsList.tsx:78 | the cancel body makes the server change the status to "cancelled" and nothing else; the row then turns red without a button |
| AppointmentsList.ScreenOf | frontend/src/components/AppointmentsList.tsx:114-120 | loading message iff loading, empty message iff loaded and empty, else one row per appointment in order |
| AppointmentsList.AppointmentsListState.constructor | frontend/src/components/AppointmentsList.tsx:32-33 | empty list, loading |
| AppointmentsList.AppointmentsListState.FetchAppointments | frontend/src/components/AppointmentsList.tsx:35-61 | request only with a stored token; list replaced only by a successful answer, else one "Failed to load appointments" toast; loading ends |
| AppointmentsList.AppointmentsListState.HandleCancel | frontend/src/components/AppointmentsList.tsx:67-99 | nothing sent without a token; a PUT with status cancelled otherwise; reload iff accepted; failures show "Failed to cancel appointment" or the network's message and keep the list; after an accepted cancel the reload ends loading and either replaces the list or shows "Failed to load appointments" and keeps it |
| NavBar.Split | frontend/src/components/NavBar.tsx:32 | at least one piece and no piece contains the separator |
| NavBar.JoinSplit | frontend/src/components/NavBar.tsx:32 | joining the pieces gives back the name |
| NavBar.FirstLettersAreWordStarts | frontend/src/components/NavBar.tsx:31-34 | the upper-cased first characters of the pieces are exactly the word starts in order; empty pieces add nothing |
| NavBar.Initials | frontend/src/components/NavBar.tsx:30-36 | at most two characters: the first two upper-cased word starts |
| NavBar.AvatarText | frontend/src/components/NavBar.tsx:66 | initials iff the user has a non-empty name |
| NavBar.DesktopLinks | frontend/src/components/NavBar.tsx:52-111 | "Log out" iff authenticated, "Sign In" iff not |
| NavBar.MobileLinks | frontend/src/components/NavBar.tsx:132-192 | the same links while the menu is open, none when closed |
| NavBar.LogoutShowsSignIn | frontend/src/components/NavBar.tsx:90 | after sign-out the bar offers Sign In and Create Account |
| NavBar.NavBarState.constructor | frontend/src/components/NavBar.tsx:24 | menu closed |
| NavBar.NavBarState.ToggleMenu | frontend/src/components/NavBar.tsx:26-28 | menu state flips |
| NavBar.NavBarState.FollowMobileLink | frontend/src/components/NavBar.tsx:151 | menu closed |
| NavBar.NavBarState.DesktopLogout | frontend/src/components/NavBar.tsx:90 | session signed out, on to login, menu unchanged |
| NavBar.NavBarState.MobileLogout | frontend/src/components/NavBar.tsx:165-168 | session signed out, on to login, menu closed |
| Dashboard.EffectOf | frontend/src/pages/Dashboard.tsx:17-33 | to login iff signed out; to onboarding iff signed in and not onboarded; else a welcome toast naming the user |
| Dashboard.SignupReachesDashboardThroughOnboarding | frontend/src/pages/Dashboard.tsx:17-33 | a new sign-up is sent to onboarding, then welcomed by name once onboarded |
| Dashboard.SignedOutGoesToLogin | frontend/src/pages/Dashboard.tsx:18-21 | after sign-out the dashboard sends to login |
| Dashboard.Greeting | frontend/src/pages/Dashboard.tsx:41-46 | Morning before 12, Afternoon from 12 to 17, Evening from 18 |
| Dashboard.RoleColor | frontend/src/pages/Dashboard.tsx:37-39 | the badge classes start with "bg-role-"; RoleColorInjective shows each role has its own |
| Dashboard.RoleColorInjective | frontend/src/pages/Dashboard.tsx:37-39 | different roles get different badge classes |
| Dashboard.PanelsShown | frontend/src/pages/Dashboard.tsx:78 | exactly one panel, the one for the user's role |
| SchedulePage.AccessAllowed | frontend/src/pages/ScheduleAppointment.tsx:14 | allowed iff a user is signed in with role patient |
| SchedulePage.AccessMatchesServerRole | frontend/src/pages/ScheduleAppointment.tsx:14 | the client admits exactly the role name the server requires for booking |
| SchedulePage.ViewOf | frontend/src/pages/ScheduleAppointment.tsx:14-55 | "Access Denied" iff not allowed, else the tabs on the active tab |
| SchedulePage.SchedulePageState.constructor | frontend/src/pages/ScheduleAppointment.tsx:11 | the schedule tab |
| SchedulePage.SchedulePageState.SetActiveTab | frontend/src/pages/ScheduleAppointment.tsx:40 | the chosen tab |
| SchedulePage.SchedulePageState.SubmitForm | frontend/src/pages/ScheduleAppointment.tsx:46 | the list tab after a booking the server accepted; otherwise the tab and the form are unchanged |

## Left out

- Password hashing and JWT encoding, decoding and expiry are parameters. The model does not
  cover their cryptography or the `datetime.utcnow` expiry window.
- ObjectId parsing errors and other exceptions caught by the routes' catch-all 500 handlers.
  Lookups by id are string comparisons.
- The `created_at` timestamps. The ids are text in the model; app.py converts each ObjectId
  to text before `jsonify`, and backend/app.py's profile route, which does not, is modelled
  by the 500 it then answers.
- A request body that is not a JSON object, and non-string JSON values. Bodies are string maps.
- The route `schedule_appointment_legacy` (app.py:275-332). It looks the caller up by
  e-mail while this server's tokens carry user ids, and its conflict check ignores status.
- Api.Database.Register, Api.Database.CreateAppointment: they require the new document's id
  to be unused. That is the `_id` index's guarantee and not a check of the route.
- Random ids and dashboard figures made with `Math.random`, the one-second simulated wait,
  and the clock read by the greeting, which is a parameter.
- OnboardingStep.ProgressPercent: it uses exact rational arithmetic, not JavaScript's
  floating point.
- Validators.ValidatePassword: a digit is an ASCII digit. Python's `\d` on a `str` also
  matches the other Unicode decimal digits. The letter class and the e-mail pattern are ASCII
  in the source, so those parts are exact.
- The client's `toUpperCase`/`toLowerCase` are modelled on ASCII letters only, in the
  status colours, the badge label and the initials.
- NavBar.Initials: a character of the model is a whole code point. JavaScript's `[0]` and
  `slice(0, 2)` work on UTF-16 code units, so for a word starting outside the Basic Multilingual Plane the source
  shows half a surrogate pair where the model shows the whole character.
- `JSON.stringify`, `JSON.parse` and `fetch` are parameters; a malformed stored user that
  makes `JSON.parse` throw is not modelled.
- Overlapping asynchronous handlers are not modelled. Each handler runs to completion, and
  a login resolves with the flag as it was when login was called.
- Layout, styling, animation and the static or delegating pages (`Index.tsx`, `Logo.tsx`,
  `RoleSelector.tsx`, `Login.tsx`, `SignUp.tsx`) are not part of this model.
- Rendering an appointment whose doctor summary is missing, which makes the list throw.
