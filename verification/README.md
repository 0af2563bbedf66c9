# eStores WorkHub client — a Dafny model of its decision logic

The eStores WorkHub client is a small single-page React application. It offers
sign-up, sign-in and a profile dashboard, and it delegates all authentication
and storage to a hosted backend. This project models the client's decisions
and proves properties about them:

- **the root view controller** (`App`): the `(authView, loading)` state, the
  session check, the five named transitions and screen selection;
- **the sign-up and sign-in submit handlers** (`Signup`, `Login`): local
  validation, how remote outcomes are turned into messages, which remote calls
  are issued and with what arguments, and when the success callback fires;
- **the dashboard page** (`Dashboard`): loading the profile, rendering, and
  signing out before handing control back.

Each event handler is a pure function. It takes the form inputs and the
abstract outcome of every remote call it could make. It returns the ordered
list of observable effects it produces (module `Effects`):

- writes to component state;
- remote calls, with their arguments;
- the firing of the callback the parent passed down.

The final busy flag and error message are folds over that list, starting from
any earlier state (`Effects.Settle`). "The error is cleared at the start of
every submission" therefore becomes a theorem: the result does not depend on
the earlier state.

The root controller consumes a sequence of already-resolved events. Each
event is either a session check resolving (the initial check or one started
by the change subscription) or a transition requested by a screen. Each event
sets its view unconditionally, so the last event wins.

Modules, one per source file plus two shared ones:

| module | file | models |
|---|---|---|
| `AuthTypes` | `auth_types.dfy` | `src/types/auth.ts`: roles, the profile record |
| `Effects` | `effects.dfy` | shared vocabulary: remote calls, effects, folds, `message \|\| fallback` |
| `SessionView` | `session_view.dfy` | `src/App.tsx` |
| `SignupForm` | `signup_form.dfy` | `src/components/Signup.tsx` |
| `LoginForm` | `login_form.dfy` | `src/components/Login.tsx` |
| `DashboardPage` | `dashboard_page.dfy` | `src/components/Dashboard.tsx` |
| `Wiring` | `wiring.dfy` | the callbacks `App` hands to each screen |

Modelling choices:

- An error object's `message` is a `string`. The empty string stands for both
  an empty and an absent message, since `err.message || fallback` treats them
  the same (`Effects.MessageOr`).
- `password.length` is the length of a `seq<char>`. JavaScript counts UTF-16
  code units, so the two can differ for characters outside the Basic
  Multilingual Plane.
- The code has three views plus a separate `loading` flag. It does not have a
  fourth "loading" view. The model follows the code.
- For the sign-up, profile-insert and sign-in calls, a failure is modelled the
  same way whether the backend returned an error or threw one. Either way the
  handler's `catch` block runs.
- The session lookup, `getUser` and the dashboard's profile lookup never read a
  returned error. A returned error leaves `session`, `user` or `profileData`
  null, so it is modelled as `SessionAbsent`, `Anonymous` or `NoRow`. Only a
  thrown error is `CheckFailed`, `GetUserThrew` or `LookupThrew`.
- `handleDemoLogin` (src/components/Login.tsx:42-66) is declared but nothing
  calls it: the demo accounts on the page are plain text. It is modelled as
  written.
- The controller's event sequences may contain screen transitions while
  `loading` is still set. The real UI cannot fire those, because no screen is
  mounted while loading (src/App.tsx:61-67). The theorems quantify over all
  sequences, so they also cover the ones the UI can produce.
- A rejected `signOut` makes `await` throw, so `onLogout` never runs
  (`SignOutRejected`). A resolved sign-out always reaches `onLogout`, and the
  model never reads its error value.

## Model

| member | source | states |
|---|---|---|
| AuthTypes.ParseRole | src/types/auth.ts:1 | a string is read as a role only if it is exactly that role's spelling; every other string is rejected |
| AuthTypes.ParseRoleName | src/types/auth.ts:1 | spelling a role and reading it back returns the same role |
| AuthTypes.AllRolesExact | src/types/auth.ts:1 | there are exactly four roles and the role list names each one once |
| Effects.MessageOr | src/components/Signup.tsx:69 | the displayed message is the error's own message when it has one, otherwise the fallback, and never empty when the fallback is not |
| Effects.SubmitShape | src/components/Signup.tsx:22-72 | a handler that sets busy and clears the error, runs its body, and finally clears busy ends idle, shows only the body's last message, forgets the earlier status, and issues exactly its body's calls |
| SessionView.CheckSession | src/App.tsx:25-39 | a resolved check always clears loading; the view is the dashboard exactly when a session came back, and login when there was none or the lookup threw |
| SessionView.Handle | src/App.tsx:41-59 | a requested transition never touches loading; it lands on the dashboard exactly for login/signup success and on sign-up exactly for the switch to sign-up |
| SessionView.Render | src/App.tsx:61-77 | the loading screen shows exactly while loading; otherwise the screen shown presents the current view |
| SessionView.HandleUnconditional | src/App.tsx:41-59 | each transition writes the same view whatever the current state |
| SessionView.HandleOverrides | src/App.tsx:41-59 | two transitions in a row equal the second alone, so each transition is idempotent |
| SessionView.SwitchRoundTrip | src/App.tsx:53-59 | switching to sign-up and back lands on login with loading unchanged |
| SessionView.CheckSessionIdempotent | src/App.tsx:25-39 | the same check resolving twice is the same as once |
| SessionView.LastWriterWins | src/App.tsx:13-59 | after any non-empty interleaving of checks and transitions, the view is the one the last event writes, whatever came before |
| SessionView.LoadingUntilResolved | src/App.tsx:11-37 | loading is still set exactly when it was set at the start and no check has resolved since |
| SessionView.LoadingMonotone | src/App.tsx:11-37 | once loading is clear, no sequence of events sets it again |
| SessionView.LoadingScreenUntilFirstCheck | src/App.tsx:10-67 | from mount, the loading screen is shown exactly until the first check resolves, whatever other events the sequence holds |
| SessionView.ResolutionErasesHistory | src/App.tsx:13-39 | once a check has resolved, the state no longer depends on the start state or on anything before that check |
| SessionView.ChecksOnly | src/App.tsx:16-39 | after a series of session-change checks alone, the view is the dashboard exactly when the most recent check found a session, otherwise login, with loading clear |
| SessionView.ScreenAfterStartup | src/App.tsx:61-77 | once any check has resolved, the screen shown is the one the most recent event selects |
| SignupForm.Validate | src/components/Signup.tsx:25-35 | local validation passes exactly when the passwords match and have at least 6 characters; a mismatch always reports the mismatch message, and only a matching short password reports the length message |
| SignupForm.HandleSignup | src/components/Signup.tsx:20-73 | a submission first sets busy and clears the error, and it always ends by clearing busy |
| SignupForm.LocalCheckShortCircuits | src/components/Signup.tsx:25-35 | a failed local check shows its message, issues no remote call, reports no success and leaves the form idle |
| SignupForm.MismatchReportedFirst | src/components/Signup.tsx:25-29 | when the passwords differ, the mismatch message is shown even if the password is also too short |
| SignupForm.ShortPasswordRejected | src/components/Signup.tsx:31-35 | matching passwords under 6 characters show the length message and make no call |
| SignupForm.SignUpFailureReported | src/components/Signup.tsx:37-72 | a failed account creation shows its message or "Failed to create account", issues only the sign-up call with the form's email, password and profile fields, and reports no success |
| SignupForm.SignUpWithoutUserIsSilent | src/components/Signup.tsx:52-72 | an account created without a user inserts nothing, reports no success and shows no error |
| SignupForm.CreatedBody | src/components/Signup.tsx:52-69 | with a created user, the profile insert follows the account request, then either the success callback or the insert's error |
| SignupForm.ProfileInserted | src/components/Signup.tsx:52-66 | with a created user and a stored row, the calls are exactly the account request and the insert of {user id, email, name, surname, phone, employee}; success is reported and no error is shown |
| SignupForm.InsertFailureSurfaced | src/components/Signup.tsx:52-69 | an insert failure after the account was created shows the insert's message or the fallback, reports no success, and issues no compensating call |
| SignupForm.SucceedsIff | src/components/Signup.tsx:25-69 | success is reported exactly when the local checks pass, a user was created and the profile insert succeeded |
| SignupForm.SubmissionForgetsPrior | src/components/Signup.tsx:20-72 | every submission ends idle, and its result never depends on the previous error or busy flag |
| SignupForm.Examples | src/components/Signup.tsx:25-66 | "abc12"/"abc12" fails on length and "abcdef"/"xyz999" fails on mismatch, both with no call; a full success stores an employee profile for a@b.com |
| LoginForm.HandleLogin | src/components/Login.tsx:19-40 | a regular sign-in sets busy and clears the error first, ends idle, and issues exactly one call: the sign-in with the form's email and password |
| LoginForm.SignInCalls | src/components/Login.tsx:25-28 | the shared sign-in step issues exactly one call, the password sign-in with the given credentials |
| LoginForm.HandleDemoLogin | src/components/Login.tsx:42-66 | a demo sign-in first overwrites email, password and role with its arguments, then sets busy and clears the error; it signs in with its arguments and ends idle |
| LoginForm.LoginOutcome | src/components/Login.tsx:19-40 | a sign-in failure shows its message or the "create an account first" fallback; success iff a user came back; no error and no user shows nothing; always ends idle, whatever the earlier status |
| LoginForm.LoginIgnoresRole | src/components/Login.tsx:15-28 | the selected role has no effect on a regular sign-in |
| LoginForm.DemoOutcome | src/components/Login.tsx:42-66 | a demo sign-in has the same outcome shape as a regular one, but its fallback message is "Failed to sign in" |
| LoginForm.FallbacksDiffer | src/components/Login.tsx:36-62 | a failure with an empty message reads differently in the two handlers |
| LoginForm.DemoOverwritesFields | src/components/Login.tsx:42-45 | after a demo sign-in the form holds the demo email, password and role, whatever it held before |
| LoginForm.RoleSelector | src/components/Login.tsx:135-148 | the selector starts on employee (line 15) and offers exactly the four roles, each once, in the type's order |
| DashboardPage.LoadUser | src/components/Dashboard.tsx:18-38 | the load starts by asking for the identity and always ends by clearing busy |
| DashboardPage.Render | src/components/Dashboard.tsx:45-82 | the loading indicator shows exactly while loading; otherwise the shell shows, with details exactly when a profile is held |
| DashboardPage.HandleLogout | src/components/Dashboard.tsx:40-43 | sign-out is the only call and comes first; the parent is told only after sign-out resolves, and never if it is rejected |
| DashboardPage.LoadOutcome | src/components/Dashboard.tsx:18-38 | the profile is set exactly when an identity came back and its row was found; otherwise, including any throw, the previous profile stays; busy always clears |
| DashboardPage.LoadCalls | src/components/Dashboard.tsx:20-27 | the load asks for the identity and then looks the profile up by that identity's id, only when there is an identity |
| DashboardPage.MountThenLoad | src/components/Dashboard.tsx:11-82 | on mount the page shows the loading indicator; after the load it shows the shell, with details exactly when the profile was found |
| Wiring.React | src/App.tsx:69-77 | a screen's handler changes the root state only by firing its callback, and never changes loading |
| Wiring.LoginReachesDashboard | src/App.tsx:69-70 | from the login screen, a sign-in reaches the dashboard exactly when a user came back, and otherwise stays on login |
| Wiring.SignupReachesDashboard | src/App.tsx:73-74 | from the sign-up screen, a submission reaches the dashboard exactly when validation, account creation with a user, and the profile insert all succeed |
| Wiring.LogoutReachesLogin | src/App.tsx:49-77 | from the dashboard, logout returns to the login screen exactly when sign-out resolved |
| Wiring.LinksSwitchForms | src/App.tsx:53-74 | the links between the two forms land on the sign-up and login screens; they call the setters directly, so by construction no remote call is involved |

## Left out

- Rendering, styling, icons and the logo image: screens are modelled as datatypes (`SessionView.Screen`, `DashboardPage.PageScreen`).
- The hosted backend client (`src/lib/supabase` is not part of this model): every remote call is an abstract outcome given as an input.
- Real asynchrony: event-loop interleaving, overlapping session checks in flight, and the subscription and unsubscribe lifecycle (src/App.tsx:16-22). Only sequences of already-resolved events are modelled.
- Browser-side input constraints (`required`, `type="email"`): the browser enforces them, not this code.
- `console.error` logging, the demo-credential help text, and the inputs' `onChange` setters: these are side effects or glue.
- Duplicate submissions while a call is outstanding: the disabled submit button is presentation only, and each submission is modelled on its own.
- JavaScript's UTF-16 string length: `password.length` is modelled as the number of `char`s.
- The dashboard view does not imply that a session was confirmed after the last transition into it. A login or signup success reaches the dashboard without a new session check (src/App.tsx:41-47), so the model does not claim that invariant.
