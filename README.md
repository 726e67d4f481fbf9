# OmniRoute front end — a verified model of its state machines

OmniRoute's front end is a logistics prototype: a landing page, a role
selection and simulated login, four static dashboards reading constant tables,
and a floating chat widget that forwards questions to a text-generation
service. This project models the parts that carry logic, in Dafny:

- **The chat widget** (`AIAssistant.dfy`). Its state is the role it is
  given, an open flag, the input text, the ordered transcript and a loading
  flag, plus whether the build environment sets the API key, which never
  changes. Typing and sending are possible only while the window is open. The
  single awaited request is split into two atomic steps. `SendStep` is the
  synchronous part of `handleSend`: the guard, appending the user message,
  clearing the input and setting loading. Without a key the throw is caught
  before the handler yields, so the same step appends the missing-key report
  and clears loading, and no request is made. `CompleteStep` is the part after
  the await: it appends one assistant message and clears loading. The reply
  text is chosen by `ReplyText` from an `Outcome`: a reply (possibly empty), a
  failure (possibly without a message), or the missing key. A role
  change re-seeds the transcript with that role's greeting and leaves the
  loading flag alone. This keeps the source's race: an answer that arrives
  after a role change is appended to the new role's transcript
  (`RoleChangeMidRequest`). Over whole event sequences the model proves two
  invariants. First, the transcript always opens with the current role's
  greeting, and every user message is non-empty and trimmed. Second, while no
  role change lands during a request, user and assistant messages alternate
  and loading means "waiting for an answer" (`ConversationAlternates`).
  `AssistantWidget` is the component itself, a class whose methods are proved
  to move its fields exactly as the step functions do.
- **Trimming** (`Text.dfy`). This is ECMAScript's `String.prototype.trim`
  over its white-space and line-terminator set. It is proved to cut a blank
  prefix and a blank suffix. It is also proved idempotent, and to yield ""
  exactly for blank input.
- **The application shell** (`App.dfy`). It holds the view
  (landing, login, dashboard) and the selected role. It has four handlers
  and the `renderContent` dispatch. An event is possible only if the screen
  currently shown offers it. Under that rule, the dashboard view never shows
  the landing fallback, because roles come only from the four landing cards.
  The class `App` owns the chat widget. It keeps the widget's role equal to
  `selectedRole` and runs the widget's role effect after each handler.
- **The login page** (`LoginPage.dfy`). This is the `roleConfig` lookup by
  role key with its landing fallback, and the password-visibility toggle. It
  also has the two-step simulated sign-in: submitting sets loading and
  schedules a timer, and the timer clears loading and calls `onLogin` with the
  page's role. Sign-in cannot fail. Every submit is either still pending or has
  called `onLogin`, and with the submit button disabled while loading, at most
  one is pending (`LoginRunAccounts`).
- **The domain types and tables** (`Types.dfy`, `Constants.dfy`). Roles,
  statuses and severities are datatypes. This makes every table value a
  member of its declared enumeration by construction, and each label parses
  back to its value. The lemmas prove the table invariants: percentages within
  0..100, a delivered shipment at 100 and a pending one at 0, unique ids, and
  the fixed slices the dashboards take being in bounds with the contents the
  dashboards rely on.

The request carries the trimmed input (`AIAssistant.tsx:51`, `:87`), the same
text the new user message shows (`AssistantWidget.HandleSend`).

## Model

| member | source | states |
|---|---|---|
| `Types.ParseRole` | src/types.ts:1 | a parsed role has the parsed string as its id |
| `Types.ParseRoleId` | src/types.ts:1 | every role is recovered from its id |
| `Types.RoleIdInjective` | src/types.ts:1 | distinct roles have distinct ids |
| `Types.ParseShipmentStatus` | src/types.ts:7 | a parsed shipment status has the parsed string as its label (a compile-time union: it serves only to show the labels distinct) |
| `Types.ParseShipmentStatusLabel` | src/types.ts:7 | every shipment status is recovered from its label, so labels are distinct |
| `Types.ParseVehicleStatus` | src/types.ts:16 | a parsed vehicle status has the parsed string as its label (a compile-time union: it serves only to show the labels distinct) |
| `Types.ParseVehicleStatusLabel` | src/types.ts:16 | every vehicle status is recovered from its label |
| `Types.ParseSeverity` | src/types.ts:32 | a parsed severity has the parsed string as its label (a compile-time union: it serves only to show the labels distinct) |
| `Types.ParseSeverityLabel` | src/types.ts:32 | every alert severity is recovered from its label |
| `Constants.ShipmentProgress` | src/constants.ts:3-11 | every shipment's progress is in 0..100; the delivered one is at 100, the pending one at 0 |
| `Constants.VehicleHealth` | src/constants.ts:13-20 | every vehicle's health is in 0..100 |
| `Constants.ZoneUtilization` | src/constants.ts:22-27 | every zone's utilization is in 0..100 |
| `Constants.UniqueIds` | src/constants.ts:3-33 | ids are pairwise distinct within each of the four tables |
| `Constants.RecentShipments` | src/components/CustomerDashboard.tsx:158 | the slice [0,3) of the shipments is in bounds and holds the first three shipments |
| `Constants.PartnerFleet` | src/components/PartnerDashboard.tsx:87 | the slice [3,6) of the vehicles holds vehicles 3, 4 and 5 of the table, with statuses ACTIVE, WARNING, SERVICE in that order |
| `Constants.DispatcherZones` | src/components/DispatcherDashboard.tsx:113-135 | the slice [0,2) of the zones holds the first two zones; ZONE-B-4 is the second and exceeds the 85 threshold, and the first does not |
| `Text.TrimStart` | src/components/AIAssistant.tsx:49 | the result is a suffix of the input, what was cut is blank, and it does not start with white space |
| `Text.TrimEnd` | src/components/AIAssistant.tsx:49 | the result is a prefix of the input, what was cut is blank, and it does not end with white space |
| `Text.Trim` | src/components/AIAssistant.tsx:49 | the result is the infix of the input that starts after the leading white space, and it neither starts nor ends with white space |
| `Text.TrimCutsBlank` | src/components/AIAssistant.tsx:49 | what trim removes on either side of its result is white space |
| `Text.BlankAt` | src/components/AIAssistant.tsx:49 | every character of a blank string is white space |
| `Text.TrimOffset` | src/components/AIAssistant.tsx:49 | the number of leading characters trim removes is at most the input length |
| `Text.TrimEmptyIffBlank` | src/components/AIAssistant.tsx:49 | trimming yields "" exactly when every character is white space |
| `Text.TrimOfTrimmed` | src/components/AIAssistant.tsx:51 | a string without white space at either end is its own trim |
| `Text.TrimIdempotent` | src/components/AIAssistant.tsx:51 | trimming twice equals trimming once |
| `AIAssistant.Greeting` | src/components/AIAssistant.tsx:19-26 | the landing role gets the product welcome; any other role gets the fixed head, the role's id and the fixed tail |
| `AIAssistant.GreetingDeterminesRole` | src/components/AIAssistant.tsx:22-24 | different roles are greeted with different texts |
| `AIAssistant.ErrorReport` | src/components/AIAssistant.tsx:100 | an error bubble is "Error: ", the detail, then the console hint, and the detail can be read back |
| `AIAssistant.ReplyText` | src/components/AIAssistant.tsx:57-101 | the appended answer is never empty: the reply, the apology for an empty reply, or an error report with the failure's message, the generic text, or the missing-key text |
| `AIAssistant.CanSend` | src/components/AIAssistant.tsx:49 | the send guard, also the button's `disabled` at line 206, passes exactly when the input is not blank and no request is in flight |
| `AIAssistant.SetOpen` | src/components/AIAssistant.tsx:115 | opening or closing sets the open flag and changes nothing else |
| `AIAssistant.EditInput` | src/components/AIAssistant.tsx:199 | typing sets the input and changes nothing else |
| `AIAssistant.ResetForRole` | src/components/AIAssistant.tsx:30-40 | a new role replaces the transcript by that role's single greeting whatever the loading state, and keeps loading, input and open flag; the same role changes nothing |
| `AIAssistant.SendStep` | src/components/AIAssistant.tsx:48-60 | nothing changes exactly when the input is blank or a request is in flight; otherwise the trimmed input is appended as a user message and the input is cleared; with a key loading is set, without one the missing-key report follows at once and loading ends cleared |
| `AIAssistant.Enabled` | src/components/AIAssistant.tsx:127 | typing and sending exist only in the open window, and the close button too (line 146), so a closed widget accepts only opening, a completion and a role change |
| `AIAssistant.CompleteStep` | src/components/AIAssistant.tsx:93-104 | exactly one assistant message with the reply text is appended, earlier messages are unchanged, loading is cleared |
| `AIAssistant.StepKeepsWellFormed` | src/components/AIAssistant.tsx:30-104 | every event keeps the greeting of the current role first and every user message non-empty and trimmed |
| `AIAssistant.SendKeepsWellFormed` | src/components/AIAssistant.tsx:48-60 | a send keeps the transcript well formed, with or without a key |
| `AIAssistant.AppendKeepsWellFormed` | src/components/AIAssistant.tsx:53 | appending a message, non-empty and trimmed if it is the user's, keeps the transcript well formed |
| `AIAssistant.RunKeepsWellFormed` | src/components/AIAssistant.tsx:30-104 | every sequence of events keeps that invariant |
| `AIAssistant.AppendKeepsAlternation` | src/components/AIAssistant.tsx:53 | appending a message of the expected speaker keeps user and assistant messages alternating |
| `AIAssistant.StepKeepsPaired` | src/components/AIAssistant.tsx:48-104 | every event other than a role change during a request keeps the alternation, with loading meaning an unanswered user message |
| `AIAssistant.SendKeepsPaired` | src/components/AIAssistant.tsx:48-54 | a send keeps the alternation and the loading correspondence |
| `AIAssistant.AcceptedSendKeepsPaired` | src/components/AIAssistant.tsx:48-54 | an accepted send appends the user message at an odd position and either starts the request or, without a key, is answered at once |
| `AIAssistant.AskedKeepsPaired` | src/components/AIAssistant.tsx:52-54 | appending a user message while idle and setting loading keeps the alternation |
| `AIAssistant.CompleteKeepsPaired` | src/components/AIAssistant.tsx:93-104 | a completion keeps the alternation and the loading correspondence |
| `AIAssistant.RunKeepsPaired` | src/components/AIAssistant.tsx:48-104 | every run without such a role change keeps the alternation |
| `AIAssistant.ConversationAlternates` | src/components/AIAssistant.tsx:19-104 | from the first render, each accepted send is answered by exactly one assistant message while no role change interrupts a request |
| `AIAssistant.RoleChangeMidRequest` | src/components/AIAssistant.tsx:30-98 | a role change during a request leaves loading set, and the late answer follows the new greeting with no user message before it |
| `AIAssistant.AskOnce` | src/components/AIAssistant.tsx:48-104 | in the open, idle widget with a key, typing, sending and the request's end add exactly the trimmed question and one answer, clear the input and end loading |
| `AIAssistant.SendThenComplete` | src/components/AIAssistant.tsx:48-104 | with a key, an accepted send and its completion add the trimmed input and one answer, clear the input and end loading |
| `AIAssistant.AskWithoutKey` | src/components/AIAssistant.tsx:56-60 | without a key, typing and sending add the trimmed question and the missing-key report at once, with loading cleared |
| `AIAssistant.RunKeepsKey` | src/components/AIAssistant.tsx:57 | no run changes whether the key is set |
| `AIAssistant.NoKeyNeverLoads` | src/components/AIAssistant.tsx:56-60 | without a key, no run ever leaves a request in flight |
| `AIAssistant.RunSnoc` | src/components/AIAssistant.tsx:30-104 | a run extended by one enabled event is still runnable and ends one step further |
| `AIAssistant.SwitchDiscardsConversation` | src/components/AIAssistant.tsx:30-40 | after any history, switching to a different role leaves only that role's greeting |
| `AIAssistant.AssistantWidget.constructor` | src/components/AIAssistant.tsx:17-27 | the widget starts closed, with empty input, the role's greeting alone and loading cleared, with the environment's key setting |
| `AIAssistant.AssistantWidget.Open` | src/components/AIAssistant.tsx:115 | the floating button opens the window and changes nothing else |
| `AIAssistant.AssistantWidget.Close` | src/components/AIAssistant.tsx:146 | the close button closes the window and changes nothing else |
| `AIAssistant.AssistantWidget.Edit` | src/components/AIAssistant.tsx:199 | the input's change handler sets the input |
| `AIAssistant.AssistantWidget.OnRoleChange` | src/components/AIAssistant.tsx:30-40 | the role effect moves the fields as the role reset does |
| `AIAssistant.AssistantWidget.HandleSend` | src/components/AIAssistant.tsx:48-54 | the send handler moves the fields as the send step does, and hands the trimmed text, the content of the new user message, to the generation call exactly when the guard passes and a key is set |
| `AIAssistant.AssistantWidget.Complete` | src/components/AIAssistant.tsx:93-104 | the continuation of a request in flight moves the fields as the completion step does |
| `LoginPage.ConfigFor` | src/components/LoginPage.tsx:37 | a key in the table gets its entry, any other key the landing entry |
| `LoginPage.ConfigKeysAreRoleIds` | src/components/LoginPage.tsx:29-37 | the table's keys are exactly the role ids, and every other key is titled "Login" |
| `LoginPage.ConfigTitles` | src/components/LoginPage.tsx:29-35 | the four roles get "Customer Login", "Driver Login", "Partner Login", "Dispatcher Login"; landing gets "Login" |
| `LoginPage.ConfigTitlesDistinct` | src/components/LoginPage.tsx:29-35 | distinct roles see distinct headings |
| `LoginPage.TogglePasswordStep` | src/components/LoginPage.tsx:107 | the eye button flips password visibility and changes nothing else |
| `LoginPage.SubmitStep` | src/components/LoginPage.tsx:39-42 | submitting sets loading and schedules one timer |
| `LoginPage.TimerStep` | src/components/LoginPage.tsx:43-46 | the timer clears loading and calls onLogin with exactly the page's role |
| `LoginPage.LoginEnabled` | src/components/LoginPage.tsx:124 | a submit never happens while loading, since the button is disabled, and a timer fires only once scheduled (line 43) |
| `LoginPage.LoginRunAccounts` | src/components/LoginPage.tsx:39-47 | along any run with the button disabled while loading, submits equal onLogin calls plus pending timers, every call carries the page's role, and at most one sign-in is pending |
| `LoginPage.EverySubmitLogsIn` | src/components/LoginPage.tsx:39-47 | once loading is over, every submit has called onLogin with the page's role |
| `LoginPage.LoginPage.constructor` | src/components/LoginPage.tsx:25-27 | the page starts with the password hidden and not loading |
| `LoginPage.LoginPage.SubmitDisabled` | src/components/LoginPage.tsx:124 | the submit button is disabled exactly while loading |
| `LoginPage.LoginPage.TogglePassword` | src/components/LoginPage.tsx:107 | the eye button moves the fields as the toggle step does |
| `LoginPage.LoginPage.HandleSubmit` | src/components/LoginPage.tsx:39-42 | the submit handler moves the fields as the submit step does |
| `LoginPage.LoginPage.TimerFires` | src/components/LoginPage.tsx:43-46 | the timer callback moves the fields as the timer step does and returns the role passed to onLogin |
| `Application.RenderContent` | src/App.tsx:31-58 | landing shows the landing page, login shows the login page with the selected role, dashboard shows the role's dashboard or falls back to the landing page for the landing role |
| `Application.SelectRoleStep` | src/App.tsx:16-19 | picking a role selects it and shows that role's login page |
| `Application.LoginStep` | src/App.tsx:21-24 | logging in selects the role and shows its dashboard |
| `Application.LogoutStep` | src/App.tsx:26-29 | logging out returns to the initial state, showing the landing page |
| `Application.BackStep` | src/App.tsx:41 | going back sets the landing view, shows the landing page and keeps the selected role |
| `Application.Offered` | src/App.tsx:33-56 | a role is picked only on the landing page and never as landing, login happens only on the login page for its own role, back only from a login page |
| `Application.RenderContentDistinguishes` | src/App.tsx:31-58 | off the landing view and with a role selected, different states show different screens |
| `Application.AppRunKeepsRoleChosen` | src/App.tsx:16-41 | along any run of offered events, a role is selected whenever the view is not landing |
| `Application.DashboardNeverFallsBack` | src/App.tsx:46-57 | from the initial state, the dashboard view always shows the selected role's own dashboard |
| `Application.LogoutResetsChat` | src/App.tsx:26-29 | logging out of a reachable dashboard re-seeds the chat widget with the landing welcome |
| `Application.App.constructor` | src/App.tsx:13-14 | the shell starts on the landing view with no role, and its widget greets the landing visitor with the environment's key setting |
| `Application.App.SelectRole` | src/App.tsx:16-19 | picking a role selects it and shows the login view, and the widget follows the role |
| `Application.App.Login` | src/App.tsx:21-24 | logging in selects the given role and shows the dashboard, and the widget follows the role |
| `Application.App.Logout` | src/App.tsx:26-29 | logging out shows the landing view with the landing role, and the widget follows the role |
| `Application.App.Back` | src/App.tsx:41 | going back shows the landing view and keeps the selected role and the widget |

## Left out

- The generation call itself (`AIAssistant.tsx:62-91`) is an external library and a network request. It becomes the `Outcome` passed to the completion step.
- `AIAssistant.AssistantWidget.HandleSend`: returns only the text handed to the generation call. The model name and the system instruction that go with it are not modelled; the instruction depends only on the role.
- Reading `process.env` becomes the constant `hasKey`, fixed when the widget is created; only whether the key is set matters, not its value.
- A rejection whose value is `null` or `undefined` is not modelled. There `error.message` (`AIAssistant.tsx:97`) throws inside the catch, so nothing is appended and only the `finally` runs; in the model every `Failure` appends one error report.
- `console.error`, the scroll-to-bottom effect, the Enter-key wiring and all animation are I/O or presentation. The Enter key calls the same guarded handler as the button.
- React's rendering and batching are not modelled. A handler and the role effect it triggers form one atomic step. The effect's first run on mount writes the greeting the state already holds, so it is part of the initial state.
- Real time is not modelled. The 1500 ms sign-in delay and the await become discrete steps.
- The login timer is not cancelled when the login page unmounts. In the shell's event sequences a login happens only while the login page is shown, so "back" during a pending sign-in, followed by the timer firing, is not modelled.
- `LoginPage.ConfigFor`: keys inherited from JavaScript's object prototype (such as "constructor") are treated as missing. In the source they would be found on the prototype. Roles never take such values.
- The email, password and "remember me" fields and HTML `required` validation are browser behaviour; no credential is ever checked.
- The four dashboards and the landing page are presentation: markup, style selection, a local tab state whose other tabs show a placeholder, and a retried initialisation of an external background script. Only their table slices, the overload threshold and the list of landing-page roles are modelled.
- Icons are named by an enumeration, and table numbers are whole numbers, which is all the tables hold.
