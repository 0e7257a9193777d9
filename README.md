# IoT machine dashboard: a verified model of its client core

This project models the browser client of an IoT dashboard. The client
watches a machine (an irrigation or climate unit with a motor, a pump and a
sprinkler) and manages a delivery operation made up of bikes, riders,
customers and orders. The model covers:

- the session context: the logged-in user, mirrored into local storage under
  `"userM"`;
- the role guard, the permission guard and the route guard;
- the hub-location and active-button contexts;
- the rider alias formatter;
- the landing pages: login, registration, password recovery and
  confirmation;
- the onboarding dialogs (bike, rider, customer and report order) and the
  three-step "Create New Order" wizard;
- the machine dashboard: its sensor window, its socket handlers, its status
  echo and its setpoint sliders.

There is one Dafny module per source file, named after the file.

- Modules that are only expressions (the guards, the formatter, the
  schemas, the request bodies) are datatypes, functions and lemmas.
- Component state that the source updates in place is a `class`. Each
  handler is a method with a `modifies` frame, and its `ensures` states the
  new state in terms of the old one. The classes are `UserSession`,
  `ButtonRegister`, `HubLocations`, the four page classes, `FormDialogContent`,
  `NewOrderDialog` and `Dashboard`.
- A React effect is modelled as running right after the state change that
  triggers it. For example, `UserSession.SetUser` includes the mirroring
  effect, and `Dashboard.HandleCriticalNotification` includes the chart
  effect.
- An awaited `fetch` is abstracted as `Common.Reply`: the request either
  threw, or it answered with an HTTP `ok` verdict and the body's `success`
  flag. In the login and register handlers, the `await` splits the handler
  in two. `BeginSubmit` validates the input and sets the loading flag.
  `CompleteSubmit` consumes the reply and clears the flag on every path,
  which is what the `finally` block does.
- The email format check of the schema library is a parameter
  `isEmail: string -> bool`. The "within three weeks" date check depends on
  the clock, so it is a parameter `withinThreeWeeks: bool`.
- Toasts are counted (`errorToasts`), not rendered.

### The dashboard's sensor window

The dashboard keeps a window of the last readings, with a capacity of 6
(`Dash.WindowCap`). The source's merge only writes the merged window back
when the merged length is over 6 (`Dash.tsx:310-313`). A window that starts
shorter than 6 therefore never takes a sample: see "## Findings".

`Dash.Dashboard.ChartEffect` models that code as written, so the class
behaves as the source does. The evidently intended merge is
`Dash.MergeWindowIntended`. It is proved to keep the last `min(n, 6)`
samples (`Dash.IntendedFromEmpty`).

## Model

| member | source | states |
|---|---|---|
| Common.Usable | src/Componts/FormDialogs.tsx:258 | the place handlers' truthiness test: a location is present and the name is present and non-empty |
| UserContext.MockUser | src/contexts/userContext.tsx:45-60 | the simulated login user carries the given email, id, name and machine, hub "Main Hub", location "Location A", role "admin" and permissions read and write |
| UserContext.Mirrored | src/contexts/userContext.tsx:36-43 | a present user is stored under "userM", an absent user removes that key, and every other key is kept unchanged |
| UserContext.Stored | src/contexts/userContext.tsx:28-33 | the restored user is present exactly when "userM" is in storage, and it is the stored value |
| UserContext.MirroredStable | src/contexts/userContext.tsx:36-43 | mirroring the same user twice changes nothing more, and restoring after a mirror gives back that user |
| UserContext.RestoreRoundTrip | src/contexts/userContext.tsx:25-43 | mirroring the restored user gives back exactly the storage it was read from |
| UserContext.UserSession.constructor | src/contexts/userContext.tsx:25-43 | after mounting, the user is the stored one, storage is unchanged, and storage mirrors the user |
| UserContext.UserSession.SetUser | src/contexts/userContext.tsx:36-43 | the user is replaced and storage is re-mirrored, so storage again mirrors the user |
| UserContext.UserSession.Login | src/contexts/userContext.tsx:45-61 | the session holds the mock user for the given credentials, and it is mirrored into storage |
| UserContext.UserSession.Logout | src/contexts/userContext.tsx:63-65 | the user is cleared and "userM" is no longer in storage |
| Rbac.Renders | src/contexts/rbac.tsx:12 | the role guard's condition: a user is present and its role is in the allowed list |
| Rbac.RendersIff | src/contexts/rbac.tsx:12-16 | the children render iff a user is present and some allowed role equals the user's role |
| Rbac.EmptyNeverRenders | src/contexts/rbac.tsx:12-16 | with no allowed roles, nothing renders |
| Rbac.MoreRolesMonotone | src/contexts/rbac.tsx:12-16 | adding roles on either side of the allowed list never hides content that rendered before |
| Rbac.MockUserIsAdmin | src/contexts/rbac.tsx:12-16 | the mock login user passes a guard that allows "admin" |
| Permission.Renders | src/contexts/permissionaccesscontrol.tsx:12 | the permission guard's condition: a user is present and the required permission is in its permissions |
| Permission.RendersIff | src/contexts/permissionaccesscontrol.tsx:12-16 | the children render iff a user is present and the required permission is among the user's permissions |
| Permission.NoPermissionsNeverRenders | src/contexts/permissionaccesscontrol.tsx:12-16 | a user with no permissions sees nothing |
| Permission.OnlyPermissionsMatter | src/contexts/permissionaccesscontrol.tsx:12-16 | two users with the same permissions get the same verdict, whatever their other fields |
| Permission.MockUserPermissions | src/contexts/permissionaccesscontrol.tsx:12-16 | the mock login user sees content exactly when it requires "read" or "write" |
| Protected.Guard | src/contexts/Protected.tsx:14-28 | with no user the route redirects to "/" with replace, and with a user it renders its children |
| Protected.Notifies | src/contexts/Protected.tsx:14-21 | the "Login to access the resources" toast fires when there is no user |
| Protected.NotifiesIffRedirect | src/contexts/Protected.tsx:14-28 | the "Login to access the resources" toast fires exactly when the guard redirects |
| TabActives.ButtonRegister.constructor | src/contexts/useTabActives.tsx:12 | no button is active initially |
| TabActives.ButtonRegister.Activate | src/contexts/useTabActives.tsx:14-16 | the active button becomes the given name |
| TabActives.ButtonRegister.Deactivate | src/contexts/useTabActives.tsx:18-20 | no button is active afterwards |
| ButtonWrappers.ShowsAddOrder | src/Componts/ButtonWrappers.tsx:12 | "Add Order" is rendered on the "Dashboard" or "Orders" tab |
| ButtonWrappers.ShowsAddOrderExactly | src/Componts/ButtonWrappers.tsx:12 | "Add Order" shows exactly on the Dashboard and Orders tabs |
| ButtonWrappers.Click | src/Componts/ButtonWrappers.tsx:12 | clicking makes "order" the active button, which opens the order dialog |
| StringDty.PadStart | src/utils/StringDty.ts:2 | the result is max(target, len) long, ends with the input and is preceded only by '0's; it is the input itself when the target is not longer |
| StringDty.FormatStringAlias | src/utils/StringDty.ts:1-3 | the alias is the given prefix, a '-', zeros, then the rider id, and its length is prefix + 1 + max(pad, len(id)) |
| StringDty.PadStartIdempotent | src/utils/StringDty.ts:2 | padding an already padded string to the same length changes nothing |
| StringDty.PadStartInjective | src/utils/StringDty.ts:1-3 | equal-length ids never collide after padding |
| StringDty.PadStartCollidesAcrossLengths | src/utils/StringDty.ts:2 | ids of different lengths can collide: "1" and "01" both pad to "001" |
| HubLocation.Find | src/contexts/useHubLoc.tsx:36-38 | the search yields no region iff none has the name, and otherwise the first region with that name |
| HubLocation.InitialFind | src/contexts/useHubLoc.tsx:18-23 | within the initial list, "Arusha" finds its only region, and any other name finds none |
| HubLocation.HubLocations.constructor | src/contexts/useHubLoc.tsx:18-34 | the regions are the initial list, and no hub is selected |
| HubLocation.HubLocations.SelectHub | src/contexts/useHubLoc.tsx:35-44 | a known name selects its first matching region, an unknown name leaves the selection unchanged, and the selection always stays in the list |
| Confirmation.Decide | src/pages/Land/Confirmation.tsx:16-30 | a mismatch is rejected with the mismatch message; otherwise a password shorter than 8 is rejected as too short; otherwise the page goes to login |
| Confirmation.DecideExclusive | src/pages/Land/Confirmation.tsx:16-30 | the submission goes to login exactly when the two entries agree and have at least 8 characters |
| Confirmation.ConfirmPasswordPage.HandleSubmit | src/pages/Land/Confirmation.tsx:16-30 | the page sets the error or navigates to "/login", as decided, and never both |
| Confirmation.ConfirmPasswordPage.constructor | src/pages/Land/Confirmation.tsx:11-13 | both entries and the error start empty, and the page has not navigated |
| Recovery.ResetPasswordPage.HandleSubmit | src/pages/Land/Recovery.tsx:14-23 | an empty email sets the error and clears the message; otherwise the sent message appears and the error is cleared |
| Recovery.ResetPasswordPage.constructor | src/pages/Land/Recovery.tsx:10-12 | the email, the message and the error start empty |
| Register.RegisterValid | src/pages/Land/Register.tsx:12-16 | the registration schema: a name of at least 2 characters, an email the format check accepts, and a password of at least 8 |
| Register.RegisterThresholds | src/pages/Land/Register.tsx:12-16 | a name under 2 or a password under 8 characters is always rejected, and otherwise the email check decides |
| Register.Body | src/pages/Land/Register.tsx:46-50 | the payload sends the name as `username` and copies the email and password |
| Register.BodyRoundTrip | src/pages/Land/Register.tsx:46-50 | the form can be recovered from the payload |
| Register.WithField | src/pages/Land/Register.tsx:30-32 | an edit of a known field id replaces that field only, and an unknown id changes nothing |
| Register.WithFieldLastWins | src/pages/Land/Register.tsx:30-32 | two edits of the same field keep the later value |
| Register.WithFieldCommute | src/pages/Land/Register.tsx:30-32 | edits of different fields commute |
| Register.RegisterPage.constructor | src/pages/Land/Register.tsx:22-27 | the form starts with three empty fields, not loading, not navigated and with no toasts |
| Register.RegisterPage.HandleChange | src/pages/Land/Register.tsx:30-32 | the form becomes the edited form, and nothing else changes |
| Register.RegisterPage.BeginSubmit | src/pages/Land/Register.tsx:34-52 | invalid data toasts and sends nothing; valid data sends the payload of the form and sets loading |
| Register.RegisterPage.CompleteSubmit | src/pages/Land/Register.tsx:53-101 | an ok, successful reply navigates to "/"; any other reply toasts without navigating; loading is cleared on every path |
| Login.LoginValid | src/pages/Land/Login.tsx:17-21 | the login schema: an email the format check accepts, a password of at least 8 characters and a chosen machine |
| Login.LoginThresholds | src/pages/Land/Login.tsx:17-21 | a password under 8 characters or no chosen machine is always rejected, and otherwise the email check decides |
| Login.Body | src/pages/Land/Login.tsx:93-97 | the payload carries the machine as `machineID`, and the email and password |
| Login.BodyRoundTrip | src/pages/Land/Login.tsx:93-97 | the form can be recovered from the payload |
| Login.SessionUser | src/pages/Land/Login.tsx:107 | the session user is the server profile, with the server's id as userId and the chosen machine as machineId |
| Login.SessionUserIgnoresServerIds | src/pages/Land/Login.tsx:107 | the profile's own userId and machineId never reach the session |
| Login.AuthPath | src/pages/Land/Login.tsx:50 | the authenticated page of a user id is "/auth/" followed by that id |
| Login.Redirect | src/pages/Land/Login.tsx:48-52 | a present user is sent to "/auth/" followed by the user's id, and no user means no redirect |
| Login.RedirectAgreesWithLogin | src/pages/Land/Login.tsx:48-109 | after a successful login, the redirect effect's target is "/auth/" followed by the server user's id, which is where the handler navigated |
| Login.LoginPage.constructor | src/pages/Land/Login.tsx:35 | the page starts on the given session, not loading, not navigated and with no toasts |
| Login.LoginPage.RedirectEffect | src/pages/Land/Login.tsx:48-52 | the page navigates as `Redirect` decides and changes nothing else |
| Login.LoginPage.BeginSubmit | src/pages/Land/Login.tsx:85-98 | invalid data sends nothing and changes nothing; valid data sends the payload and sets loading |
| Login.LoginPage.CompleteSubmit | src/pages/Land/Login.tsx:99-128 | an ok, successful reply installs the session user and navigates to "/auth/" followed by the server user's id; every other reply toasts and leaves the session; loading ends |
| FormDialogs.MatchesPhonePattern | src/Componts/FormDialogs.tsx:42 | the pattern `^0\d{9}$`: a '0' and then exactly nine ASCII digits |
| FormDialogs.PhoneValid | src/Componts/FormDialogs.tsx:40-42 | the phone rule: exactly 10 characters and the pattern a '0' followed by nine digits |
| FormDialogs.BikeValid | src/Componts/FormDialogs.tsx:29-33 | the bike schema: serial and plate of at least 3 characters, and a generation among "gen1" and "gen2" |
| FormDialogs.RiderValid | src/Componts/FormDialogs.tsx:35-45 | the rider schema: names of at least 2 characters, a national id of exactly 20, a valid phone, a location of at least 3 and an accepted email |
| FormDialogs.OrderDraftValid | src/Componts/FormDialogs.tsx:47-50 | the report-order schema: an order name of at least 3 characters and a delivery address of at least 5 |
| FormDialogs.CustomerValid | src/Componts/FormDialogs.tsx:52-64 | the customer schema: names and business name of at least 2 characters, a listed business line, an accepted email, a valid phone, a location name of at least 2 and coordinates in range |
| FormDialogs.AllDigitsIff | src/Componts/FormDialogs.tsx:40-42 | the recursive digit test holds iff every character is an ASCII digit |
| FormDialogs.PhoneValidIff | src/Componts/FormDialogs.tsx:40-42 | a phone is accepted iff it is 10 characters, starts with '0' and the rest are digits |
| FormDialogs.BikeValidBounds | src/Componts/FormDialogs.tsx:29-33 | a bike needs serial and plate of at least 3 characters and generation "gen1" or "gen2" |
| FormDialogs.RiderValidBounds | src/Componts/FormDialogs.tsx:35-45 | a valid rider has a 20-character national id, names of at least 2, a location of at least 3 and a 10-character phone |
| FormDialogs.CustomerValidBounds | src/Componts/FormDialogs.tsx:52-64 | a valid customer has coordinates within range and one of the eight business lines |
| FormDialogs.BikeBodyOf | src/Componts/FormDialogs.tsx:132-136 | plate and serial are copied, and the generation is sent as 1 exactly for "gen1" and as 2 otherwise |
| FormDialogs.BikeBodyRoundTrip | src/Componts/FormDialogs.tsx:29-136 | for every form the schema accepts, the form can be recovered from the body |
| FormDialogs.RiderBodyOf | src/Componts/FormDialogs.tsx:175-178 | all fields are copied, and the email is null exactly when it is empty |
| FormDialogs.RiderBodyRoundTrip | src/Componts/FormDialogs.tsx:175-178 | the form can be recovered from the body |
| FormDialogs.CustomerBodyOf | src/Componts/FormDialogs.tsx:218-228 | the location is flattened into name, longitude and latitude, and the rest is carried over |
| FormDialogs.CustomerBodyRoundTrip | src/Componts/FormDialogs.tsx:218-228 | the form can be recovered from the body |
| FormDialogs.SelectedLocation | src/Componts/FormDialogs.tsx:256-272 | a usable place replaces the location with its name and coordinates, and any other place keeps the current location |
| FormDialogs.DialogFor | src/Componts/FormDialogs.tsx:274-625 | each tab name selects its dialog, and any other name selects none |
| FormDialogs.StepTarget | src/Componts/FormDialogs.tsx:320-566 | the step each rendered wizard button leads to: riders 1 and 2, customers 1 to 3, and no button elsewhere |
| FormDialogs.StepTargetMovesByOne | src/Componts/FormDialogs.tsx:320-566 | Next moves one step forward and Previous one step back, where the dialog offers them |
| FormDialogs.SelectPlaceWarns | src/Componts/FormDialogs.tsx:264-270 | the warning toast fires for a present place that lacks a location or a non-empty name |
| FormDialogs.FormDialogContent.constructor | src/Componts/FormDialogs.tsx:72-122 | the dialog starts at step 1, not submitting, with default forms |
| FormDialogs.FormDialogContent.Press | src/Componts/FormDialogs.tsx:320-566 | the step moves to the button's target, and the forms are unchanged |
| FormDialogs.FormDialogContent.SelectPlace | src/Componts/FormDialogs.tsx:256-272 | the customer location becomes the selected location, and an unusable place also toasts |
| FormDialogs.FormDialogContent.SubmitBike | src/Componts/FormDialogs.tsx:124-163 | invalid input sends nothing; otherwise the body is sent, and only a successful reply resets the form and closes the dialog; submitting ends |
| FormDialogs.FormDialogContent.SubmitRider | src/Componts/FormDialogs.tsx:167-207 | as for bikes, with the rider schema and the rider body |
| FormDialogs.FormDialogContent.SubmitCustomer | src/Componts/FormDialogs.tsx:210-254 | as for bikes, with the customer schema and the flattened customer body |
| NewOrder.PlaceValid | src/Componts/NewOrder.tsx:46-55 | a place has a name of at least 2 characters and coordinates in range |
| NewOrder.FieldValid | src/Componts/NewOrder.tsx:44-55 | a business is chosen, or the named place is valid |
| NewOrder.OrderValid | src/Componts/NewOrder.tsx:44-61 | the whole order schema: business, both places, and a scheduled date, when present, within three weeks |
| NewOrder.DialogOpen | src/Componts/NewOrder.tsx:161 | the dialog is open exactly while "order" is the active button |
| NewOrder.ShowsPrevious | src/Componts/NewOrder.tsx:318 | Previous is rendered above step 1 |
| NewOrder.ShowsNext | src/Componts/NewOrder.tsx:323 | Next is rendered below step 3 |
| NewOrder.ShowsSubmit | src/Componts/NewOrder.tsx:323-338 | the submit button is rendered where Next is not |
| NewOrder.StepFields | src/Componts/NewOrder.tsx:147-153 | step 1 validates the business, and later steps validate the two places |
| NewOrder.StepFieldsValid | src/Componts/NewOrder.tsx:44-61 | a step's fields are valid iff the business is chosen (step 1), or iff both places are valid (later steps) |
| NewOrder.GuardsKeepRange | src/Componts/NewOrder.tsx:318-338 | within steps 1..3, the offered Next and Previous keep the step in 1..3, and submit shows exactly at step 3 |
| NewOrder.WithPlace | src/Componts/NewOrder.tsx:137-145 | only the named place changes, and only to a usable place's point; everything else is kept |
| NewOrder.NewOrderDialog.constructor | src/Componts/NewOrder.tsx:72-90 | the wizard starts at step 1 with the default order |
| NewOrder.NewOrderDialog.HandleNext | src/Componts/NewOrder.tsx:147-153 | the step advances by one exactly when its fields are valid, and the form is kept |
| NewOrder.NewOrderDialog.HandlePrevious | src/Componts/NewOrder.tsx:155-157 | the step goes back by one |
| NewOrder.NewOrderDialog.HandlePlaceSelect | src/Componts/NewOrder.tsx:137-145 | the form becomes `WithPlace` of the old form |
| NewOrder.NewOrderDialog.Close | src/Componts/NewOrder.tsx:161 | after closing, no button is active, so the dialog is no longer open |
| NewOrder.NewOrderDialog.Submit | src/Componts/NewOrder.tsx:113-135 | invalid data is not submitted and changes nothing; valid data is submitted, then the form resets, the step returns to 1 and the dialog closes |
| Dash.MergeWindow | src/pages/Dash/Dash.tsx:306-315 | as written: the length is preserved; from 6 entries on, the oldest is dropped and the sample is last; below 6, the window is unchanged |
| Dash.MergeAll | src/pages/Dash/Dash.tsx:306-315 | as written: the window after a run of samples, one merge per sample |
| Dash.MergeAllBelowCapIsStuck | src/pages/Dash/Dash.tsx:310-313 | as written: a window shorter than 6 stays the same whatever samples arrive |
| Dash.MergeAllFromCap | src/pages/Dash/Dash.tsx:309-313 | as written: from 6 entries on, the window keeps its length and ends with the latest sample |
| Dash.EmptyWindowDropsSample | src/pages/Dash/Dash.tsx:310-313 | as written: a sample merged into an empty window is lost |
| Dash.MergeWindowIntended | src/pages/Dash/Dash.tsx:306-315 | corrected: the sample always ends the window, and a window within 6 stays within 6 |
| Dash.MergeAllIntendedKeepsLatest | src/pages/Dash/Dash.tsx:306-315 | corrected: after any samples, the window is the last 6 of the old window followed by the samples |
| Dash.IntendedFromEmpty | src/pages/Dash/Dash.tsx:306-315 | corrected: from an empty window, the last min(n, 6) samples are kept, in order |
| Dash.WithSetedTemperature | src/pages/Dash/Dash.tsx:383-388 | the slider sets the temperature setpoint, and the readings and the other setpoint are kept |
| Dash.WithSetedHumidity | src/pages/Dash/Dash.tsx:401-406 | the slider sets the humidity setpoint, and the readings and the other setpoint are kept |
| Dash.SlidersIndependent | src/pages/Dash/Dash.tsx:383-406 | moving both sliders gives the same record in either order |
| Dash.StatusToEmit | src/pages/Dash/Dash.tsx:341-356 | a status is emitted only with an open socket and a non-empty machine id, and it carries the current switches and that machine |
| Dash.ForMachine | src/pages/Dash/Dash.tsx:265 | a message is for this dashboard exactly when its machine equals the user's machine id |
| Dash.Dashboard.constructor | src/pages/Dash/Dash.tsx:137-151 | the dashboard starts with temperature 84, humidity 37, the same setpoints, no window (null), no snapshot, no socket, nothing sent and no toasts |
| Dash.Dashboard.OnMachineFetched | src/pages/Dash/Dash.tsx:197-225 | only an ok, successful reply with a body installs the machine snapshot; a thrown request, a non-ok status or an unsuccessful body shows one toast |
| Dash.Dashboard.OnLogsFetched | src/pages/Dash/Dash.tsx:229-257 | only an ok, successful reply with a body replaces the window with the fetched logs; a thrown request, a non-ok status or an unsuccessful body shows one toast |
| Dash.Dashboard.OpenSocket | src/pages/Dash/Dash.tsx:259-261 | the socket is marked open |
| Dash.Dashboard.ChartEffect | src/pages/Dash/Dash.tsx:306-315 | the pending sample, if any, is merged into the window as the source does (`MergeWindow`) |
| Dash.Dashboard.HandleCriticalNotification | src/pages/Dash/Dash.tsx:263-278 | the readings take the message's values, and the chart effect merges the corresponding log |
| Dash.Dashboard.StatusEffect | src/pages/Dash/Dash.tsx:341-356 | the outbox gains exactly the status `StatusToEmit` yields |
| Dash.Dashboard.SetFlags | src/pages/Dash/Dash.tsx:341-356 | the switches take the new values, and the status effect runs exactly when one of them changed |
| Dash.Dashboard.HandleMachineStatus | src/pages/Dash/Dash.tsx:280-288 | a status for this machine sets the switches, and echoes the message back when a switch changed, the socket is open and the machine is non-empty; messages for other machines change nothing |
| Dash.Dashboard.EditTemperatureSetpoint | src/pages/Dash/Dash.tsx:383-388 | the temperature setpoint and the machine record's copy take the slider value |
| Dash.Dashboard.EditHumiditySetpoint | src/pages/Dash/Dash.tsx:401-406 | the humidity setpoint and the machine record's copy take the slider value |

## Left out

- Network I/O (`fetch`, response bodies, JSON): every awaited request is an abstract `Reply`, and bodies are passed in as values.
- The socket library: connecting becomes `OpenSocket`, and each subscribed event becomes a message handler; the unmount teardown (`off`, `disconnect`) is not modelled. Event delivery order is whatever sequence of handler calls a caller chooses.
- The 4-second debounced publication of the setpoints to the machine is not modelled, because it depends on timers. The sliders' state updates are modelled.
- The dashboard's PDF export (`handleExport`) and its `logoutUser` button are left out. They are file I/O and a call into the session's `Logout`, which is modelled.
- Number and time formatting (`toFixed`, timestamps): values are exact reals, and a log's time is an opaque string.
- Dash.Dashboard.HandleCriticalNotification: the log entry's `time` is a free parameter and is not the message's timestamp. The source formats `createdAt` read from the raw message string rather than from the parsed object (Dash.tsx:272), so the displayed time is not derived from the message.
- The email format check of the schema library is a parameter `isEmail`, so every email property holds for any such check.
- The order schema's "no more than three weeks ahead" rule reads the clock: its verdict is the parameter `withinThreeWeeks`.
- The address autocomplete widget (AutocompleteSearch) is left out. Its output is the `PlaceResult` value the place handlers receive.
- Local storage is a `map` from keys to users. Serialisation to JSON text, and parse failures, are not modelled.
- The machine-list fetch on the login page and the business-list fetch in the order wizard only fill pick lists, so they are left out.
- The report-order dialog has no submit handler, so only its schema (`FormDialogs.OrderDraftValid`) is modelled.
- Rendering, routing glue (`App.tsx`, `main.tsx`, the layout), styling and the toast messages' text are left out. Toasts are counted.
- Lengths count Dafny characters, whereas JavaScript `length` counts UTF-16 code units. The two differ only for characters outside the Basic Multilingual Plane.
- StringDty.PadStart: the pad length is an integer, whereas JavaScript accepts any number and truncates it.
- Coordinates and sensor values are exact reals, not IEEE doubles.
- Dash.Dashboard: the user, and so the machine id, is fixed for the dashboard's lifetime. A change of session user while the page is shown is not modelled.
- FormDialogs.RiderBodyOf: the `'' -> null` email branch is reachable through `SubmitRider` only if the email check accepts the empty string.
- Register.RegisterPage.CompleteSubmit and Login.LoginPage.CompleteSubmit: a reply whose JSON parse throws is the same as `Thrown`.

## Findings

| source | as written | input that shows it | evidently intended | confidence | as-written member | corrected member |
|---|---|---|---|---|---|---|
| src/pages/Dash/Dash.tsx:310-313 | the merged copy is written back only inside `if (PreviousData.length > 6)`, after the shift | a window of fewer than 6 logs (for example the empty one) and a new critical notification: the window is unchanged and the sample is lost | always append the sample, and drop the oldest only when that takes the window past 6 | not executed | Dash.EmptyWindowDropsSample | Dash.IntendedFromEmpty |
