# Parking reservations client — a Dafny model

This project models the client side of the WeLink Cargo parking reservations system. That client is a Next.js front end whose logic sits in one connectivity layer and a handful of screens.

**The connectivity layer** (`ApiClient` in lib/api.ts) does the following:
- It keeps a bearer token mirrored in browser storage.
- It turns every `fetch` into a uniform success/error answer.
- In a development build, it latches into a degraded ("offline") mode after the first request that throws. While degraded, it answers with canned data, logs in against three built-in demo accounts, and simulates the administrator's changes.
- Registration is always handled locally, against a list kept in storage.

**The live-update socket** (`WebSocketClient`) reconnects after a close with a linear back-off of at most five attempts.

**The screens** validate forms before they call the client, and they keep lists in React state:
- the main page (app/page.tsx);
- the ticket screen;
- the dashboard;
- the subscription screen.

The model has one module per concern:

| module | file | what it holds |
|---|---|---|
| `Text` | text.dfy | the JavaScript string primitives the checks use: white space as `\s` and `trim()` see it, `toLowerCase`, `String(n)` of a whole number, `<` on strings |
| `Parking` | parking.dfy | the records of the service (zones, gates, categories, subscriptions, login data, forms) and the gate lookup and zone filter the screens share |
| `Http` | http.dfy | the request path as pure decisions: headers, classification of a fetch outcome, the latch, the fallback choice and the list replacement the screens apply to answers |
| `Accounts` | accounts.dfy | user-name normalisation, the demo accounts and degraded-mode login, and the registration checks |
| `Api` | api.dfy | `class ApiClient`, with the token, the latch and browser storage as fields |
| `Realtime` | realtime.dfy | the reconnection back-off as pure steps, and `class WebSocketClient` whose event handlers are methods |
| `Page` | page.dfy | the main page's validators, zone filter and toggle update, and `class ParkingPage` with its handlers |
| `Tickets` | tickets.dfy | `availableZones` and `class TicketPanel` with the gate selector and the check-in/check-out handlers |
| `Dashboard` | dashboard.dfy | the dashboard totals |
| `Subscriptions` | subscriptions.dfy | the status badge and `class SubscriptionPanel` |

**How the model treats the outside world:**
- Everything the client cannot see is a parameter:
  - a network exchange is an input `FetchOutcome`: `NetworkFailure`, `DecodeFailure`, or a decoded `Response(ok, body, message, errors)`;
  - the outgoing request is an output `HttpRequest`.
- Browser storage is a `map` field of the client.
- `Date.now()` and `toISOString()` are parameters.
- A scheduled reconnect is a returned delay.
- Toasts are returned as messages.

**The build and the environment are constants of each client:**
- `developmentMode` stands for `DEVELOPMENT_MODE`.
- `inBrowser` stands for `typeof window !== "undefined"`.

## Model

| member | source | states |
|---|---|---|
| Text.TrimStart | app/page.tsx:39 | `trimStart()` removes exactly the leading white space: the result is a suffix, starts with a non-space, and everything dropped is white space |
| Text.TrimEnd | app/page.tsx:39 | `trimEnd()` removes exactly the trailing white space |
| Text.TrimmedEndsVisible | app/page.tsx:39 | a trimmed string that is not empty starts and ends with a non-space character |
| Text.TrimmedIsSlice | app/page.tsx:39 | a trimmed string is the slice of the input that starts after its leading white space |
| Text.TrimmedSpaces | app/page.tsx:39 | only white space lies before and after that slice |
| Text.IsBlank | app/page.tsx:39 | `!s.trim()` holds exactly when every character of `s` is white space |
| Text.LowerChar | lib/api.ts:113 | an ASCII capital becomes the same letter in lower case; every other character is kept; no capital results and white space is neither created nor removed |
| Text.ToLower | lib/api.ts:113 | `toLowerCase()` keeps the length and lowers character by character |
| Text.RemoveSpaces | lib/api.ts:113 | `replace(/\s+/g, "")` leaves no white space, never lengthens and keeps only characters of the input |
| Text.RemoveSpacesConcat | lib/api.ts:113 | stripping white space distributes over concatenation |
| Text.ToLowerConcat | lib/api.ts:113 | lowering distributes over concatenation |
| Text.RemoveSpacesNoSpace | lib/api.ts:113 | a string without white space is left unchanged |
| Text.LowerRemoveCommute | lib/api.ts:113 | lowering and stripping white space commute |
| Text.Decimal | lib/api.ts:194 | `String(n)` of a whole number is a non-empty string of decimal digits |
| Text.DecimalRoundTrip | lib/api.ts:194 | the digits written for `n` denote `n`, so a timestamped id determines its timestamp |
| Text.Less | app/page.tsx:231 | `a < b` holds exactly when `a` is a proper prefix of `b`, or when at the first position where they differ `a` has the smaller character |
| Text.FirstCharacterDiffers | app/page.tsx:231 | when the first characters differ, `a` is no proper prefix of `b` and comes first exactly when its first character is smaller |
| Text.FirstCharacterAgreesPrefix | app/page.tsx:231 | when the first characters agree, being a proper prefix is decided by the tails |
| Text.FirstCharacterAgreesSmaller | app/page.tsx:231 | when the first characters agree, a smaller character at the first difference is decided by the tails |
| Text.LessTrichotomy | app/page.tsx:231 | `<` on strings is irreflexive and asymmetric, and of two different strings one is smaller |
| Text.LessTransitive | app/page.tsx:284 | `<` on strings is transitive |
| Parking.FindGate | app/page.tsx:407 | `gates.find`: none exactly when no gate has the id, otherwise the first gate with it |
| Parking.ZonesIn | app/page.tsx:408 | `zones.filter(... zoneIds.includes(zone.id))`: exactly the zones whose id is listed, never more than the input |
| Parking.ZonesInAppend | app/page.tsx:408 | the filter works zone by zone, so it keeps the relative order of zones |
| Parking.ZonesInKeepsAll | app/page.tsx:408 | when every zone is listed nothing is dropped |
| Parking.ZonesInIdempotent | app/page.tsx:408 | filtering twice is filtering once |
| Http.ApiBase | lib/api.ts:2 | the configured base when set; the local default exactly when unset; never empty |
| Http.AuthHeaders | lib/api.ts:39-46 | JSON content type always; `Authorization: Bearer <token>` exactly when the token is present and non-empty; no other header |
| Http.BearerRoundTrip | lib/api.ts:44-46 | the credential read back from the headers is exactly the token held, and none for a missing or empty token |
| Http.LatchAfter | lib/api.ts:68-72 | the latch is never lowered, is raised only by a thrown request in a development build, and always is by one |
| Http.LatchHistory | lib/api.ts:14 | over any series of requests the latch ends up exactly when it started up or some request threw in a development build |
| Http.ServerMessage | lib/api.ts:59 | the server's message when non-empty; "An error occurred" when it is missing or empty; never empty |
| Http.Classify | lib/api.ts:48-78 | success exactly for an ok response, carrying its body; a failed response gives its message (or the generic one) and its field errors; a thrown request gives the offline or the network message by the latch |
| Http.RequestErrorMessages | lib/api.ts:68-77 | every error carries a message; a thrown request reports the offline message exactly when the latch was up or the build is a development build |
| Http.WithFallback | lib/api.ts:86-95 | the fallback replaces the answer exactly when the answer is an error, the latch is up and a fallback exists; otherwise the answer passes through |
| Http.FallbackAlwaysAnswers | lib/api.ts:81-96 | once degraded, a call with a fallback always succeeds, with the fallback unless the server itself answered with success |
| Http.Replaced | components/subscriptions/SubscriptionManagement.tsx:44-46 | a held list is replaced only by a successful answer that carries a list |
| Accounts.Normalize | lib/api.ts:113 | a normalised name has no white space and no capital and is no longer than the input |
| Accounts.NormalizeIdempotent | lib/api.ts:113 | normalising twice is normalising once |
| Accounts.NormalizeConcat | lib/api.ts:113 | normalisation works character by character |
| Accounts.NormalizeIgnoresSpace | lib/api.ts:113 | a space inside a name makes no difference to its normal form |
| Accounts.NormalizeIgnoresCase | lib/api.ts:113 | letter case makes no difference: two names of equal length that agree once each character is lowered have the same normal form |
| Accounts.FindDemoUser | lib/api.ts:116-118 | the account found matches the normalised name and the exact password, and no earlier account does; none is found exactly when no account matches both |
| Accounts.OfflineLogin | lib/api.ts:106-137 | success exactly when a demo account matches, with its id, name and role and the token "demo-token-" + id; otherwise "Invalid username or password" |
| Accounts.LoginResult | lib/api.ts:101-141 | the demo accounts decide exactly when the request failed and the latch is up; otherwise the remote answer passes through |
| Accounts.LoginErrorsExplained | app/page.tsx:63-68 | a failed login always carries a non-empty message |
| Accounts.LowerCaseName | lib/api.ts:113 | a lower-case name without white space is its own normal form |
| Accounts.NormalizedRedaSalem | lib/api.ts:110-113 | "RedaSalem" normalises to "redasalem" |
| Accounts.AdminIsOnlyDemoAdmin | lib/api.ts:107-111 | only the first demo account has the normalised name "admin" |
| Accounts.AdminDemoLogin | lib/api.ts:106-129 | any spelling of "admin" logs in with password "admin" and no other, as `admin-1` with token "demo-token-admin-1" |
| Accounts.Usernames | lib/api.ts:175 | the names of the stored accounts, in order |
| Accounts.ClashSplit | lib/api.ts:175-182 | a name clashes with the demo names followed by the stored names exactly when it clashes with a demo name or with a stored account |
| Accounts.UsernameTaken | lib/api.ts:169-182 | a name is taken exactly when its normal form equals that of a demo name or of a stored account's name |
| Accounts.RegistrationError | lib/api.ts:150-191 | the checks in source order: short name, then short password, then a name whose normal form matches a demo or stored name; none exactly when all pass |
| Accounts.RegisterTwiceRejected | lib/api.ts:172-203 | once registered, the same name in any case and spacing is rejected as taken |
| Accounts.DemoNamesReserved | lib/api.ts:169-191 | a demo name in any case and spacing is always taken |
| Accounts.RegisteredCannotLogInOffline | lib/api.ts:106-118 | degraded login never consults registrations: a newly registrable name fails with any password |
| Api.StoredToken | lib/api.ts:16-20 | a token is read exactly in a browser whose storage has the slot |
| Api.StorageSlotsIndependent | lib/api.ts:172-203 | the account list written to its slot is what the next registration reads; an empty slot reads as no accounts; writing either slot leaves what the other gives |
| Api.NewAccount | lib/api.ts:193-198 | the new account has the given name, role and time, and an id "user_" followed by digits that denote the timestamp |
| Api.ToggleEcho | lib/api.ts:372-374 | the simulated toggle echoes exactly `zoneId` and `open`, with `open` true exactly for an open action |
| Api.WithTimestampId | lib/api.ts:382-395 | the echo has the given fields, which win over the id, plus an id: the prefix followed by digits that denote the timestamp |
| Api.ZonesQuery | lib/api.ts:232 | no query exactly when no gate is given; otherwise `?gateId=` followed by the gate id |
| Api.TokenSlotRoundTrip | lib/api.ts:16-34 | a token written to the slot is the one the next client starts with; a removed slot gives none |
| Api.CategoryEcho | lib/api.ts:361-364 | the simulated category update echoes every given field, with `id` overwritten by the id |
| Api.MutatorResult | lib/api.ts:361-402 | a simulated mutator answers with its echo exactly when the latch was up, else with the classified real request |
| Api.SimulatedEchoes | lib/api.ts:382-402 | a simulated rush hour carries exactly its id, week day, start and end; a simulated vacation exactly its id, name, start and end |
| Api.SimulatedEchoIds | lib/api.ts:382-402 | a rush hour's id never equals a vacation's; two of the same kind made at different times have different ids |
| Api.ApiClient.constructor | lib/api.ts:16-20 | a new client starts online, holding the token from storage in a browser and none elsewhere |
| Api.ApiClient.SetToken | lib/api.ts:22-27 | the token becomes `t` and, in a browser, the slot holds `t`; nothing else changes |
| Api.ApiClient.ClearToken | lib/api.ts:29-34 | the token is gone and, in a browser, the slot is removed |
| Api.ApiClient.Request | lib/api.ts:36-79 | sends to base + endpoint with the token's headers; the latch moves as `LatchAfter` says; the answer is `Classify` with the new latch, so the call never throws |
| Api.ApiClient.RequestWithFallback | lib/api.ts:81-96 | the same request, with the fallback choice applied after the latch has moved |
| Api.ApiClient.Login | lib/api.ts:98-142 | posts the credentials to /auth/login; the answer is `LoginResult` of the classified response |
| Api.ApiClient.Register | lib/api.ts:144-221 | on a failed check: that error, with storage unchanged; on success: the new account (id "user_" + timestamp) and message, no token, and in a browser the stored list becomes the old list plus exactly that account |
| Api.ApiClient.GetGates | lib/api.ts:223-229 | GET /master/gates with the canned gates as fallback |
| Api.ApiClient.GetZones | lib/api.ts:231-281 | GET /master/zones, with `?gateId=` only for a non-empty gate, and the canned zones as fallback |
| Api.ApiClient.GetCategories | lib/api.ts:283-290 | GET /master/categories with the canned categories as fallback |
| Api.ApiClient.GetParkingState | lib/api.ts:319-359 | GET /admin/reports/parking-state with the canned report as fallback |
| Api.ApiClient.GetSubscriptions | lib/api.ts:404-426 | GET /admin/subscriptions with the canned subscriptions as fallback |
| Api.ApiClient.GetSubscription | lib/api.ts:292-294 | GET /subscriptions/id, classified, with no fallback |
| Api.ApiClient.Checkin | lib/api.ts:296-306 | POST /tickets/checkin with the form as body, classified, with no fallback |
| Api.ApiClient.Checkout | lib/api.ts:308-313 | POST /tickets/checkout with the form as body, classified, with no fallback |
| Api.ApiClient.GetTicket | lib/api.ts:315-317 | GET /tickets/id, classified, with no fallback |
| Api.ApiClient.UpdateCategory | lib/api.ts:361-369 | while degraded: no request, and the data echoed with its id; otherwise a PUT of the data |
| Api.ApiClient.ToggleZone | lib/api.ts:371-380 | while degraded: no request, and `{zoneId, open}` echoed; otherwise a PUT of `{open}` to /admin/zones/id/open |
| Api.ApiClient.AddRushHour | lib/api.ts:382-391 | while degraded: no request, and the data echoed with id "rush_" + timestamp; otherwise a POST of the data |
| Api.ApiClient.AddVacation | lib/api.ts:393-402 | while degraded: no request, and the data echoed with id "vac_" + timestamp; otherwise a POST of the data |
| Realtime.AfterError | lib/api.ts:464-470 | an error or a throwing constructor sets the offline flag and keeps the attempt count |
| Realtime.AfterClose | lib/api.ts:458-483 | a reconnect is scheduled exactly when online and below five attempts, one attempt later and after 1000 ms times the new count; otherwise the client is offline with the count kept |
| Realtime.BackoffBounded | lib/api.ts:474-483 | under any events the attempt count stays within 0..5 and every delay is a multiple of 1000 between 1000 and 5000 |
| Realtime.CloseRun | lib/api.ts:474-483 | closes in a row schedule 1000·(k+1), 1000·(k+2), … up to 5000, then the client goes offline |
| Realtime.ClosesWhileOffline | lib/api.ts:458-462 | while offline, closes change nothing and schedule nothing |
| Realtime.SilentAfterError | lib/api.ts:464-467 | after an error nothing is scheduled until the next open |
| Realtime.ReconnectsBetweenOpens | lib/api.ts:444-483 | between two opens at most five reconnects are scheduled, and the count equals the attempts spent |
| Realtime.Envelope | lib/api.ts:485-505 | an envelope has exactly a type and a payload, and reads back as the command it was built from |
| Realtime.WebSocketClient.constructor | lib/api.ts:431-438 | no socket, no attempts, online, and the given URL or the default one |
| Realtime.WebSocketClient.Connect | lib/api.ts:440-472 | a new connecting socket with the callbacks; when the constructor throws, the old socket is kept, the client is offline and `onError` is called if given |
| Realtime.WebSocketClient.FireReconnect | lib/api.ts:477-479 | a fired reconnect connects again with the same callbacks |
| Realtime.WebSocketClient.OnOpen | lib/api.ts:444-447 | the socket is open and the back-off starts over, online |
| Realtime.WebSocketClient.OnClose | lib/api.ts:458-462 | the socket is closed and the bookkeeping and scheduled delay are those of `AfterClose` |
| Realtime.WebSocketClient.OnError | lib/api.ts:464-467 | offline, and `onError` is called exactly when given |
| Realtime.WebSocketClient.OnMessage | lib/api.ts:449-456 | a decoded frame reaches `onMessage` when there is one; an undecodable frame reaches nobody; no state changes |
| Realtime.WebSocketClient.Subscribe | lib/api.ts:485-494 | an envelope is sent exactly while the socket is open, and it reads back as a subscription to that gate |
| Realtime.WebSocketClient.Unsubscribe | lib/api.ts:496-505 | an envelope is sent exactly while the socket is open, and it reads back as an unsubscription from that gate |
| Realtime.WebSocketClient.Disconnect | lib/api.ts:507-512 | the socket is dropped and the back-off is left as it was |
| Realtime.DisconnectThenClose | lib/api.ts:507-512 | a deliberate disconnect while online still schedules a reconnect when its close event arrives, unless five attempts were spent |
| Page.LoginValidation | app/page.tsx:39-46 | a login gets through exactly when both fields have a non-space character |
| Page.RegisterValidation | app/page.tsx:88-122 | in order: a blank field, then a name shorter than 3, then a password shorter than 6, then a mismatch; accepted exactly when none applies |
| Page.PageChecksCoverLengths | app/page.tsx:97-128 | what the page accepts, `register` can reject only as taken |
| Page.RushHourValidation | app/page.tsx:212-238 | in order: an empty field, then a week day outside 0..6, then a start not before the end (string order); accepted exactly when none applies |
| Page.VacationValidation | app/page.tsx:275-291 | in order: a blank name or an empty date, then a start not before the end; accepted exactly when none applies |
| Page.AcceptedIntervalsAreProper | app/page.tsx:231-238 | an accepted rush hour or vacation has a start different from its end, and the end does not come first |
| Page.ToggleAction | app/page.tsx:188 | the action is "close" exactly when the zone is open |
| Page.ApplyToggle | app/page.tsx:192 | same length; each zone with the id has `open` set to `!isOpen`, every other zone and every other field is unchanged |
| Page.ToggleRoundTrip | app/page.tsx:185-192 | toggling and toggling back restores the list, and the list takes the state a simulated toggle echoes |
| Page.FilteredZones | app/page.tsx:405-409 | all zones with no gate selected or an unknown gate; otherwise the first gate with that id's `ZonesIn` list: exactly the zones it serves, in the zone list's order |
| Page.FilteredZonesIdempotent | app/page.tsx:405-409 | filtering the filtered zones changes nothing |
| Page.ParkingPage.constructor | app/page.tsx:26-35 | no user, no zones, no gates, no selected gate, empty forms |
| Page.InitialLoad | app/page.tsx:155-172 | the latch after both requests is the latch moved by the gates outcome, then the zones outcome; once degraded before the load, both answers succeed; degraded after it, the zones answer succeeds |
| Page.SelectedAfter | app/page.tsx:160-165 | the selected gate changes only for a successful answer with at least one gate, and then becomes the first gate's id |
| Page.ParkingPage.LoadInitialData | app/page.tsx:155-172 | gates, then zones; each list is replaced only by a successful answer with data (the fallback once degraded); the first gate becomes the selected one; the latch ends as `InitialLoad` says |
| Page.ParkingPage.ShowGates | app/page.tsx:159-164 | a successful gates answer with data replaces the gate list and, when it lists a gate, selects the first; any other answer changes neither |
| Page.ParkingPage.ShowZones | app/page.tsx:166-168 | a successful zones answer with data replaces the zone list; any other answer leaves it |
| Page.ParkingPage.SignIn | app/page.tsx:55-62 | the token is kept in the client and its slot, the user is set, and the gates, zones, selected gate and latch are those the initial load gives |
| Page.ParkingPage.HandleLogin | app/page.tsx:38-80 | blank input changes nothing and never reaches `login`; otherwise the screen settles as `LoginSettled` says; the forms are never touched |
| Page.ParkingPage.SubmitLogin | app/page.tsx:51-69 | success sets user and token and loads the initial data after the login's own latch; failure reports the login error and leaves user, token, storage, gates, zones and selected gate as they were |
| Page.ParkingPage.Settle | app/page.tsx:55-69 | a successful answer signs in with its data; an error is reported with its own message and changes nothing |
| Page.ParkingPage.HandleRegister | app/page.tsx:82-153 | a failed page check changes nothing; otherwise the name is reported taken with storage unchanged, or, in a browser, storage becomes the old storage with the account list extended by exactly the new account (the token slot untouched) |
| Page.ParkingPage.SelectGate | app/page.tsx:574 | picking a listed gate selects it, and the zones shown are exactly those the gate serves |
| Page.ParkingPage.HandleLogout | app/page.tsx:174-183 | no user, zones or gates; the token and its slot become "", so later requests carry no Authorization header |
| Page.ParkingPage.HandleToggleZone | app/page.tsx:185-207 | the zones flip as `ApplyToggle` says exactly when the toggle answer is a success; otherwise unchanged |
| Page.ParkingPage.HandleAddRushHour | app/page.tsx:209-270 | a failed check changes nothing; success clears the form; a failed answer keeps the form and reports the message |
| Page.ParkingPage.HandleAddVacation | app/page.tsx:272-323 | a failed check changes nothing; success clears the form; a failed answer keeps the form and reports the message |
| Tickets.AvailableZones | components/tickets/TicketManagement.tsx:101-103 | all zones with no gate; none for an unknown gate; for a known gate exactly the zones it serves, in order |
| Tickets.TicketZonesVersusPageZones | components/tickets/TicketManagement.tsx:101-103 | the ticket screen and the main page agree except for an unknown gate, where the page shows every zone and the ticket screen none |
| Tickets.TicketPanel.constructor | components/tickets/TicketManagement.tsx:23-33 | no operation; empty check-in form with type visitor; empty check-out form |
| Tickets.TicketPanel.SelectGate | components/tickets/TicketManagement.tsx:122 | the gate is set and the zone cleared; the type and subscription are kept |
| Tickets.TicketPanel.HandleCheckin | components/tickets/TicketManagement.tsx:37-67 | the form is sent as it stands; success resets it and closes the operation; failure reports the message and keeps both |
| Tickets.TicketPanel.HandleCheckout | components/tickets/TicketManagement.tsx:69-99 | the form is sent as it stands; success resets it and closes the operation; failure reports the message and keeps both |
| Dashboard.Total | components/dashboard/DashboardStats.tsx:12-14 | zero for no zones and the zone's own figure for one zone; with no negative figure, at least every zone's figure; with no positive figure, at most zero |
| Dashboard.OpenZones | components/dashboard/DashboardStats.tsx:15 | never more than the number of zones; equal to it exactly when all are open, zero exactly when none is |
| Dashboard.EmptyDashboard | components/dashboard/DashboardStats.tsx:12-15 | with no zones every figure is zero |
| Dashboard.TotalIsSum | components/dashboard/DashboardStats.tsx:12-14 | each dashboard total equals the sum of that figure over all zones, added from the first zone on |
| Dashboard.TotalAppend | components/dashboard/DashboardStats.tsx:12-14 | each total distributes over concatenation of zone lists |
| Dashboard.OpenZonesAppend | components/dashboard/DashboardStats.tsx:15 | the open count distributes over concatenation |
| Dashboard.TotalsBalance | components/dashboard/DashboardStats.tsx:12-14 | when each zone's occupied and free slots make up its total, so do the dashboard's totals |
| Subscriptions.StatusColor | components/subscriptions/SubscriptionManagement.tsx:58-62 | gray exactly when inactive, green exactly when active with a check-in, blue exactly when active without one |
| Subscriptions.StatusText | components/subscriptions/SubscriptionManagement.tsx:64-68 | "Inactive" exactly when inactive, "Checked In" exactly when active with a check-in, "Active" exactly when active without one |
| Subscriptions.BadgeAgrees | components/subscriptions/SubscriptionManagement.tsx:58-68 | colour and text always pick the same case |
| Subscriptions.SubscriptionPanel.constructor | components/subscriptions/SubscriptionManagement.tsx:32 | the list starts empty |
| Subscriptions.SubscriptionPanel.LoadSubscriptions | components/subscriptions/SubscriptionManagement.tsx:40-56 | the list is replaced only by a successful answer with data; once degraded, a failed request yields the canned list |

## Left out

**Real I/O.** `fetch` and `response.json`, the `WebSocket` constructor and its `send`/`close`, and `localStorage` are not modelled. Network answers and inbound frames are inputs; storage is a map field; sends are returned values.
- Request bodies are kept as JSON values; `JSON.stringify` and JSON parsing are not modelled.
- A failed response whose body is `null` makes `data.message` throw. It takes the thrown path, and the model counts it under `DecodeFailure`. Any other body that is not an object (a number, a string, an array) has no `message`, so its answer is "An error occurred"; the model gets this by passing `message` as `None`.
- Headers passed through `options.headers` are not modelled, because no caller passes any.

**Timing and concurrency.**
- `setTimeout` and the event loop are not modelled. A scheduled reconnect is a returned delay, and `FireReconnect` is the timer firing.
- `loadInitialData` runs its two requests through `Promise.all`. The model runs them one after the other (gates, then zones), so the latch the zones request sees already includes the gates outcome. One interleaving of the source is lost. There, the zones request can throw and raise the latch before the gates answer arrives. The fallback check on the gates answer (lib/api.ts:87-89) then sees the raised latch, and a non-ok gates answer becomes the canned gates. In the model, a non-ok gates answer always meets the latch as it was before the load.
- `Page.ParkingPage.Settle`: the login answer's body is always a `LoginData` value, never null. The source's `&& response.data` test (app/page.tsx:55) therefore always holds on success. The "Invalid credentials" fallback (app/page.tsx:66) is kept but is never taken, because every failed login carries a non-empty message (`Accounts.LoginErrorsExplained`).
- `Realtime.WebSocketClient.OnOpen` and `Realtime.WebSocketClient.OnClose`: `ws` tracks the readyState of the current socket only. A late event of a socket replaced by a reconnect updates the shared counters, as in the source, but the model attributes the readiness change to the current socket.

**String semantics.**
- `Text.LowerChar`: lowering covers the ASCII capitals only. Full Unicode `toLowerCase` (accented and non-Latin capitals, expansions such as "İ") is not modelled.
- String lengths count Dafny characters, not UTF-16 code units. String `<` compares characters, not UTF-16 code units; the two agree outside the astral planes.

**Values taken as given.**
- `Page.ParkingPage.HandleAddRushHour`: the week day is an integer input. `Number.parseInt` and its `NaN` result (which passes both range checks) are not modelled.
- `Date.now()` and `new Date().toISOString()` are parameters.
- The canned fallback lists are constants copied from the source. The guest demo data of app/page.tsx:325-395 is not modelled.
- JSON numbers are whole numbers.

**Storage and structure.**
- `Api.ApiClient.constructor` requires the storage slots to hold what the client writes there. A `registered_users` slot with corrupt JSON, which makes `register` throw, is not modelled.
- `Api.ApiClient.Register`: the branch that would call the server is unreachable (`this.isOfflineMode || true`), so it is left out.
- `Realtime.WebSocketClient.Connect`: the callbacks are reduced to whether each was given. What they do is outside the client.

**Screens and rendering.**
- Page state that no handler in the model changes is left out: `activeTab`, `rateForm`, and the page's own `ws`, which is never set to a socket. For the same reason, the socket branch of `handleLogout` never runs.
- `handleGuestAccess` sets fixed demo data and is not modelled.
- The `catch` branches of the page handlers are reachable in the source. `localStorage.getItem` and `setItem` can throw (storage disabled, quota exceeded), and a corrupt `registered_users` slot makes `JSON.parse` in `register` throw. The model's storage never fails and its slots are well formed, so its client methods never throw and those branches have no counterpart.
- Toasts, `console` output and the `isLoading`/`loading`/`operationLoading` flags are side channels, and are left out.
- `getZoneStatusColor`, and the floating-point display logic of the zone cards, are not modelled.
- The rendering-only components are not part of this model.
