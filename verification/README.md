# Stock checker model

A Dafny model of the monitoring engine of a single-product stock checker
for one graphics card. The `App` class in `src/app.ts` polls the shop's inventory API
every 60 seconds and normalises the raw inventory code ("Out of stock",
"In stock", or the code unchanged). It holds the last status and alerts the
user when the status changes: a desktop notification if permission was
granted, and a chime if the sound box is ticked. A one-second tick drives a
countdown badge that reads `SCANNING` when it reaches zero.

Layout, one module per component of the class:

- `wrappers.dfy`: `Option`, standing for JavaScript's `undefined` beside a value.
- `status.dfy`, module `Status`: `convertStatus`.
- `display.dfy`, module `Display`: the countdown badge text. It holds the decimal
  rendering of the remaining seconds and a reader that proves the text denotes that number.
- `detector.dfy`, module `Detector`: the decision `updateStatus` makes, as pure
  functions. `Changes` is an independent reference definition: one (old, new)
  pair per change between consecutive statuses.
- `alerts.dfy`, module `Alerts`: the two alert channels of `notify`.
- `inventory.dfy`, module `Inventory`: how a poll's response settles `fetch`.
- `app.dfy`, module `Checker`: class `App`. Its fields are the timer, the held
  status, the permission flag and the two badges. Its methods are the events
  (constructor, permission answer, tick, poll, test button). Ghost fields log
  the statuses observed, the notify calls they caused and the alerts emitted.
  `Valid()` ties the held status, the status badge and the logged notify calls
  to the observed statuses.

Facts about the code that the model keeps:

- The poll interval is the constant 60 seconds (src/app.ts:8).
- The API and shop URLs are constants (src/app.ts:6-7).
- The status badge is rewritten on every observed status, not only on a change.
- The held-status test is JavaScript truthiness, so a held `""` counts as no
  baseline.
- The permission answer arrives whenever the user gives it, possibly long
  after startup. Until then `canNotify` is undefined, so `notify` drops the
  notification half of every alert and only the chime can sound.
- Timers start once the first `fetch` promise resolves. That includes a
  200 response with an empty status. If the first `fetch` rejects (non-200
  response, say), the timers never start.

## Model

| member | source | states |
|---|---|---|
| `Status.ConvertStatus` | src/app.ts:81-90 | the out-of-stock code maps to `Out of stock`, the in-stock code to `In stock`, every other input is returned unchanged; the result is empty exactly when the input is |
| `Status.ConvertStatusIdempotent` | src/app.ts:81-90 | converting an already converted status changes nothing |
| `Display.RemainingText` | src/app.ts:57-64 | the badge reads `SCANNING` iff interval minus timer is 0; otherwise it is the canonical decimal text (no leading zeros, no `-0`) that reads back as exactly that integer, negative values included |
| `Display.IntTextRoundTrip` | src/app.ts:62 | the decimal text of any integer, minus sign included, parses back to that integer |
| `Detector.Transition` | src/app.ts:66-79 | `updateStatus(s)` calls notify iff a truthy status is held and it differs from `s`, and then with (held, `s`) in that order |
| `Detector.Feed` | src/app.ts:66-79 | a run of updates makes no more notify calls than it has statuses, and strictly fewer when no baseline is held |
| `Detector.FeedIsChanges` | src/app.ts:69-77 | fed truthy statuses from no baseline, the notify calls are exactly the pairs of consecutive differing statuses, in order (reference `Changes`) |
| `Detector.FeedFromBaseline` | src/app.ts:73-77 | from a truthy baseline h, the notify calls are the changes of h followed by the statuses |
| `Detector.FeedStep` | src/app.ts:66-79 | one more truthy status extends a truthy run's notify calls by exactly the call `updateStatus` makes for it from the status held after the run |
| `Detector.FeedAppend` | src/app.ts:77 | the held status carries over: feeding two stretches equals feeding them one after the other |
| `Detector.RepeatIsSilent` | src/app.ts:73-77 | feeding the same status twice in a row notifies nothing the second time |
| `Detector.FlipBackNotifiesTwice` | src/app.ts:73-77 | a change and an immediate change back notify twice, (a, b) then (b, a) |
| `Alerts.NotificationBodyParts` | src/app.ts:115 | the body is `Stock went from `, old, ` to `, new and `.`, each at its fixed offset |
| `Alerts.NotifyAlerts` | src/app.ts:113-122 | a notification titled `NVIDIA 3080FE Stock alert` with that body, opening the shop page on click, is emitted iff `canNotify`; a chime iff the sound box is checked; nothing else, notification first |
| `Inventory.FirstStatus` | src/app.ts:93-111 | a poll resolves iff the response is JSON with code 200, a non-empty product list and an `inventoryStatus` on its first product, and then carries that product's status |
| `Inventory.Observation` | src/app.ts:99-101 | a poll reaches updateStatus iff it resolves with a non-empty status, and then hands over its converted, non-empty status |
| `Inventory.ObservationsAreTruthy` | src/app.ts:99-100 | every status a run of polls hands to updateStatus is non-empty |
| `Checker.StatusAlerts` | src/app.ts:66-79 | an update emits alerts only when a truthy held status differs from the new one, and then exactly notify's alerts for (held, new) |
| `Checker.PollsNotifyOnChanges` | src/app.ts:92-101 | over any run of polls, failed ones included, notify is called exactly once per change between consecutive observed statuses |
| `Checker.App.TransitionsAreChanges` | src/app.ts:66-79 | in every reachable state the notify calls made so far are exactly the changes between consecutive observed statuses |
| `Checker.App.constructor` | src/app.ts:18-27 | the prompt is opened iff notifications are supported; after the first poll the baseline is set silently (no alert); timers start iff that poll resolved, and the badge then shows the full interval; `canNotify` holds iff an answer `granted` has arrived |
| `Checker.App.FirstPoll` | src/app.ts:21-24 | the first poll alerts nothing and records its status as the baseline; timers start and the badge shows the full interval iff it resolved |
| `Checker.App.InitNotifications` | src/app.ts:29-31 | the permission prompt is opened iff notifications are supported; nothing else changes, so no answer is held yet |
| `Checker.App.ReceiveConsent` | src/app.ts:31-37 | when the answer arrives, `canNotify` becomes true iff it is `granted`, false otherwise |
| `Checker.App.TestNotifications` | src/app.ts:41-44 | the test button emits notify's alerts for (`TEST`, `TEST`) |
| `Checker.App.StartTimers` | src/app.ts:46-49 | the tick and poll intervals are scheduled |
| `Checker.App.Tick` | src/app.ts:51-55 | once the timers run, each tick grows the timer by exactly 1 and refreshes the countdown badge; nothing else changes |
| `Checker.App.UpdateRemaining` | src/app.ts:57-64 | the countdown badge shows the text for interval minus timer |
| `Checker.App.UpdateStatus` | src/app.ts:66-79 | for a non-empty `s` (its one caller, src/app.ts:99-100, passes nothing else) the badge shows `s` and the held status becomes `s`; the notify call and its alerts are those of `Transition` on the old held status |
| `Checker.App.Fetch` | src/app.ts:92-102 | the timer is reset to 0; the poll completes iff it resolves; only a resolved non-empty status reaches updateStatus, otherwise the held status and alerts are untouched |
| `Checker.App.Notify` | src/app.ts:113-122 | appends exactly notify's alerts to the alert log |
| `Checker.App.Chime` | src/app.ts:129-133 | appends one chime to the alert log |

## Left out

- DOM access: the element lookups and `innerHTML` writes are fields (`statusText`, `remainingText`) holding the text shown.
- HTTP and JSON: the response is an input. A network failure of the request rejects `fetch` in the same way as a body that is not JSON, so both appear as a response with no JSON.
- The JSON body is reduced to the path `products.product[0].inventoryStatus.status`. A missing `products` object is treated like a missing product list, since both reject.
- Timers and races: `window.setInterval` is reduced to a flag. Ticks and polls are separate events applied one after another, so overlapping polls (last-completed-wins) are not modelled.
- The permission request is asynchronous. An answer given during startup is applied after the first poll, which cannot notify anyway because it only sets the baseline. A later answer is the event `ReceiveConsent`, applied between polls; its interleaving inside a single poll is not modelled.
- Browser alert APIs are recorded as abstract alert events. This covers the notification, the chime's restart at full volume, and the click opening the shop page in a new tab. The vibration pattern added by the notification wrapper is not recorded.
- `isPushNotificationSupported` is an input of the constructor.
- The `autobind` decorator only binds `this` and has no behaviour to model.
- The test button's click listener registration is not modelled; `TestNotifications` is the handler it runs.
