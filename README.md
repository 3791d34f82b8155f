# Poll: a verified model of GitLab's polling scheduler

This project models `Poll`, the client-side utility that keeps a page in sync
with the server (`app/assets/javascripts/lib/utils/poll.js`). A `Poll` calls a
caller-supplied fetch. It reads the `Poll-Interval` header of each response and
arms one `setTimeout` for the next fetch when the interval is positive, the
status is 200 and polling is allowed. It can also subscribe to a socket.io
channel whose `update:1` events go to the same success callback. `stop()` and
`restart()` switch it off and on.

The asynchrony is made explicit. `makeRequest` is split at its pending fetch
into `MakeRequest` (the synchronous part), `OnResolve` (the `.then`
continuation) and `OnReject` (the `.catch` continuation). A pending
`setTimeout` is an entry in a map from timer handle to delay, and the host
running it is `OnTimeout`. The socket is a count of registered `update:1`
handlers plus the events emitted. Every callback call and socket emit is
recorded in a ghost trace.

Files:

- `wrappers.dfy`: `Option`.
- `http.dfy` (module `Http`): the response, header normalisation, JavaScript's
  `parseInt(value, 10)`, and the arm-or-not decision of `checkConditions` as
  the function `ArmDelay`.
- `poll_spec.dfy` (module `PollSpec`): the scheduler and its surroundings as a
  value `State`. There is one function per synchronous step: `Init`,
  `Dispatched`, `CheckedConditions`, `Resolved`, `Rejected`, `Fired`,
  `Started`, `Stopped`, `Restarted` and `Updated`. `Run` applies any
  interleaving of `Step`s.
- `poll_properties.dfy` (module `PollProperties`): what those steps promise,
  proved over all runs.
- `poll.dfy` (module `PollClass`): the class `Poll`. Its methods update fields
  in place. Each method is proved to reach exactly the state the matching
  `PollSpec` function gives. Every method except `CheckConditions` keeps the
  invariant `WellFormed`. `CheckConditions` is a step inside `OnResolve` and
  leaves the fetch's events unfinished until `OnResolve` adds
  `notificationCallback(false)`.

Several things one might expect of a polling scheduler do not hold of this
code, and the model keeps them as written:

- On resolve, `successCallback` runs before `notificationCallback(false)`
  (poll.js:82-83), not after it.
- `start()` is not idempotent. Each call emits `subscribe:endpoint` and adds
  one more `update:1` handler (poll.js:91-94), so after two calls each update
  reaches `successCallback` twice.
- Event names are fixed: `subscribe:endpoint`, `unsubscribe:endpoint` and
  `update:1`. The endpoint only travels in the payload `{ ID: 1, Endpoint }`.
- The timer callback does not re-check `canPoll` (poll.js:67-69).
  `makeRequest` never checks it either.
- "At most one pending timer" holds only for a chain driven by its own timers
  (`TimerChainRun`). A caller's `makeRequest()` while a timer is pending
  overwrites `timeoutID` without clearing the old timer. `stop()` then leaves
  the old timer pending, and it still issues a fetch
  (`ManualRequestOrphansTimer`).

Assumptions about code that is not part of this model:

- `gl.utils.normalizeHeaders` is assumed to copy each header under its
  upper-cased name, with a later header overwriting an earlier one of the same
  upper-cased name.
- `httpStatusCodes.OK` is assumed to be 200.
- `socket.removeListener('update:1')`, called with the event name alone, is
  assumed to remove every handler of that event. That is what the event
  emitter used by socket.io-client does with one argument.

## Model

| member | source | states |
|---|---|---|
| `PollClass.Poll.constructor` | app/assets/javascripts/lib/utils/poll.js:49-60 | `data` defaults to `{}` and the notification callback to a no-op. `canPoll` is true, no timer is pending, there are no handlers, and the invariant holds. |
| `PollClass.Poll.CheckConditions` | app/assets/javascripts/lib/utils/poll.js:62-72 | The inline test on the normalised `POLL-INTERVAL` header arms exactly the timer `ArmDelay` decides, under a fresh handle, and `successCallback` is then called. |
| `PollClass.Poll.MakeRequest` | app/assets/javascripts/lib/utils/poll.js:74-80 | `notificationCallback(true)` comes first, then the fetch with the stored `data`. The returned fetch was not in flight before. The invariant is kept. |
| `PollClass.Poll.OnResolve` | app/assets/javascripts/lib/utils/poll.js:81-84 | Runs `checkConditions`, then `notificationCallback(false)`. `canPoll` is unchanged, the fetch is no longer in flight, and the invariant is kept. |
| `PollClass.Poll.OnReject` | app/assets/javascripts/lib/utils/poll.js:85-88 | Runs `notificationCallback(false)`, then `errorCallback`. `canPoll` and the timers are unchanged. |
| `PollClass.Poll.OnTimeout` | app/assets/javascripts/lib/utils/poll.js:67-69 | The fired timer is gone, and a new fetch is issued whatever `canPoll` is. |
| `PollClass.Poll.Start` | app/assets/javascripts/lib/utils/poll.js:91-94 | Emits `subscribe:endpoint` and adds one more `update:1` handler. |
| `PollClass.Poll.Stop` | app/assets/javascripts/lib/utils/poll.js:101-106 | `canPoll` becomes false, the timer `timeoutID` names is cleared, `unsubscribe:endpoint` is emitted and no handler is left. On a timer chain no timer remains pending. |
| `PollClass.Poll.Restart` | app/assets/javascripts/lib/utils/poll.js:111-114 | `canPoll` becomes true and `start()` runs. Timers and fetches are untouched. |
| `PollClass.Poll.OnUpdate` | app/assets/javascripts/lib/utils/poll.js:93 | Each registered `update:1` handler calls `successCallback` with the pushed message once. |
| `Http.HeaderValueIsLast` | app/assets/javascripts/lib/utils/poll.js:63-64 | A case-insensitive header lookup returns the value of the last header whose name upper-cases to the name looked up. |
| `Http.NormalizeHeaders` | app/assets/javascripts/lib/utils/poll.js:63 | The normalised headers hold exactly the upper-cased names of the response's headers. |
| `Http.HeaderValue` | app/assets/javascripts/lib/utils/poll.js:63-64 | `headers['POLL-INTERVAL']` finds nothing (`undefined`) if and only if no header name upper-cases to the name looked up. |
| `Http.ParseInt` | app/assets/javascripts/lib/utils/poll.js:64 | Leading white space is skipped, and a blank value parses to `NaN`. |
| `Http.ParseSigned` | app/assets/javascripts/lib/utils/poll.js:64 | Only a leading `-` gives a negative result. A value starting with a digit gives a number of at least 0. |
| `Http.ParseDigits` | app/assets/javascripts/lib/utils/poll.js:64 | There is a number exactly when the text starts with a decimal digit. |
| `Http.LastNamedValue` | app/assets/javascripts/lib/utils/poll.js:63-64 | Looking a name up returns the value of the last header whose name upper-cases to it. |
| `Http.PollInterval` | app/assets/javascripts/lib/utils/poll.js:63-64 | Over the raw headers: the interval is `parseInt` of the last header named `Poll-Interval` in any case. Without such a header it is `NaN`. |
| `Http.ArmDelay` | app/assets/javascripts/lib/utils/poll.js:64-66 | Over the raw headers: with `Poll-Interval` last carrying `v`, a timer is armed if and only if `parseInt(v)` is above 0, the status is 200 and `canPoll` holds. The delay is then `parseInt(v)`. Without the header, with a non-200 status, or with `canPoll` false, nothing is armed. |
| `Http.ParseIntOfDecimal` | app/assets/javascripts/lib/utils/poll.js:64 | `parseInt` reads back every decimal integer, negative ones included, whatever non-digit text follows it. |
| `Http.ParseIntOfNonNumeric` | app/assets/javascripts/lib/utils/poll.js:64 | A value with no digit after its optional sign parses to `NaN`. |
| `Http.ArmDelayOfDirective` | app/assets/javascripts/lib/utils/poll.js:62-70 | With `Poll-Interval: n` (any case, last one wins), a timer of exactly `n` ms is armed if and only if `n > 0`, the status is 200 and `canPoll` holds. |
| `Http.ArmDelayWithoutDirective` | app/assets/javascripts/lib/utils/poll.js:64-66 | Without a `Poll-Interval` header no timer is armed. |
| `PollSpec.Init` | app/assets/javascripts/lib/utils/poll.js:49-60 | After construction `canPoll` is true, and there are no timer, no fetch, no handler and no events. Without `options.data` the data is `{}`. Without a notification callback it is the no-op. |
| `PollSpec.Dispatched` | app/assets/javascripts/lib/utils/poll.js:74-80 | `makeRequest` neither reads nor changes `canPoll` and arms no timer. It adds a new fetch to those in flight and logs `notificationCallback(true)`, then the fetch with `data`. |
| `PollSpec.CheckedConditions` | app/assets/javascripts/lib/utils/poll.js:62-72 | `successCallback(response)` is always logged. A timer is only ever added under the next fresh handle. A non-200 status or `canPoll` false arms nothing. `canPoll` and the fetches are unchanged. |
| `PollSpec.Resolved` | app/assets/javascripts/lib/utils/poll.js:81-84 | The fetch leaves the in-flight set. `successCallback` then `notificationCallback(false)` are logged. `canPoll` is unchanged, and the timers are unchanged when `canPoll` is false or the status is not 200. |
| `PollSpec.Rejected` | app/assets/javascripts/lib/utils/poll.js:85-88 | `canPoll`, the timers and `timeoutID` are unchanged. The fetch leaves the in-flight set. `notificationCallback(false)` then `errorCallback(error)` are logged. |
| `PollSpec.Fired` | app/assets/javascripts/lib/utils/poll.js:67-69 | The fired timer is no longer pending, and a new fetch is in flight whatever `canPoll` is. |
| `PollSpec.Started` | app/assets/javascripts/lib/utils/poll.js:91-94 | One more `update:1` handler, with `subscribe:endpoint` then the registration logged. Polling state, timers and fetches are unchanged. |
| `PollSpec.Stopped` | app/assets/javascripts/lib/utils/poll.js:101-106 | `canPoll` is false and no handler remains. The timer `timeoutID` names is no longer pending, but every other timer still is. Fetches in flight are untouched, and `unsubscribe:endpoint` then the listener removal are logged. |
| `PollSpec.Restarted` | app/assets/javascripts/lib/utils/poll.js:111-114 | `canPoll` is true and there is one more handler. `subscribe:endpoint` then the registration are logged. Timers, fetches and request numbers are unchanged. |
| `PollSpec.Updated` | app/assets/javascripts/lib/utils/poll.js:93 | An inbound update logs one `successCallback(message)` per registered handler and changes nothing else. |
| `PollProperties.InitWellFormed` | app/assets/javascripts/lib/utils/poll.js:49-60 | A new scheduler satisfies the invariant. |
| `PollProperties.StepWellFormed` | app/assets/javascripts/lib/utils/poll.js:74-114 | Every step keeps the invariant: handles are never reused, and each fetch's events have one of the allowed shapes. |
| `PollProperties.RunWellFormed` | app/assets/javascripts/lib/utils/poll.js:74-114 | Any interleaving of steps keeps the invariant. |
| `PollProperties.CallbacksPerRequest` | app/assets/javascripts/lib/utils/poll.js:74-88 | In every run, each fetch opens with `notificationCallback(true)` and then the fetch call. A settled fetch then has exactly one `successCallback` followed by `notificationCallback(false)`, or exactly one `notificationCallback(false)` followed by `errorCallback`. |
| `PollProperties.RunKeepsConfiguration` | app/assets/javascripts/lib/utils/poll.js:49-58 | No step changes the endpoint, `data` or the notification callback fixed at construction. |
| `PollProperties.ResolveArmsIff` | app/assets/javascripts/lib/utils/poll.js:62-84 | On resolve, exactly one new timer is armed if and only if the parsed interval is positive, the status is OK and `canPoll` holds. Its delay is that interval. `canPoll` is unchanged, and `successCallback` then `notificationCallback(false)` end that fetch's events. |
| `PollProperties.RejectKeepsSchedule` | app/assets/javascripts/lib/utils/poll.js:85-88 | On reject, `canPoll`, the timers and `timeoutID` are unchanged. The fetch's tail is `notificationCallback(false)` then `errorCallback`. |
| `PollProperties.ResolveAfterStop` | app/assets/javascripts/lib/utils/poll.js:101-106 | A fetch that resolves after `stop()` still calls `successCallback`, but arms no timer. |
| `PollProperties.IdleRequestStartsChain` | app/assets/javascripts/lib/utils/poll.js:74-80 | A first `makeRequest()` on an idle scheduler starts a timer chain. |
| `PollProperties.TimerChainStep` | app/assets/javascripts/lib/utils/poll.js:67-69 | Every step except a caller's `makeRequest()` keeps at most one timer or fetch outstanding, and keeps the pending timer the one `timeoutID` names. |
| `PollProperties.TimerChainRun` | app/assets/javascripts/lib/utils/poll.js:67-69 | With no direct `makeRequest()` calls, never two timers, nor a timer and a fetch, are outstanding. |
| `PollProperties.StopEndsChain` | app/assets/javascripts/lib/utils/poll.js:96-106 | `stop()` on a timer chain leaves no timer pending. |
| `PollProperties.StoppedNeverArms` | app/assets/javascripts/lib/utils/poll.js:66 | While `canPoll` is false (until `restart()`), no timer is ever armed, even by the caller's own requests. |
| `PollProperties.StoppedStaysQuiet` | app/assets/javascripts/lib/utils/poll.js:66-69 | With `canPoll` false and no timer pending, no fetch is ever issued until `restart()` or a direct `makeRequest()`. |
| `PollProperties.StopDuringChain` | app/assets/javascripts/lib/utils/poll.js:96-106 | `stop()` mid-chain, even with the fetch in flight, means no later fetch is issued without a restart or a direct request. |
| `PollProperties.ManualRequestOrphansTimer` | app/assets/javascripts/lib/utils/poll.js:67 | As written, a direct `makeRequest()` while a timer is pending leaves two timers. `stop()` clears only the newer one, and the orphan fires and issues a fetch with `canPoll` false. |
| `PollProperties.StartTwiceDeliversTwice` | app/assets/javascripts/lib/utils/poll.js:91-94 | Two `start()` calls emit two subscriptions, and each update reaches `successCallback` twice. |
| `PollProperties.RestartAfterStop` | app/assets/javascripts/lib/utils/poll.js:111-114 | `restart()` after `stop()` sets `canPoll` and leaves exactly one handler, so each update reaches `successCallback` once. It issues no fetch and arms no timer. |
| `PollProperties.StopTwice` | app/assets/javascripts/lib/utils/poll.js:101-106 | A second `stop()` never fails and changes no timer. The trace gains the `unsubscribe:endpoint` emit and the listener removal twice, once per call. |
| `PollProperties.ScenarioInterval` | app/assets/javascripts/lib/utils/poll.js:62-72 | Status 200 with `Poll-Interval: 5000` arms a 5000 ms timer, keeps `canPoll` true and calls `successCallback` once. |
| `PollProperties.ScenarioPause` | app/assets/javascripts/lib/utils/poll.js:64-71 | Status 200 with `Poll-Interval: -1` arms nothing and leaves `canPoll` true: the scheduler goes idle but is not stopped. `successCallback` is called once. |

## Left out

- The socket.io transport (poll.js:2, 59): connecting, reconnecting and the real dispatch of events. The socket is reduced to the events emitted and a count of `update:1` handlers.
- The fetch `resource[method](data)` (poll.js:80): its outcome is chosen from outside by `OnResolve` or `OnReject`. The `resource` and `method` options are not modelled. The promise `makeRequest` returns is modelled as the number of the fetch.
- Wall-clock time (poll.js:67, 103): a timer is a handle with a delay, and `OnTimeout` may run any pending timer at any moment. `setTimeout`'s treatment of delays above 2^31-1 ms is not modelled.
- Callbacks that throw: a throw inside the `.then` continuation would re-enter `.catch`. Callbacks are treated as opaque and non-throwing. Their identities are not modelled, apart from whether a notification callback was supplied.
- Aliasing of `options`: the constructor writes its defaults back into the caller's `options` object (poll.js:50-53). The model keeps `data` and the notification callback as fields of its own.
- `ParseInt`: follows `parseInt(value, 10)` on ASCII white space, an optional sign and decimal digits. Unicode white space and the loss of precision on very long digit strings (JavaScript numbers are floating point) are not modelled.
- `Http.UpperCase`: upper-cases ASCII letters only. `toUpperCase` on other Unicode letters is not modelled.
- The notification callback the constructor installs by default is recorded as called, like a supplied one. Its calls have no effect.
- app/graphql/resolvers/merge_requests_resolver.rb: batch-loading and query plumbing with no scheduling logic.
- spec/features/boards/add_issues_modal_spec.rb: browser feature tests.
