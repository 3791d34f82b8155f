/**
 * The polling scheduler `Poll` as a state machine over values. Each function
 * below is one synchronous run of the scheduler's code between two suspension
 * points of the event loop: `makeRequest` up to its `await`, the `.then` and
 * `.catch` continuations, a timer callback, `start`, `stop`, `restart`, and the
 * socket delivering an `update:1` event. The class `PollClass.Poll` is proved
 * against these functions; `PollProperties` proves what they promise.
 */
module PollSpec {
  import opened Wrappers
  import opened Http

  /** The request parameters handed to the fetch (`options.data`). */
  type Data = map<string, string>

  /** The payload of an inbound `update:1` socket event. */
  datatype Message = Message(body: string)

  /** The value the fetch rejects with. */
  datatype Failure = Failure(reason: string)

  /** The `notificationCallback` in force: the caller's, or the built-in no-op. */
  datatype Notifier = NoOp | Supplied(callback: nat)

  /** The optional parts of the constructor's `options` (callbacks are opaque). */
  datatype Options = Options(data: Option<Data>, notificationCallback: Option<nat>)

  /** The fixed socket event names and subscription id of `start` and `stop`. */
  const SubscribeEvent: string := "subscribe:endpoint"
  const UnsubscribeEvent: string := "unsubscribe:endpoint"
  const UpdateEvent: string := "update:1"
  const SubscriptionID: int := 1

  /**
   * What the scheduler does that its caller or the socket can observe. Events
   * of one fetch carry the request number `req` (a bookkeeping tag of the model,
   * not something the callbacks receive).
   */
  datatype Event =
    | Notified(req: nat, active: bool)            // notificationCallback(active)
    | Requested(req: nat, data: Data)             // resource[method](data)
    | Succeeded(req: nat, response: Response)     // successCallback(response), from checkConditions
    | Failed(req: nat, failure: Failure)          // errorCallback(error)
    | Emitted(name: string, id: int, endpoint: string)  // socket.emit(name, { ID, Endpoint })
    | Listened(name: string)                      // socket.on(name, successCallback)
    | Unlistened(name: string)                    // socket.removeListener(name)
    | Delivered(message: Message)                 // successCallback(message), run by an update:1 handler

  /** The fetch an event belongs to, if any. */
  function RequestOf(e: Event): Option<nat> {
    match e
    case Notified(r, _) => Some(r)
    case Requested(r, _) => Some(r)
    case Succeeded(r, _) => Some(r)
    case Failed(r, _) => Some(r)
    case _ => None
  }

  /**
   * The scheduler with its surroundings. `canPoll` and `timeoutID` are the
   * object's own fields; `timers` are the host's pending `setTimeout` callbacks
   * (handle to delay) and `nextTimer` the next handle it hands out; `inFlight`
   * are the fetches not yet settled; `listeners` counts the `update:1` handlers
   * registered on the socket; `trace` is everything observable so far.
   */
  datatype State = State(
    endpoint: string,
    data: Data,
    notify: Notifier,
    canPoll: bool,
    timeoutID: Option<nat>,
    timers: map<nat, nat>,
    nextTimer: nat,
    inFlight: set<nat>,
    nextRequest: nat,
    listeners: nat,
    trace: seq<Event>)

  /** `new Poll(endpoint, options)`. */
  function Init(endpoint: string, options: Options): (s: State)
    ensures s.canPoll && s.timeoutID == None && s.timers == map[]
    ensures s.inFlight == {} && s.listeners == 0 && s.trace == []
    ensures options.data.None? ==> s.data == map[]
    ensures options.notificationCallback.None? ==> s.notify == NoOp
  {
    State(
      endpoint,
      options.data.GetOr(map[]),
      match options.notificationCallback
      case Some(c) => Supplied(c)
      case None => NoOp,
      true, None, map[], 0, {}, 0, 0, [])
  }

  /** `makeRequest` up to the pending fetch: notify, then call the fetch with `data`. */
  function Dispatched(s: State): (u: State)
    ensures u.canPoll == s.canPoll && u.timers == s.timers && u.timeoutID == s.timeoutID
    ensures s.nextRequest in u.inFlight && u.inFlight - {s.nextRequest} == s.inFlight - {s.nextRequest}
    ensures u.nextRequest > s.nextRequest
    ensures u.trace == s.trace + [Notified(s.nextRequest, true), Requested(s.nextRequest, s.data)]
  {
    var r := s.nextRequest;
    s.(inFlight := s.inFlight + {r},
       nextRequest := r + 1,
       trace := s.trace + [Notified(r, true), Requested(r, s.data)])
  }

  /** `checkConditions(response)`: maybe arm one timer, then call `successCallback`. */
  function CheckedConditions(s: State, req: nat, response: Response): (u: State)
    ensures u.canPoll == s.canPoll && u.inFlight == s.inFlight && u.listeners == s.listeners
    ensures u.trace == s.trace + [Succeeded(req, response)]
    ensures !s.canPoll || response.status != OK ==> u.timers == s.timers && u.timeoutID == s.timeoutID
    ensures u.timers.Keys <= s.timers.Keys + {s.nextTimer}
  {
    var armed :=
      match ArmDelay(response, s.canPoll)
      case Some(delay) =>
        s.(timeoutID := Some(s.nextTimer),
           timers := s.timers[s.nextTimer := delay],
           nextTimer := s.nextTimer + 1)
      case None => s;
    armed.(trace := armed.trace + [Succeeded(req, response)])
  }

  /** The `.then` continuation of fetch `req`. */
  function Resolved(s: State, req: nat, response: Response): (u: State)
    requires req in s.inFlight
    ensures u.canPoll == s.canPoll && u.inFlight == s.inFlight - {req}
    ensures u.trace == s.trace + [Succeeded(req, response), Notified(req, false)]
    ensures !s.canPoll || response.status != OK ==> u.timers == s.timers
  {
    var checked := CheckedConditions(s.(inFlight := s.inFlight - {req}), req, response);
    checked.(trace := checked.trace + [Notified(req, false)])
  }

  /** The `.catch` continuation of fetch `req`. */
  function Rejected(s: State, req: nat, failure: Failure): (u: State)
    requires req in s.inFlight
    ensures u.canPoll == s.canPoll && u.timers == s.timers && u.timeoutID == s.timeoutID
    ensures u.inFlight == s.inFlight - {req} && req !in u.inFlight
    ensures u.trace == s.trace + [Notified(req, false), Failed(req, failure)]
  {
    s.(inFlight := s.inFlight - {req},
       trace := s.trace + [Notified(req, false), Failed(req, failure)])
  }

  /** The host runs pending timer `timer`, whose callback is `makeRequest()`. */
  function Fired(s: State, timer: nat): (u: State)
    requires timer in s.timers
    ensures timer !in u.timers && u.timers.Keys == s.timers.Keys - {timer}
    ensures u.canPoll == s.canPoll && s.nextRequest in u.inFlight
  {
    Dispatched(s.(timers := s.timers - {timer}))
  }

  /** `start()`: emit the subscription and add one more `update:1` handler. */
  function Started(s: State): (u: State)
    ensures u.listeners == s.listeners + 1
    ensures u.canPoll == s.canPoll && u.timers == s.timers && u.inFlight == s.inFlight
    ensures u.trace == s.trace + [Emitted(SubscribeEvent, SubscriptionID, s.endpoint), Listened(UpdateEvent)]
  {
    s.(listeners := s.listeners + 1,
       trace := s.trace + [Emitted(SubscribeEvent, SubscriptionID, s.endpoint), Listened(UpdateEvent)])
  }

  /**
   * `stop()`: forbid polling, cancel the timer `timeoutID` names (if still
   * pending), emit the unsubscription and drop every `update:1` handler.
   */
  function Stopped(s: State): (u: State)
    ensures !u.canPoll && u.listeners == 0 && u.inFlight == s.inFlight
    ensures u.timers.Keys <= s.timers.Keys
    ensures s.timeoutID.Some? ==> s.timeoutID.value !in u.timers
    ensures forall t :: t in s.timers && Some(t) != s.timeoutID ==> t in u.timers
    ensures u.trace == s.trace + [Emitted(UnsubscribeEvent, SubscriptionID, s.endpoint), Unlistened(UpdateEvent)]
  {
    s.(canPoll := false,
       timers := match s.timeoutID
                 case Some(t) => s.timers - {t}
                 case None => s.timers,
       listeners := 0,
       trace := s.trace + [Emitted(UnsubscribeEvent, SubscriptionID, s.endpoint), Unlistened(UpdateEvent)])
  }

  /** `restart()`: allow polling again, then `start()`. */
  function Restarted(s: State): (u: State)
    ensures u.canPoll && u.listeners == s.listeners + 1
    ensures u.timers == s.timers && u.inFlight == s.inFlight && u.nextRequest == s.nextRequest
    ensures u.trace == s.trace + [Emitted(SubscribeEvent, SubscriptionID, s.endpoint), Listened(UpdateEvent)]
  {
    Started(s.(canPoll := true))
  }

  function Repeat(e: Event, n: nat): (r: seq<Event>)
    ensures |r| == n && forall i :: 0 <= i < n ==> r[i] == e
  {
    seq(n, _ => e)
  }

  /** The socket delivers an `update:1` event: every registered handler runs once. */
  function Updated(s: State, message: Message): (u: State)
    ensures u.canPoll == s.canPoll && u.timers == s.timers && u.inFlight == s.inFlight
    ensures |u.trace| == |s.trace| + s.listeners && u.trace[..|s.trace|] == s.trace
    ensures forall i :: |s.trace| <= i < |u.trace| ==> u.trace[i] == Delivered(message)
    ensures u == s.(trace := u.trace)
  {
    s.(trace := s.trace + Repeat(Delivered(message), s.listeners))
  }

  /** One thing that can happen next: a caller's call, or the host resuming the scheduler. */
  datatype Step =
    | MakeRequest
    | Resolve(req: nat, response: Response)
    | Reject(req: nat, failure: Failure)
    | TimerFires(timer: nat)
    | Start
    | Stop
    | Restart
    | SocketUpdate(message: Message)

  /** A fetch settles only while in flight; a timer fires only while pending. */
  predicate Enabled(s: State, step: Step) {
    match step
    case Resolve(req, _) => req in s.inFlight
    case Reject(req, _) => req in s.inFlight
    case TimerFires(t) => t in s.timers
    case _ => true
  }

  /** The effect of one step; a step that cannot happen leaves the state as it is. */
  function Apply(s: State, step: Step): State {
    if !Enabled(s, step) then s
    else
      match step
      case MakeRequest => Dispatched(s)
      case Resolve(req, response) => Resolved(s, req, response)
      case Reject(req, failure) => Rejected(s, req, failure)
      case TimerFires(t) => Fired(s, t)
      case Start => Started(s)
      case Stop => Stopped(s)
      case Restart => Restarted(s)
      case SocketUpdate(m) => Updated(s, m)
  }

  /** Any interleaving of steps. */
  function Run(s: State, steps: seq<Step>): State
    decreases |steps|
  {
    if steps == [] then s else Run(Apply(s, steps[0]), steps[1..])
  }
}
