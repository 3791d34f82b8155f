/**
 * The polling utility `Poll` as an object whose methods update its fields in
 * place. Fetches, timers and the socket are driven from outside: the host calls
 * `OnResolve`/`OnReject` when a fetch settles, `OnTimeout` when a pending timer
 * runs, and `OnUpdate` when the socket receives `update:1`. Every method is
 * proved to take the object exactly where the matching function of `PollSpec`
 * takes its abstract state. Every method except `CheckConditions`, a step
 * inside `OnResolve`, keeps `PollProperties.WellFormed`.
 */
module PollClass {
  import opened Wrappers
  import opened Http
  import opened PollSpec
  import PollProperties

  class Poll {
    // Fixed at construction.
    const endpoint: string
    const data: Data
    const notify: Notifier
    const intervalHeader: string := IntervalHeader

    // The object's own fields.
    var canPoll: bool
    var timeoutID: Option<nat>

    // What the host and the socket hold on the object's behalf.
    var timers: map<nat, nat>
    var nextTimer: nat
    var inFlight: set<nat>
    var nextRequest: nat
    var listeners: nat
    ghost var trace: seq<Event>

    /** The object seen as a `PollSpec.State`. */
    ghost function Model(): State
      reads this
    {
      State(endpoint, data, notify, canPoll, timeoutID, timers, nextTimer,
            inFlight, nextRequest, listeners, trace)
    }

    ghost predicate Valid()
      reads this
    {
      PollProperties.WellFormed(Model())
    }

    /**
     * `new Poll(endpoint, options)`: `data` defaults to `{}`, the notification
     * callback to a no-op; polling is allowed and no timer is pending.
     */
    constructor (endpoint: string, options: Options)
      ensures Valid() && Model() == Init(endpoint, options)
      ensures canPoll && timeoutID == None && timers == map[] && inFlight == {}
      ensures data == (if options.data.Some? then options.data.value else map[])
      ensures options.notificationCallback.None? ==> notify == NoOp
      ensures listeners == 0 && trace == []
    {
      this.endpoint := endpoint;
      this.data := options.data.GetOr(map[]);
      this.notify := match options.notificationCallback
                     case Some(c) => Supplied(c)
                     case None => NoOp;
      this.timeoutID := None;
      this.canPoll := true;
      this.timers := map[];
      this.nextTimer := 0;
      this.inFlight := {};
      this.nextRequest := 0;
      this.listeners := 0;
      this.trace := [];
      new;
      PollProperties.InitWellFormed(endpoint, options);
    }

    /**
     * `checkConditions(response)` for fetch `req`: arm one timer of the parsed
     * interval when it is positive, the status is OK and `canPoll` holds; then
     * call `successCallback`. It runs only inside `OnResolve`, between removing
     * the fetch from `inFlight` and `notificationCallback(false)`, so it neither
     * needs nor keeps `Valid()`: on its own it would leave the fetch's events
     * without their closing notification.
     */
    method CheckConditions(ghost req: nat, response: Response)
      modifies this
      ensures Model() == CheckedConditions(old(Model()), req, response)
    {
      var headers := NormalizeHeaders(response.headers);
      var pollInterval := if intervalHeader in headers then ParseInt(headers[intervalHeader]) else None;
      if pollInterval.Some? && pollInterval.value > 0 && response.status == OK && canPoll {
        timeoutID := Some(nextTimer);
        timers := timers[nextTimer := pollInterval.value];
        nextTimer := nextTimer + 1;
      }
      trace := trace + [Succeeded(req, response)];
    }

    /**
     * `makeRequest()` up to the pending fetch: `notificationCallback(true)`, then
     * the fetch with `data`. Returns the number of the fetch now in flight, one
     * not in flight before.
     */
    method MakeRequest() returns (req: nat)
      requires Valid()
      modifies this
      ensures Valid() && Model() == Dispatched(old(Model()))
      ensures req !in old(inFlight) && inFlight == old(inFlight) + {req}
    {
      ghost var before := Model();
      req := nextRequest;
      trace := trace + [Notified(req, true)];
      trace := trace + [Requested(req, data)];
      inFlight := inFlight + {req};
      nextRequest := nextRequest + 1;
      assert trace == before.trace + [Notified(req, true), Requested(req, data)];
      PollProperties.DispatchedWellFormed(before);
    }

    /**
     * The `.then` continuation of fetch `req`: `checkConditions(response)`, then
     * `notificationCallback(false)`. `canPoll` is left as it was.
     */
    method OnResolve(req: nat, response: Response)
      requires Valid() && req in inFlight
      modifies this
      ensures Valid() && Model() == Resolved(old(Model()), req, response)
      ensures canPoll == old(canPoll) && inFlight == old(inFlight) - {req}
    {
      ghost var before := Model();
      inFlight := inFlight - {req};
      CheckConditions(req, response);
      trace := trace + [Notified(req, false)];
      PollProperties.ResolvedWellFormed(before, req, response);
    }

    /**
     * The `.catch` continuation of fetch `req`: `notificationCallback(false)`,
     * then `errorCallback(error)`; no timer is armed and `canPoll` is left as it was.
     */
    method OnReject(req: nat, failure: Failure)
      requires Valid() && req in inFlight
      modifies this
      ensures Valid() && Model() == Rejected(old(Model()), req, failure)
      ensures canPoll == old(canPoll) && timers == old(timers) && inFlight == old(inFlight) - {req}
    {
      ghost var before := Model();
      inFlight := inFlight - {req};
      trace := trace + [Notified(req, false)];
      trace := trace + [Failed(req, failure)];
      assert trace == before.trace + [Notified(req, false), Failed(req, failure)];
      PollProperties.RejectedWellFormed(before, req, failure);
    }

    /**
     * The host runs pending timer `timer`; its callback is `makeRequest()`,
     * without looking at `canPoll`.
     */
    method OnTimeout(timer: nat) returns (req: nat)
      requires Valid() && timer in timers
      modifies this
      ensures Valid() && Model() == Fired(old(Model()), timer)
      ensures req !in old(inFlight) && inFlight == old(inFlight) + {req}
    {
      timers := timers - {timer};
      req := MakeRequest();
    }

    /** `start()`: emit `subscribe:endpoint` and add one more `update:1` handler. */
    method Start()
      requires Valid()
      modifies this
      ensures Valid() && Model() == Started(old(Model()))
      ensures listeners == old(listeners) + 1
    {
      ghost var before := Model();
      trace := trace + [Emitted(SubscribeEvent, SubscriptionID, endpoint)];
      listeners := listeners + 1;
      trace := trace + [Listened(UpdateEvent)];
      ghost var extra := [Emitted(SubscribeEvent, SubscriptionID, endpoint), Listened(UpdateEvent)];
      assert trace == before.trace + extra;
      PollProperties.UntaggedWellFormed(before, Model(), extra);
    }

    /**
     * `stop()`: forbid polling, clear the timer `timeoutID` names, emit
     * `unsubscribe:endpoint` and remove the `update:1` handlers. On a timer
     * chain no timer is left pending.
     */
    method Stop()
      requires Valid()
      modifies this
      ensures Valid() && Model() == Stopped(old(Model()))
      ensures !canPoll && listeners == 0
      ensures PollProperties.TimerChain(old(Model())) ==> timers == map[]
    {
      ghost var before := Model();
      canPoll := false;
      match timeoutID {
        case Some(t) => timers := timers - {t};
        case None =>
      }
      trace := trace + [Emitted(UnsubscribeEvent, SubscriptionID, endpoint)];
      listeners := 0;
      trace := trace + [Unlistened(UpdateEvent)];
      ghost var extra := [Emitted(UnsubscribeEvent, SubscriptionID, endpoint), Unlistened(UpdateEvent)];
      assert trace == before.trace + extra;
      PollProperties.UntaggedWellFormed(before, Model(), extra);
      if PollProperties.TimerChain(before) {
        PollProperties.StopEndsChain(before);
      }
    }

    /** `restart()`: allow polling again and `start()`; no fetch, no timer. */
    method Restart()
      requires Valid()
      modifies this
      ensures Valid() && Model() == Restarted(old(Model()))
      ensures canPoll && timers == old(timers) && inFlight == old(inFlight)
    {
      canPoll := true;
      Start();
    }

    /** The socket receives `update:1`: every registered handler calls `successCallback(message)`. */
    method OnUpdate(message: Message)
      requires Valid()
      modifies this
      ensures Valid() && Model() == Updated(old(Model()), message)
    {
      ghost var before := Model();
      ghost var extra := Repeat(Delivered(message), listeners);
      trace := trace + extra;
      PollProperties.UntaggedWellFormed(before, Model(), extra);
    }
  }
}
