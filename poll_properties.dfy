/**
 * What the scheduler promises, proved about the step functions of `PollSpec`
 * over every interleaving of callers' calls and the host's continuations.
 */
module PollProperties {
  import opened Wrappers
  import opened Http
  import opened PollSpec

  // ---------------------------------------------------------------------------
  // The events of one fetch
  // ---------------------------------------------------------------------------

  /** The events of fetch `r` in `t`, in order. */
  function Project(t: seq<Event>, r: nat): seq<Event> {
    if t == [] then []
    else (if RequestOf(t[0]) == Some(r) then [t[0]] else []) + Project(t[1..], r)
  }

  lemma {:induction false} ProjectAppend(t: seq<Event>, u: seq<Event>, r: nat)
    ensures Project(t + u, r) == Project(t, r) + Project(u, r)
  {
    if t == [] {
      assert t + u == u;
    } else {
      var head := if RequestOf(t[0]) == Some(r) then [t[0]] else [];
      calc {
        Project(t + u, r);
        { assert (t + u)[0] == t[0]; assert (t + u)[1..] == t[1..] + u; }
        head + Project(t[1..] + u, r);
        { ProjectAppend(t[1..], u, r); }
        head + (Project(t[1..], r) + Project(u, r));
        (head + Project(t[1..], r)) + Project(u, r);
      }
    }
  }

  lemma {:induction false} ProjectUntagged(u: seq<Event>, r: nat)
    requires forall i :: 0 <= i < |u| ==> RequestOf(u[i]).None?
    ensures Project(u, r) == []
  {
    if u != [] {
      ProjectUntagged(u[1..], r);
    }
  }

  lemma ProjectPair(a: Event, b: Event, r: nat)
    ensures Project([a, b], r) ==
      (if RequestOf(a) == Some(r) then [a] else []) + (if RequestOf(b) == Some(r) then [b] else [])
  {
    var ha := if RequestOf(a) == Some(r) then [a] else [];
    var hb := if RequestOf(b) == Some(r) then [b] else [];
    assert [b][1..] == [];
    assert Project([b], r) == hb + Project([], r);
    assert [a, b][1..] == [b];
    assert Project([a, b], r) == ha + Project([b], r);
  }

  /** Appending events that carry no request number leaves every fetch's events as they were. */
  lemma AppendUntagged(t: seq<Event>, u: seq<Event>)
    requires forall i :: 0 <= i < |u| ==> RequestOf(u[i]).None?
    ensures forall r: nat :: Project(t + u, r) == Project(t, r)
  {
    forall r: nat ensures Project(t + u, r) == Project(t, r) {
      ProjectAppend(t, u, r);
      ProjectUntagged(u, r);
    }
  }

  /** Appending the pair `[a, b]` adds it to the events of `req` and to no other fetch's. */
  lemma AppendPair(t: seq<Event>, a: Event, b: Event, req: nat)
    requires RequestOf(a) == Some(req) && RequestOf(b) == Some(req)
    ensures Project(t + [a, b], req) == Project(t, req) + [a, b]
    ensures forall r: nat :: r != req ==> Project(t + [a, b], r) == Project(t, r)
  {
    forall r: nat ensures Project(t + [a, b], r) == Project(t, r) + if r == req then [a, b] else [] {
      ProjectAppend(t, [a, b], r);
      ProjectPair(a, b, r);
    }
  }

  /**
   * The life of fetch `r` so far. While it is in flight: `notificationCallback(true)`
   * and the fetch call. Once settled, one of two tails: `successCallback` then
   * `notificationCallback(false)`, or `notificationCallback(false)` then
   * `errorCallback`.
   */
  predicate RequestLog(log: seq<Event>, r: nat, data: Data, pending: bool) {
    if pending then log == [Notified(r, true), Requested(r, data)]
    else
      |log| == 4 && log[0] == Notified(r, true) && log[1] == Requested(r, data) &&
      ((log[2].Succeeded? && log[2].req == r && log[3] == Notified(r, false)) ||
       (log[2] == Notified(r, false) && log[3].Failed? && log[3].req == r))
  }

  /**
   * Request and timer handles are never reused, and every fetch issued so far
   * has exactly the events `RequestLog` allows.
   */
  ghost predicate WellFormed(s: State) {
    (forall r :: r in s.inFlight ==> r < s.nextRequest) &&
    (forall t :: t in s.timers ==> t < s.nextTimer) &&
    (forall r: nat :: r < s.nextRequest ==> RequestLog(Project(s.trace, r), r, s.data, r in s.inFlight)) &&
    (forall r: nat :: r >= s.nextRequest ==> Project(s.trace, r) == [])
  }

  lemma InitWellFormed(endpoint: string, options: Options)
    ensures WellFormed(Init(endpoint, options))
  {
  }

  lemma DispatchedWellFormed(s: State)
    requires WellFormed(s)
    ensures WellFormed(Dispatched(s))
  {
    var n := s.nextRequest;
    AppendPair(s.trace, Notified(n, true), Requested(n, s.data), n);
  }

  lemma ResolvedWellFormed(s: State, req: nat, response: Response)
    requires WellFormed(s) && req in s.inFlight
    ensures WellFormed(Resolved(s, req, response))
  {
    var u := Resolved(s, req, response);
    assert u.trace == s.trace + [Succeeded(req, response), Notified(req, false)];
    AppendPair(s.trace, Succeeded(req, response), Notified(req, false), req);
  }

  lemma RejectedWellFormed(s: State, req: nat, failure: Failure)
    requires WellFormed(s) && req in s.inFlight
    ensures WellFormed(Rejected(s, req, failure))
  {
    AppendPair(s.trace, Notified(req, false), Failed(req, failure), req);
  }

  /** A step that only appends events of no fetch and drops no handle keeps the invariant. */
  lemma UntaggedWellFormed(s: State, u: State, extra: seq<Event>)
    requires WellFormed(s)
    requires forall i :: 0 <= i < |extra| ==> RequestOf(extra[i]).None?
    requires u.trace == s.trace + extra && u.data == s.data
    requires u.inFlight == s.inFlight && u.nextRequest == s.nextRequest
    requires u.nextTimer == s.nextTimer && u.timers.Keys <= s.timers.Keys
    ensures WellFormed(u)
  {
    AppendUntagged(s.trace, extra);
  }

  lemma {:induction false} StepWellFormed(s: State, step: Step)
    requires WellFormed(s)
    ensures WellFormed(Apply(s, step))
  {
    if Enabled(s, step) {
      match step
      case MakeRequest =>
        DispatchedWellFormed(s);
      case Resolve(req, response) =>
        ResolvedWellFormed(s, req, response);
      case Reject(req, failure) =>
        RejectedWellFormed(s, req, failure);
      case TimerFires(t) =>
        DispatchedWellFormed(s.(timers := s.timers - {t}));
      case Start =>
        UntaggedWellFormed(s, Started(s),
          [Emitted(SubscribeEvent, SubscriptionID, s.endpoint), Listened(UpdateEvent)]);
      case Stop =>
        UntaggedWellFormed(s, Stopped(s),
          [Emitted(UnsubscribeEvent, SubscriptionID, s.endpoint), Unlistened(UpdateEvent)]);
      case Restart =>
        UntaggedWellFormed(s, Restarted(s),
          [Emitted(SubscribeEvent, SubscriptionID, s.endpoint), Listened(UpdateEvent)]);
      case SocketUpdate(m) =>
        UntaggedWellFormed(s, Updated(s, m), Repeat(Delivered(m), s.listeners));
    }
  }

  lemma {:induction false} RunWellFormed(s: State, steps: seq<Step>)
    requires WellFormed(s)
    ensures WellFormed(Run(s, steps))
    decreases |steps|
  {
    if steps != [] {
      StepWellFormed(s, steps[0]);
      RunWellFormed(Apply(s, steps[0]), steps[1..]);
    }
  }

  /**
   * In every run of a fresh scheduler, each fetch starts with
   * `notificationCallback(true)`, and each settled fetch has exactly one
   * `notificationCallback(false)` and exactly one of `successCallback` (before the
   * `false` notification) or `errorCallback` (after it).
   */
  lemma CallbacksPerRequest(endpoint: string, options: Options, steps: seq<Step>, r: nat)
    requires r < Run(Init(endpoint, options), steps).nextRequest
    ensures var s := Run(Init(endpoint, options), steps);
      RequestLog(Project(s.trace, r), r, options.data.GetOr(map[]), r in s.inFlight)
  {
    InitWellFormed(endpoint, options);
    RunWellFormed(Init(endpoint, options), steps);
    RunKeepsConfiguration(Init(endpoint, options), steps);
  }

  /** No step changes what the constructor fixed. */
  lemma {:induction false} RunKeepsConfiguration(s: State, steps: seq<Step>)
    ensures var u := Run(s, steps);
      u.endpoint == s.endpoint && u.data == s.data && u.notify == s.notify
    decreases |steps|
  {
    if steps != [] {
      RunKeepsConfiguration(Apply(s, steps[0]), steps[1..]);
    }
  }

  // ---------------------------------------------------------------------------
  // Settling one fetch
  // ---------------------------------------------------------------------------

  /**
   * On a resolved fetch a new timer is armed exactly when the parsed
   * `Poll-Interval` is positive, the status is OK and `canPoll` holds, and its
   * delay is that interval; `canPoll` never changes; `successCallback` then
   * `notificationCallback(false)` are added to that fetch's events.
   */
  lemma ResolveArmsIff(s: State, req: nat, response: Response)
    requires WellFormed(s) && req in s.inFlight
    ensures var u := Resolved(s, req, response);
      var p := PollInterval(response);
      var arms := p.Some? && p.value > 0 && response.status == OK && s.canPoll;
      && (|u.timers.Keys| == |s.timers.Keys| + 1 <==> arms)
      && (arms ==> u.timers == s.timers[s.nextTimer := p.value] && u.timeoutID == Some(s.nextTimer))
      && (!arms ==> u.timers == s.timers && u.timeoutID == s.timeoutID)
      && u.canPoll == s.canPoll
      && u.inFlight == s.inFlight - {req}
      && Project(u.trace, req) == Project(s.trace, req) + [Succeeded(req, response), Notified(req, false)]
  {
    var u := Resolved(s, req, response);
    assert u.trace == s.trace + [Succeeded(req, response), Notified(req, false)];
    AppendPair(s.trace, Succeeded(req, response), Notified(req, false), req);
    assert s.nextTimer !in s.timers;
    assert u.timers.Keys == s.timers.Keys || u.timers.Keys == s.timers.Keys + {s.nextTimer};
  }

  /**
   * A rejected fetch changes neither `canPoll` nor the timers; its tail is
   * `notificationCallback(false)` then `errorCallback(error)`.
   */
  lemma RejectKeepsSchedule(s: State, req: nat, failure: Failure)
    requires req in s.inFlight
    ensures var u := Rejected(s, req, failure);
      && u.canPoll == s.canPoll && u.timers == s.timers && u.timeoutID == s.timeoutID
      && u.inFlight == s.inFlight - {req}
      && Project(u.trace, req) == Project(s.trace, req) + [Notified(req, false), Failed(req, failure)]
  {
    AppendPair(s.trace, Notified(req, false), Failed(req, failure), req);
  }

  /**
   * A fetch that resolves after `stop()` still calls `successCallback`, but arms
   * no timer.
   */
  lemma ResolveAfterStop(s: State, req: nat, response: Response)
    requires req in s.inFlight
    ensures var stopped := Stopped(s);
      var u := Resolved(stopped, req, response);
      && u.timers == stopped.timers && !u.canPoll
      && Project(u.trace, req) == Project(stopped.trace, req) + [Succeeded(req, response), Notified(req, false)]
  {
    var stopped := Stopped(s);
    var u := Resolved(stopped, req, response);
    assert u.trace == stopped.trace + [Succeeded(req, response), Notified(req, false)];
    AppendPair(stopped.trace, Succeeded(req, response), Notified(req, false), req);
  }

  // ---------------------------------------------------------------------------
  // The timer chain
  // ---------------------------------------------------------------------------

  /**
   * A chain driven only by its own timers: at most one timer or fetch
   * outstanding, and the pending timer, if any, is the one `timeoutID` names.
   */
  ghost predicate TimerChain(s: State) {
    |s.timers.Keys| + |s.inFlight| <= 1 &&
    forall t :: t in s.timers ==> s.timeoutID == Some(t)
  }

  lemma AtMostOne<T>(xs: set<T>, x: T)
    requires |xs| <= 1 && x in xs
    ensures xs == {x}
  {
    if y :| y in xs && y != x {
      assert {x, y} <= xs;
      assert |{x, y}| == 2;
      SubsetCard({x, y}, xs);
    }
  }

  lemma SubsetCard<T>(a: set<T>, b: set<T>)
    requires a <= b
    ensures |a| <= |b|
  {
    assert b == a + (b - a);
  }

  /** A caller's first `makeRequest()` on an idle scheduler starts a chain. */
  lemma IdleRequestStartsChain(s: State)
    requires s.timers == map[] && s.inFlight == {}
    ensures TimerChain(Dispatched(s))
  {
  }

  lemma ChainResolve(s: State, req: nat, response: Response)
    requires TimerChain(s) && req in s.inFlight
    ensures TimerChain(Resolved(s, req, response))
  {
    AtMostOne(s.inFlight, req);
    assert s.timers.Keys == {};
    var u := Resolved(s, req, response);
    assert u.inFlight == {};
    assert u.timers.Keys <= {s.nextTimer};
    SubsetCard(u.timers.Keys, {s.nextTimer});
  }

  lemma ChainFire(s: State, t: nat)
    requires TimerChain(s) && t in s.timers
    ensures TimerChain(Fired(s, t))
  {
    AtMostOne(s.timers.Keys, t);
    assert s.inFlight == {};
    var u := Fired(s, t);
    assert u.timers.Keys == {};
    assert u.inFlight == {s.nextRequest};
  }

  /** Every step but a caller's `makeRequest()` keeps a chain a chain. */
  lemma {:induction false} TimerChainStep(s: State, step: Step)
    requires TimerChain(s) && step != MakeRequest
    ensures TimerChain(Apply(s, step))
  {
    if Enabled(s, step) {
      match step
      case Resolve(req, response) =>
        ChainResolve(s, req, response);
      case Reject(req, _) =>
        SubsetCard(s.inFlight - {req}, s.inFlight);
      case TimerFires(t) =>
        ChainFire(s, t);
      case Stop =>
        StopEndsChain(s);
      case _ =>
    }
  }

  /**
   * As long as no caller calls `makeRequest()` directly, the scheduler never
   * has two timers pending, nor a timer and a fetch outstanding.
   */
  lemma {:induction false} TimerChainRun(s: State, steps: seq<Step>)
    requires TimerChain(s)
    requires forall i :: 0 <= i < |steps| ==> steps[i] != MakeRequest
    ensures TimerChain(Run(s, steps))
    decreases |steps|
  {
    if steps != [] {
      TimerChainStep(s, steps[0]);
      TimerChainRun(Apply(s, steps[0]), steps[1..]);
    }
  }

  /** `stop()` on a chain cancels its only timer. */
  lemma StopEndsChain(s: State)
    requires TimerChain(s)
    ensures Stopped(s).timers == map[]
  {
    var u := Stopped(s);
    assert u.timers.Keys == {};
  }

  /**
   * Once `canPoll` is false, and until `restart()`, no timer is ever armed:
   * neither resolved fetches nor the caller's own `makeRequest()` calls add one.
   */
  lemma {:induction false} StoppedNeverArms(s: State, steps: seq<Step>)
    requires !s.canPoll
    requires forall i :: 0 <= i < |steps| ==> steps[i] != Restart
    ensures var u := Run(s, steps);
      !u.canPoll && u.timers.Keys <= s.timers.Keys
    decreases |steps|
  {
    if steps != [] {
      var next := Apply(s, steps[0]);
      assert !next.canPoll && next.timers.Keys <= s.timers.Keys;
      StoppedNeverArms(next, steps[1..]);
    }
  }

  /**
   * With `canPoll` false and no timer pending, nothing but the caller can issue
   * a fetch again: until `restart()` or a caller's `makeRequest()`, no fetch is
   * issued, whatever settles and whatever the socket delivers.
   */
  lemma {:induction false} StoppedStaysQuiet(s: State, steps: seq<Step>)
    requires !s.canPoll && s.timers == map[]
    requires forall i :: 0 <= i < |steps| ==> steps[i] != MakeRequest && steps[i] != Restart
    ensures var u := Run(s, steps);
      && !u.canPoll && u.timers == map[]
      && u.inFlight <= s.inFlight && u.nextRequest == s.nextRequest
    decreases |steps|
  {
    if steps != [] {
      var next := Apply(s, steps[0]);
      assert !next.canPoll && next.timers == map[];
      assert next.inFlight <= s.inFlight && next.nextRequest == s.nextRequest;
      StoppedStaysQuiet(next, steps[1..]);
    }
  }

  /**
   * `stop()` in the middle of a chain, even with its fetch in flight, ends it:
   * the in-flight fetch still settles, but no later fetch is ever issued
   * unless the caller restarts or requests again.
   */
  lemma StopDuringChain(s: State, steps: seq<Step>)
    requires TimerChain(s)
    requires forall i :: 0 <= i < |steps| ==> steps[i] != MakeRequest && steps[i] != Restart
    ensures var u := Run(Stopped(s), steps);
      u.timers == map[] && u.inFlight <= s.inFlight && u.nextRequest == s.nextRequest
  {
    StopEndsChain(s);
    StoppedStaysQuiet(Stopped(s), steps);
  }

  /**
   * As written, a caller's `makeRequest()` while a timer is pending lets
   * `timeoutID` be overwritten without the old timer being cleared: `stop()`
   * then cancels only the newer timer, and the orphan still fires and issues
   * a fetch although `canPoll` is false.
   */
  lemma ManualRequestOrphansTimer(endpoint: string, options: Options, response: Response)
    requires ArmDelay(response, true).Some?
    ensures var s0 := Init(endpoint, options);
      var s1 := Resolved(Dispatched(s0), 0, response);
      var s2 := Resolved(Dispatched(s1), 1, response);
      var s3 := Stopped(s2);
      && s1.timers.Keys == {0} && s2.timers.Keys == {0, 1} && s2.timeoutID == Some(1)
      && s3.timers.Keys == {0} && !s3.canPoll
      && Fired(s3, 0).inFlight == {2}
  {
    var s0 := Init(endpoint, options);
    var s1 := Resolved(Dispatched(s0), 0, response);
    assert s1.canPoll && s1.nextTimer == 1 && s1.nextRequest == 1;
    var s2 := Resolved(Dispatched(s1), 1, response);
    assert s2.timers.Keys == {0, 1};
    var s3 := Stopped(s2);
    assert s3.timers.Keys == {0};
  }

  // ---------------------------------------------------------------------------
  // The socket subscription
  // ---------------------------------------------------------------------------

  /**
   * `start()` is not idempotent: each call emits `subscribe:endpoint` and adds
   * one more `update:1` handler, so after two calls every update reaches
   * `successCallback` twice.
   */
  lemma StartTwiceDeliversTwice(s: State, m: Message)
    requires s.listeners == 0
    ensures var u := Started(Started(s));
      var sub := [Emitted(SubscribeEvent, SubscriptionID, s.endpoint), Listened(UpdateEvent)];
      && u.trace == s.trace + sub + sub
      && Updated(u, m).trace == u.trace + [Delivered(m), Delivered(m)]
  {
  }

  /**
   * `restart()` after `stop()` allows polling again and leaves exactly one
   * `update:1` handler, so each update reaches `successCallback` once; it issues
   * no fetch and arms no timer of its own.
   */
  lemma RestartAfterStop(s: State, m: Message)
    ensures var u := Restarted(Stopped(s));
      && u.canPoll && u.listeners == 1
      && u.inFlight == s.inFlight && u.nextRequest == s.nextRequest
      && u.timers.Keys <= s.timers.Keys && u.nextTimer == s.nextTimer
      && Updated(u, m).trace == u.trace + [Delivered(m)]
  {
  }

  /** `stop()` may be called any number of times, started or not: it never fails and repeats its emits. */
  lemma StopTwice(s: State)
    ensures var u := Stopped(Stopped(s));
      var unsub := [Emitted(UnsubscribeEvent, SubscriptionID, s.endpoint), Unlistened(UpdateEvent)];
      && !u.canPoll && u.listeners == 0 && u.timers == Stopped(s).timers
      && u.trace == s.trace + unsub + unsub
  {
  }

  // ---------------------------------------------------------------------------
  // Scenarios
  // ---------------------------------------------------------------------------

  lemma FiveThousand()
    ensures ShowInt(5000) == "5000"
  {
    assert ShowNat(5) == "5";
    assert ShowNat(50) == "50";
    assert ShowNat(500) == "500";
  }

  lemma MinusOne()
    ensures ShowInt(-1) == "-1"
  {
    assert ShowNat(1) == "1";
  }

  /**
   * Status 200 with `Poll-Interval: 5000`: `successCallback` fires once, the
   * next fetch is scheduled 5000 ms later and `canPoll` stays true.
   */
  lemma ScenarioInterval(s: State, req: nat)
    requires WellFormed(s) && req in s.inFlight && s.canPoll
    ensures var response := Response(200, [("Poll-Interval", "5000")]);
      var u := Resolved(s, req, response);
      && u.timers == s.timers[s.nextTimer := 5000] && u.canPoll
      && Project(u.trace, req) == Project(s.trace, req) + [Succeeded(req, response), Notified(req, false)]
  {
    var response := Response(200, [("Poll-Interval", "5000")]);
    assert UpperCase("Poll-Interval") == IntervalHeader;
    FiveThousand();
    ArmDelayOfDirective(response, true, 0, 5000, "");
    ResolveArmsIff(s, req, response);
  }

  /**
   * Status 200 with `Poll-Interval: -1`: `successCallback` fires once, no fetch is
   * scheduled, and the scheduler is idle but not stopped.
   */
  lemma ScenarioPause(s: State, req: nat)
    requires WellFormed(s) && req in s.inFlight && s.canPoll
    ensures var response := Response(200, [("Poll-Interval", "-1")]);
      var u := Resolved(s, req, response);
      && u.timers == s.timers && u.canPoll
      && Project(u.trace, req) == Project(s.trace, req) + [Succeeded(req, response), Notified(req, false)]
  {
    var response := Response(200, [("Poll-Interval", "-1")]);
    assert UpperCase("Poll-Interval") == IntervalHeader;
    MinusOne();
    ArmDelayOfDirective(response, true, 0, -1, "");
    ResolveArmsIff(s, req, response);
  }
}
