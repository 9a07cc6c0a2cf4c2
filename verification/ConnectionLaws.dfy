/** What the connection announces: how long it will wait before each reconnect, and why it reconnects. */
module ConnectionLaws {
  import opened Seqs
  import opened Retry
  import opened Connection

  function Pow2(n: nat): nat {
    if n == 0 then 1 else 2 * Pow2(n - 1)
  }

  lemma {:induction false} DoubledIs(x: real, n: nat)
    ensures Doubled(x, n) == x * (Pow2(n) as real)
  {
    if n > 0 {
      DoubledIs(x, n - 1);
      DoubleReal(x, Pow2(n - 1));
    }
  }

  lemma {:induction false} DoubleReal(x: real, n: nat)
    ensures 2.0 * (x * (n as real)) == x * ((2 * n) as real)
  {
    assert (2 * n) as real == 2.0 * (n as real);
  }

  /** The delay number `k` before jitter. */
  function Backoff(cfg: NormalizedRetryConfig, k: nat): real {
    var grown := cfg.initialDelayMs * (Pow2(k) as real);
    if cfg.maxDelayMs <= grown then cfg.maxDelayMs else grown
  }

  /** A delay within a fifth of its backoff. */
  predicate DelayFits(cfg: NormalizedRetryConfig, k: nat, delayMs: int) {
    var b := Backoff(cfg, k);
    if b > 0.0 then (0.8 * b).Floor <= delayMs && delayMs as real < 1.2 * b else delayMs == 0
  }

  lemma {:induction false} ComputedFits(cfg: NormalizedRetryConfig, k: nat, draw: real)
    requires Draw(draw)
    ensures DelayFits(cfg, k, ComputeBackoffMs(k, cfg, draw))
  {
    DoubledIs(cfg.initialDelayMs, k);
    BackoffBounds(k, cfg, draw);
  }

  /** The base of any attempt, a negative one counting as the first. */
  lemma {:induction false} BaseIs(attempt: int, cfg: NormalizedRetryConfig)
    ensures Base(attempt, cfg) == Backoff(cfg, if attempt < 0 then 0 else attempt)
  {
    DoubledIs(cfg.initialDelayMs, if attempt < 0 then 0 else attempt);
  }

  // ------------------------------------------------------- what is announced

  /** The reconnects announced since the last open. */
  function Reconnects(events: seq<Event>): seq<Event> {
    if events == [] || events[|events| - 1].WsOpen? then []
    else
      Reconnects(events[..|events| - 1]) + if events[|events| - 1].WsReconnecting? then [events[|events| - 1]] else []
  }

  /** The last failure or close reported, unless the socket has opened since. */
  function Cause(events: seq<Event>): Option<Reason> {
    if events == [] then None
    else
      match events[|events| - 1]
      case WsOpen => None
      case WsClose => Some(OnClosed)
      case WsError => Some(OnFailed)
      case _ => Cause(events[..|events| - 1])
  }

  /** Every reconnect gives as its reason the failure or close that was reported last. */
  ghost predicate ReasonsGiven(events: seq<Event>) {
    forall i :: 0 <= i < |events| && events[i].WsReconnecting? ==> Cause(events[..i]) == Some(events[i].reason)
  }

  ghost predicate DelaysFit(reconnects: seq<Event>, cfg: NormalizedRetryConfig) {
    forall k :: 0 <= k < |reconnects| ==>
      && reconnects[k].WsReconnecting? && reconnects[k].attempt == k + 1
      && DelayFits(cfg, k, reconnects[k].delayMs)
  }

  ghost predicate AnnounceInv(c: Conn, cfg: NormalizedRetryConfig) {
    |Reconnects(c.events)| == c.reconnectAttempts && DelaysFit(Reconnects(c.events), cfg) && ReasonsGiven(c.events)
  }

  lemma {:induction false} EventAppended(events: seq<Event>, e: Event)
    ensures Reconnects(events + [e]) ==
      if e.WsOpen? then [] else Reconnects(events) + if e.WsReconnecting? then [e] else []
    ensures Cause(events + [e]) ==
      match e
      case WsOpen => None
      case WsClose => Some(OnClosed)
      case WsError => Some(OnFailed)
      case _ => Cause(events)
    ensures
      ReasonsGiven(events) && (e.WsReconnecting? ==> Cause(events) == Some(e.reason)) ==> ReasonsGiven(events + [e])
  {
    var longer := events + [e];
    assert longer[..|events|] == events;
    if ReasonsGiven(events) && (e.WsReconnecting? ==> Cause(events) == Some(e.reason)) {
      forall i | 0 <= i < |longer| && longer[i].WsReconnecting? ensures Cause(longer[..i]) == Some(longer[i].reason) {
        assert i < |events| ==> longer[..i] == events[..i];
      }
    }
  }

  /** Nothing announced has changed. */
  ghost predicate SameAnnounced(c: Conn, d: Conn) {
    && Reconnects(d.events) == Reconnects(c.events) && Cause(d.events) == Cause(c.events)
    && d.reconnectAttempts == c.reconnectAttempts && (ReasonsGiven(c.events) ==> ReasonsGiven(d.events))
  }

  lemma {:induction false} SendAnnouncesNothing(c: Conn, msg: Msg)
    ensures SameAnnounced(c, SendOutcome(c, msg))
  {
    EventAppended(c.events, QueueOverflow);
  }

  lemma {:induction false} ActionsAnnounceNothing(c: Conn, actions: seq<Action>)
    ensures SameAnnounced(c, ActionsOutcome(c, actions))
    decreases actions
  {
    if actions != [] {
      if actions[0].Sends? {
        SendAnnouncesNothing(c, actions[0].msg);
      }
      ActionsAnnounceNothing(ActionOutcome(c, actions[0]), actions[1..]);
    }
  }

  lemma {:induction false} AnnounceFits(c: Conn, cfg: NormalizedRetryConfig, reason: Reason, draw: real)
    requires AnnounceInv(c, cfg) && Draw(draw) && Cause(c.events) == Some(reason)
    ensures
      var told := Announce(c, cfg, reason, draw);
      && |Reconnects(told.events)| == c.reconnectAttempts + 1 && DelaysFit(Reconnects(told.events), cfg)
      && ReasonsGiven(told.events)
  {
    var told := Announce(c, cfg, reason, draw);
    EventAppended(c.events, told.events[|told.events| - 1]);
    ComputedFits(cfg, c.reconnectAttempts, draw);
  }

  lemma {:induction false} ScheduleAnnounces(
    c: Conn, cfg: NormalizedRetryConfig, reason: Reason, draw: real, onRetry: seq<Action>)
    requires AnnounceInv(c, cfg) && Draw(draw) && Cause(c.events) == Some(reason)
    ensures AnnounceInv(ScheduleOutcome(c, cfg, reason, draw, onRetry), cfg)
  {
    if Schedules(c, cfg) {
      AnnounceFits(c, cfg, reason, draw);
      ActionsAnnounceNothing(Announce(c, cfg, reason, draw), onRetry);
    }
  }

  lemma {:induction false} EventAnnounces(
    c: Conn, cfg: NormalizedRetryConfig, e: Event, listeners: seq<Action>, reason: Reason, draw: real,
    onRetry: seq<Action>)
    requires AnnounceInv(c, cfg) && Draw(draw) && e == if reason == OnClosed then WsClose else WsError
    ensures AnnounceInv(ScheduleOutcome(ActionsOutcome(Emit(c, e), listeners), cfg, reason, draw, onRetry), cfg)
  {
    EventAppended(c.events, e);
    ActionsAnnounceNothing(Emit(c, e), listeners);
    ScheduleAnnounces(ActionsOutcome(Emit(c, e), listeners), cfg, reason, draw, onRetry);
  }

  lemma {:induction false} OpenAnnounces(c: Conn, cfg: NormalizedRetryConfig, actions: seq<Action>)
    requires AnnounceInv(c, cfg)
    ensures AnnounceInv(OpenOutcome(c, actions), cfg)
  {
    EventAppended(c.events, WsOpen);
    ActionsAnnounceNothing(Opened(c), actions);
  }

  lemma {:induction false} AnnounceStep(s: System, step: Step)
    requires AnnounceInv(s.c, s.cfg)
    ensures AnnounceInv(Next(s, step).c, s.cfg)
  {
    if Enabled(s, step) {
      StepsAreTransitions(s, step);
      match step
      case Send(msg) => SendAnnouncesNothing(s.c, msg);
      case SocketOpens(actions) => OpenAnnounces(s.c, s.cfg, actions);
      case SocketFails(draw, onError, onRetry) =>
        EventAnnounces(s.c, s.cfg, WsError, onError, OnFailed, draw, onRetry);
      case UrlFails(draw, onError, onRetry) =>
        EventAnnounces(s.c, s.cfg, WsError, onError, OnFailed, draw, onRetry);
      case SocketCloses(draw, onClose, onRetry) =>
        EventAnnounces(s.c.(isOpen := false), s.cfg, WsClose, onClose, OnClosed, draw, onRetry);
      case _ =>
    }
  }

  lemma {:induction false} AnnounceAlways(cfg: NormalizedRetryConfig, steps: seq<Step>)
    ensures AnnounceInv(RunFrom(Init(cfg), steps).c, cfg)
  {
    if steps != [] {
      var s, step := RunFrom(Init(cfg), steps[..|steps| - 1]), steps[|steps| - 1];
      AnnounceAlways(cfg, steps[..|steps| - 1]);
      InvAlways(cfg, steps[..|steps| - 1]);
      AnnounceStep(s, step);
    }
  }

  // ---------------------------------------------------------- the overflows

  function Overflows(events: seq<Event>): nat {
    if events == [] then 0
    else Overflows(events[..|events| - 1]) + if events[|events| - 1].QueueOverflow? then 1 else 0
  }

  lemma {:induction false} OverflowsEmit(c: Conn, e: Event)
    ensures Overflows(Emit(c, e).events) == Overflows(c.events) + if e.QueueOverflow? then 1 else 0
  {
    assert (c.events + [e])[..|c.events|] == c.events;
  }

  /** Before `close()`, as many overflows have been reported as messages have been dropped. */
  ghost predicate Reported(s: System) {
    !s.c.closedByUser ==> Overflows(s.c.events) == |s.dropped|
  }

  lemma {:induction false} ReportedSend(s: System, msg: Msg)
    requires FlowInv(s) && Reported(s)
    ensures Reported(AfterSend(s, msg))
  {
    OverflowsEmit(s.c, QueueOverflow);
    assert s.c.isOpen ==> s.c.ws.Some?;
    assert |s.c.pendingSends| <= MAX_PENDING_SENDS;
  }

  lemma {:induction false} ReportedActions(s: System, actions: seq<Action>)
    requires FlowInv(s) && Reported(s)
    ensures Reported(AfterActions(s, actions))
    decreases actions
  {
    if actions != [] {
      match actions[0] {
        case Sends(msg) =>
          FlowSend(s, msg);
          ReportedSend(s, msg);
        case Closes => FlowClose(s);
      }
      ReportedActions(AfterAction(s, actions[0]), actions[1..]);
    }
  }

  lemma {:induction false} ReportedSchedule(s: System, reason: Reason, draw: real, onRetry: seq<Action>)
    requires FlowInv(s) && Reported(s)
    ensures Reported(AfterSchedule(s, reason, draw, onRetry))
  {
    if Schedules(s.c, s.cfg) {
      var told := s.(c := Announce(s.c, s.cfg, reason, draw));
      OverflowsEmit(s.c, told.c.events[|told.c.events| - 1]);
      FlowSame(s, told);
      ReportedActions(told, onRetry);
    }
  }

  lemma {:induction false} ReportedEvent(
    told: System, actions: seq<Action>, reason: Reason, draw: real, onRetry: seq<Action>)
    requires FlowInv(told) && Reported(told)
    ensures Reported(AfterSchedule(AfterActions(told, actions), reason, draw, onRetry))
  {
    FlowActions(told, actions);
    ReportedActions(told, actions);
    ReportedSchedule(AfterActions(told, actions), reason, draw, onRetry);
  }

  lemma {:induction false} ReportedTold(s: System, step: Step)
    requires FlowInv(s) && Reported(s) && Enabled(s, step)
    requires step.SocketFails? || step.SocketCloses? || step.UrlFails?
    ensures FlowInv(Told(s, step)) && Reported(Told(s, step))
  {
    FlowSame(s, Told(s, step));
    OverflowsEmit(s.c, if step.SocketCloses? then WsClose else WsError);
  }

  /** On an open socket no send overflows. */
  lemma {:induction false} ReportedOpen(s: System, actions: seq<Action>)
    requires FlowInv(s) && Reported(s) && Enabled(s, SocketOpens(actions))
    ensures Reported(AfterOpen(s, actions))
  {
    OpenSends(s.c, s.c.ws.value, actions);
    OverflowsEmit(s.c.(isOpen := true, reconnectAttempts := 0), WsOpen);
  }

  lemma {:induction false} ReportedStep(s: System, step: Step)
    requires FlowInv(s) && Reported(s)
    ensures Reported(Next(s, step))
  {
    if Enabled(s, step) {
      match step
      case Send(msg) => ReportedSend(s, msg);
      case SocketOpens(actions) => ReportedOpen(s, actions);
      case SocketFails(draw, onError, onRetry) =>
        ReportedTold(s, step);
        ReportedEvent(Told(s, step), onError, OnFailed, draw, onRetry);
      case SocketCloses(draw, onClose, onRetry) =>
        ReportedTold(s, step);
        ReportedEvent(Told(s, step), onClose, OnClosed, draw, onRetry);
      case UrlFails(draw, onError, onRetry) =>
        ReportedTold(s, step);
        ReportedEvent(Told(s, step), onError, OnFailed, draw, onRetry);
      case _ =>
    }
  }

  /** In every run, before `close()`, each message dropped from the outbox has been reported, and nothing else has. */
  lemma {:induction false} OverflowsReported(cfg: NormalizedRetryConfig, steps: seq<Step>)
    ensures Reported(RunFrom(Init(cfg), steps))
  {
    if steps != [] {
      OverflowsReported(cfg, steps[..|steps| - 1]);
      InvAlways(cfg, steps[..|steps| - 1]);
      ReportedStep(RunFrom(Init(cfg), steps[..|steps| - 1]), steps[|steps| - 1]);
    }
  }

  // ------------------------------------------------------------ the delays

  function Delays(reconnects: seq<Event>): (r: seq<int>)
    ensures |r| == |reconnects|
  {
    Map(reconnects, (e: Event) => if e.WsReconnecting? then e.delayMs else 0)
  }

  lemma {:induction false} GrownDelay(grown: real, d: int, next: int)
    requires if grown > 0.0 then d as real < 1.2 * grown else d == 0
    requires if grown > 0.0 then (0.8 * (2.0 * grown)).Floor <= next else next == 0
    ensures d <= next
  {
    if grown > 0.0 {
      assert d as real <= 0.8 * (2.0 * grown);
      FloorMonotone(d as real, 0.8 * (2.0 * grown));
    }
  }

  /** Backoff number `k + 1` is not capped. */
  predicate BelowCap(cfg: NormalizedRetryConfig, k: nat) {
    0.0 <= cfg.initialDelayMs && cfg.initialDelayMs * (Pow2(k + 1) as real) <= cfg.maxDelayMs
  }

  lemma {:induction false} BackoffDoubles(cfg: NormalizedRetryConfig, k: nat)
    requires BelowCap(cfg, k)
    ensures 0.0 <= Backoff(cfg, k) && Backoff(cfg, k + 1) == 2.0 * Backoff(cfg, k)
  {
    DoubledIs(cfg.initialDelayMs, k);
    DoubledIs(cfg.initialDelayMs, k + 1);
    DoubledScales(cfg.initialDelayMs, k);
  }

  lemma {:induction false} DelaysGrow(cfg: NormalizedRetryConfig, k: nat, d: int, next: int)
    requires DelayFits(cfg, k, d) && DelayFits(cfg, k + 1, next) && BelowCap(cfg, k)
    ensures d <= next
  {
    BackoffDoubles(cfg, k);
    GrownDelay(Backoff(cfg, k), d, next);
  }

  lemma {:induction false} DelayBelow(cfg: NormalizedRetryConfig, k: nat, d: int)
    requires DelayFits(cfg, k, d) && cfg.initialDelayMs > 0.0
    ensures d as real < Doubled(1.2 * cfg.initialDelayMs, k)
  {
    DoubledScales(cfg.initialDelayMs, k);
    DoubledIs(cfg.initialDelayMs, k);
    assert Backoff(cfg, k) <= Doubled(cfg.initialDelayMs, k);
  }

  /** 1.2 · initial · (2ⁿ − 1). */
  function SumBound(initial: real, n: nat): real {
    1.2 * initial * ((Pow2(n) as real) - 1.0)
  }

  lemma {:induction false} Factor(c: real, p: real)
    ensures c * p - c == c * (p - 1.0)
  {
  }

  lemma {:induction false} SumBoundIs(initial: real, n: nat)
    ensures Doubled(1.2 * initial, n) - 1.2 * initial == SumBound(initial, n)
  {
    DoubledIs(1.2 * initial, n);
    Factor(1.2 * initial, Pow2(n) as real);
  }

  lemma {:induction false} DelaysSum(cfg: NormalizedRetryConfig, delays: seq<int>)
    requires AllFit(delays, cfg) && cfg.initialDelayMs > 0.0 && delays != []
    ensures Sum(delays) as real < SumBound(cfg.initialDelayMs, |delays|)
  {
    forall i | 0 <= i < |delays| ensures delays[i] as real < Doubled(1.2 * cfg.initialDelayMs, i) {
      DelayBelow(cfg, i, delays[i]);
    }
    DoublingSum(delays, 1.2 * cfg.initialDelayMs);
    SumBoundIs(cfg.initialDelayMs, |delays|);
  }

  ghost predicate AllFit(delays: seq<int>, cfg: NormalizedRetryConfig) {
    forall k :: 0 <= k < |delays| ==> DelayFits(cfg, k, delays[k])
  }

  /** Below the cap no delay is shorter than the one before it. */
  ghost predicate NeverShrink(delays: seq<int>, cfg: NormalizedRetryConfig) {
    forall k :: 0 <= k < |delays| - 1 && BelowCap(cfg, k) ==> delays[k] <= delays[k + 1]
  }

  /**
   In every run, the reconnects announced since the last open wait d0, d1, d2, …: each within a fifth of the initial
   delay doubled that often and capped; none shorter than the one before it below the cap; n of them together less than
   1.2 · initial · (2ⁿ − 1); and each for the reason reported last.
   */
  lemma {:induction false} AnnouncedDelays(cfg: NormalizedRetryConfig, steps: seq<Step>)
    ensures
      var c := RunFrom(Init(cfg), steps).c;
      var delays := Delays(Reconnects(c.events));
      && |delays| == c.reconnectAttempts && AllFit(delays, cfg) && NeverShrink(delays, cfg)
      && (delays != [] && cfg.initialDelayMs > 0.0 ==>
           Sum(delays) as real < SumBound(cfg.initialDelayMs, |delays|))
      && ReasonsGiven(c.events)
  {
    AnnounceAlways(cfg, steps);
    FittingDelays(Reconnects(RunFrom(Init(cfg), steps).c.events), cfg);
  }

  lemma {:induction false} FittingDelays(reconnects: seq<Event>, cfg: NormalizedRetryConfig)
    requires DelaysFit(reconnects, cfg)
    ensures
      var delays := Delays(reconnects);
      && AllFit(delays, cfg) && NeverShrink(delays, cfg)
      && (delays != [] && cfg.initialDelayMs > 0.0 ==>
           Sum(delays) as real < SumBound(cfg.initialDelayMs, |delays|))
  {
    var delays := Delays(reconnects);
    forall k | 0 <= k < |delays| ensures DelayFits(cfg, k, delays[k]) {
      assert delays[k] == reconnects[k].delayMs;
    }
    forall k | 0 <= k < |delays| - 1 && BelowCap(cfg, k) ensures delays[k] <= delays[k + 1] {
      DelaysGrow(cfg, k, delays[k], delays[k + 1]);
    }
    if delays != [] && cfg.initialDelayMs > 0.0 {
      DelaysSum(cfg, delays);
    }
  }

  /** A setting that is given wins over its default, and the defaults wait one to thirty seconds and never give up. */
  lemma {:induction false} DefaultsOfConnection(given: RetryConfig, k: nat)
    ensures
      var cfg := NormalizeRetryConfig(Some(given), WS_RETRY_DEFAULTS);
      var plain := NormalizeRetryConfig(None, WS_RETRY_DEFAULTS);
      && (forall b :: given.enabled == Some(b) ==> cfg.enabled == b)
      && (forall x :: given.initialDelayMs == Some(x) ==> cfg.initialDelayMs == x)
      && (forall x :: given.maxDelayMs == Some(x) ==> cfg.maxDelayMs == x)
      && (forall n :: given.maxRetries == Some(n) ==> cfg.maxRetries == n)
      && NormalizeRetryConfig(Some(RetryConfig(None, None, None, None)), WS_RETRY_DEFAULTS) == plain
      && plain.enabled && plain.maxRetries.Infinity?
      && Backoff(plain, k) == if k < 5 then 1000.0 * (Pow2(k) as real) else 30000.0
  {
    PowersFromFive(k);
  }

  lemma {:induction false} PowersFromFive(k: nat)
    ensures k < 5 ==> Pow2(k) <= 16
    ensures k >= 5 ==> Pow2(k) >= 32
  {
    if k > 5 {
      PowersFromFive(k - 1);
    } else {
      assert Pow2(0) == 1 && Pow2(1) == 2 && Pow2(2) == 4 && Pow2(3) == 8 && Pow2(4) == 16 && Pow2(5) == 32;
    }
  }
}
