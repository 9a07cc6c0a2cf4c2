/** The process supervisor: a state machine driven by start, stop, child exit, child error and the restart timer. */
module Supervisor {
  import opened Seqs

  type Pid = nat
  type TimerId = nat

  const STABILITY_THRESHOLD_MS := 300000
  const INACTIVITY_THRESHOLD_MS := 30000

  datatype ProcessState = Stopped | Starting | Running | Stopping | Crashed

  /** How a child ended: exactly one of the two is set, `null` being None. */
  datatype Exit = Exit(code: Option<int>, signal: Option<string>)

  datatype Options = Options(autoRestart: bool, maxRestarts: int) {
    /** The restart budget; a negative setting allows none. */
    function Budget(): nat {
      if maxRestarts < 0 then 0 else maxRestarts
    }
  }

  datatype Event =
    | StateChanged(oldState: ProcessState, newState: ProcessState)
    | ProcessStarted(pid: Pid)
    | ProcessStopped
    | ProcessCrashed(willRestart: bool)
    | RestartFailed(attempt: nat)

  /** The fields of the monitor, the timers the runtime holds for it, and the events it has emitted. */
  datatype Monitor = Monitor(
    state: ProcessState,
    restartCount: nat,
    restartTimer: Option<TimerId>,
    child: Option<Pid>,
    lastSuccessfulStart: Option<int>,
    endTime: Option<int>,
    lastActivity: int,
    armed: set<TimerId>,
    nextTimer: TimerId,
    events: seq<Event>)

  const FRESH := Monitor(Stopped, 0, None, None, None, None, 0, {}, 0, [])

  // ------------------------------------------------- transition functions

  function Emit(m: Monitor, e: Event): Monitor {
    m.(events := m.events + [e])
  }

  function SetState(m: Monitor, newState: ProcessState): Monitor {
    if m.state == newState then m else Emit(m, StateChanged(m.state, newState)).(state := newState)
  }

  function ClearTimer(m: Monitor): Monitor {
    match m.restartTimer
    case None => m
    case Some(id) => m.(armed := m.armed - {id}, restartTimer := None)
  }

  predicate CanStart(state: ProcessState) {
    state == Stopped || state == Crashed
  }

  /** The last run has ended and was long enough to refill the budget. */
  predicate LastRunStable(m: Monitor) {
    m.lastSuccessfulStart.Some? && m.endTime.Some? &&
    m.endTime.value - m.lastSuccessfulStart.value > STABILITY_THRESHOLD_MS
  }

  /** `start()`, with the pid the spawn yields or None when it fails. */
  function StartOutcome(m: Monitor, now: int, spawn: Option<Pid>): Monitor {
    if !CanStart(m.state) then m
    else
      var ready := SetState(m, Starting).(restartCount := if LastRunStable(m) then 0 else m.restartCount);
      match spawn
      case None => SetState(ready.(child := None), Stopped)
      case Some(pid) =>
        Emit(SetState(ready.(child := spawn, endTime := None), Running)
             .(lastActivity := now, lastSuccessfulStart := Some(now)), ProcessStarted(pid))
  }

  predicate ShouldRestartAfterExit(m: Monitor, o: Options, exit: Exit, now: int) {
    && m.restartCount < o.maxRestarts
    && (exit.signal.Some? || exit.code != Some(0) || now - m.lastActivity > INACTIVITY_THRESHOLD_MS)
  }

  predicate WillRestart(m: Monitor, o: Options, exit: Exit, now: int) {
    m.state == Running && o.autoRestart && ShouldRestartAfterExit(m, o, exit, now)
  }

  function ScheduleRestart(m: Monitor): Monitor {
    var c := ClearTimer(m);
    c.(restartCount := m.restartCount + 1, restartTimer := Some(m.nextTimer), armed := c.armed + {m.nextTimer},
       nextTimer := m.nextTimer + 1)
  }

  function ExitOutcome(m: Monitor, o: Options, exit: Exit, now: int): Monitor {
    var ended := m.(endTime := Some(now));
    var restart := WillRestart(m, o, exit, now);
    if m.state == Running && (exit.code != Some(0) || restart) then
      var crashed := Emit(SetState(ended, Crashed), ProcessCrashed(restart));
      if restart then ScheduleRestart(crashed) else crashed
    else if m.state != Stopped then Emit(SetState(ended, Stopped), ProcessStopped)
    else ended
  }

  function ErrorOutcome(m: Monitor): Monitor {
    if m.state == Running || m.state == Starting then SetState(m, Crashed) else m
  }

  /** The part of `stop()` after `killProcess` has resolved. */
  function FinishStop(m: Monitor): Monitor {
    if m.state == Stopping then Emit(SetState(m, Stopped), ProcessStopped) else m
  }

  predicate StopProceeds(m: Monitor) {
    m.state != Stopped && m.state != Starting
  }

  /** `stop()` up to its end, or up to the wait for the child when `waits`. */
  function StopOutcome(m: Monitor, waits: bool): Monitor {
    if !StopProceeds(m) then m
    else
      var stopping := ClearTimer(SetState(m, Stopping));
      if m.child.Some? && waits then stopping else FinishStop(stopping)
  }

  /** The restart timer `id` goes off. */
  function TimerOutcome(m: Monitor, id: TimerId, now: int, spawn: Option<Pid>): Monitor {
    var fired := m.(armed := m.armed - {id}, restartTimer := None);
    if m.state == Stopped || m.state == Stopping then fired
    else
      var started := StartOutcome(fired, now, spawn);
      if CanStart(m.state) && spawn.Some? then started else Emit(started, RestartFailed(started.restartCount))
  }

  // ------------------------------------------------------------- the system
  //
  // The monitor's environment (live children, armed timers, the clock) and what a run leaves behind. The class at the
  // end of the module is the monitor itself, its methods proved against the transition functions above.

  datatype Run = Run(start: int, end: int)

  /** `waiting` counts the `stop()` calls inside `killProcess`; `runs` the completed runs before the latest start. */
  datatype System = System(
    m: Monitor, o: Options, now: nat, live: set<Pid>, used: set<Pid>, waiting: nat, runs: seq<Run>, fired: nat)

  function Init(o: Options): System {
    System(FRESH, o, 0, {}, {}, 0, [], 0)
  }

  datatype Step =
    | Tick(ms: nat)
    | Start(spawn: Option<Pid>)
    | Stop(signalSent: bool)
    | StopResumes
    | ChildExits(pid: Pid, exit: Exit)
    | ChildErrors(pid: Pid)
    | TimerFires(id: TimerId, spawn: Option<Pid>)
    | Output
    | Cleanup(signalSent: bool)

  predicate Spawns(spawn: Option<Pid>, s: System) {
    spawn.Some? ==> spawn.value !in s.used
  }

  predicate Enabled(s: System, step: Step) {
    match step
    case Start(spawn) => Spawns(spawn, s)
    case StopResumes => s.waiting > 0
    case ChildExits(pid, _) => pid in s.live
    case ChildErrors(pid) => pid in s.live
    case TimerFires(id, spawn) => id in s.m.armed && Spawns(spawn, s)
    case _ => true
  }

  /** A stop waits when the monitor's child has not exited and a signal could be sent to it. */
  predicate Waits(s: System, signalSent: bool) {
    s.m.child.Some? && s.m.child.value in s.live && signalSent
  }

  function AfterStart(s: System, m: Monitor, spawn: Option<Pid>, spawned: bool): System {
    if spawned && spawn.Some? then
      s.(m := m, live := s.live + {spawn.value}, used := s.used + {spawn.value},
         runs := if s.m.lastSuccessfulStart.Some? && s.m.endTime.Some?
                 then s.runs + [Run(s.m.lastSuccessfulStart.value, s.m.endTime.value)] else s.runs)
    else s.(m := m)
  }

  function AfterStop(s: System, signalSent: bool): System {
    s.(m := StopOutcome(s.m, Waits(s, signalSent)),
       waiting := if StopProceeds(s.m) && Waits(s, signalSent) then s.waiting + 1 else s.waiting)
  }

  function Take(s: System, step: Step): System
    requires Enabled(s, step)
  {
    match step
    case Tick(ms) => s.(now := s.now + ms)
    case Start(spawn) => AfterStart(s, StartOutcome(s.m, s.now, spawn), spawn, CanStart(s.m.state))
    case Stop(signalSent) => AfterStop(s, signalSent)
    case StopResumes => s.(m := FinishStop(s.m), waiting := s.waiting - 1)
    case ChildExits(pid, exit) => s.(m := ExitOutcome(s.m, s.o, exit, s.now), live := s.live - {pid})
    case ChildErrors(pid) => s.(m := ErrorOutcome(s.m))
    case TimerFires(id, spawn) =>
      AfterStart(s, TimerOutcome(s.m, id, s.now, spawn), spawn, CanStart(s.m.state) && s.m.state != Stopped)
        .(fired := s.fired + 1)
    case Output => s.(m := s.m.(lastActivity := s.now))
    case Cleanup(signalSent) => AfterStop(s.(m := ClearTimer(s.m)), signalSent)
  }

  /** A step that is not enabled does not happen. */
  function Next(s: System, step: Step): System {
    if Enabled(s, step) then Take(s, step) else s
  }

  function RunFrom(s: System, steps: seq<Step>): System {
    if steps == [] then s else Next(RunFrom(s, steps[..|steps| - 1]), steps[|steps| - 1])
  }

  /** `ok` holds of every step of the run, in the state the step is taken in. */
  ghost predicate Throughout(s: System, steps: seq<Step>, ok: (System, Step) -> bool) {
    steps == [] ||
    (Throughout(s, steps[..|steps| - 1], ok) && ok(RunFrom(s, steps[..|steps| - 1]), steps[|steps| - 1]))
  }

  // ------------------------------------------------- what every step keeps

  function Restarts(events: seq<Event>): nat {
    if events == [] then 0
    else Restarts(events[..|events| - 1]) + if events[|events| - 1] == ProcessCrashed(true) then 1 else 0
  }

  lemma {:induction false} RestartsAppend(events: seq<Event>, e: Event)
    ensures Restarts(events + [e]) == Restarts(events) + if e == ProcessCrashed(true) then 1 else 0
  {
  }

  /** `process_stopped` events since the last `process_started`. */
  function StopsSinceStart(events: seq<Event>): nat {
    if events == [] || events[|events| - 1].ProcessStarted? then 0
    else StopsSinceStart(events[..|events| - 1]) + if events[|events| - 1].ProcessStopped? then 1 else 0
  }

  /** Between two successful starts there is at most one `process_stopped`. */
  ghost predicate StopsOncePerStart(events: seq<Event>) {
    forall n :: 0 <= n <= |events| ==> StopsSinceStart(events[..n]) <= 1
  }

  lemma {:induction false} StopsAppend(events: seq<Event>, e: Event)
    ensures StopsSinceStart(events + [e]) ==
      if e.ProcessStarted? then 0 else StopsSinceStart(events) + if e.ProcessStopped? then 1 else 0
    ensures StopsOncePerStart(events) && StopsSinceStart(events + [e]) <= 1 ==> StopsOncePerStart(events + [e])
  {
    var longer := events + [e];
    assert longer[..|events|] == events;
    if StopsOncePerStart(events) && StopsSinceStart(longer) <= 1 {
      forall n | 0 <= n <= |longer| ensures StopsSinceStart(longer[..n]) <= 1 {
        if n <= |events| {
          assert longer[..n] == events[..n];
        } else {
          assert longer[..n] == longer;
        }
      }
    }
  }

  ghost predicate EventsInv(m: Monitor) {
    StopsOncePerStart(m.events) && (StopsSinceStart(m.events) == 1 ==> m.state == Stopped)
  }

  /** The timers the runtime holds are exactly the one the monitor remembers, if any. */
  ghost predicate TimersInv(m: Monitor) {
    && m.armed == (if m.restartTimer.Some? then {m.restartTimer.value} else {})
    && (m.restartTimer.Some? ==> m.restartTimer.value < m.nextTimer)
  }

  ghost predicate MonitorInv(m: Monitor, o: Options) {
    && m.restartCount <= o.Budget()
    && m.state != Starting
    && (m.state == Running ==> m.endTime.None? && m.lastSuccessfulStart.Some?)
    && TimersInv(m) && EventsInv(m)
  }

  lemma {:induction false} SetStateEvents(m: Monitor, st: ProcessState)
    requires StopsOncePerStart(m.events)
    ensures StopsOncePerStart(SetState(m, st).events)
    ensures StopsSinceStart(SetState(m, st).events) == StopsSinceStart(m.events) <= 1
    ensures Restarts(SetState(m, st).events) == Restarts(m.events)
  {
    assert m.events[..|m.events|] == m.events;
    StopsAppend(m.events, StateChanged(m.state, st));
    RestartsAppend(m.events, StateChanged(m.state, st));
  }

  /** Moving to `st` and then emitting `e`, the pattern of every transition. */
  lemma {:induction false} MoveAndEmit(m: Monitor, st: ProcessState, e: Event)
    requires EventsInv(m) && (e.ProcessStopped? ==> m.state != Stopped && st == Stopped)
    ensures
      var events := SetState(m, st).events + [e];
      && StopsOncePerStart(events)
      && StopsSinceStart(events) ==
           (if e.ProcessStarted? then 0 else StopsSinceStart(m.events) + if e.ProcessStopped? then 1 else 0)
      && Restarts(events) == Restarts(m.events) + if e == ProcessCrashed(true) then 1 else 0
  {
    SetStateEvents(m, st);
    StopsAppend(SetState(m, st).events, e);
    RestartsAppend(SetState(m, st).events, e);
  }

  lemma {:induction false} FailedStartKeeps(m: Monitor, o: Options, now: int)
    requires MonitorInv(m, o) && CanStart(m.state)
    ensures MonitorInv(StartOutcome(m, now, None), o)
    ensures Restarts(StartOutcome(m, now, None).events) == Restarts(m.events)
    ensures StartOutcome(m, now, None).armed == m.armed
  {
    var starting := SetState(m, Starting);
    SetStateEvents(m, Starting);
    SetStateEvents(starting, Stopped);
    assert StartOutcome(m, now, None).events == SetState(starting, Stopped).events;
  }

  lemma {:induction false} SpawnKeeps(m: Monitor, o: Options, now: int, pid: Pid)
    requires MonitorInv(m, o) && CanStart(m.state)
    ensures MonitorInv(StartOutcome(m, now, Some(pid)), o)
    ensures Restarts(StartOutcome(m, now, Some(pid)).events) == Restarts(m.events)
    ensures StartOutcome(m, now, Some(pid)).armed == m.armed
  {
    var starting := SetState(m, Starting);
    SetStateEvents(m, Starting);
    StartedEvents(starting, pid);
    assert StartOutcome(m, now, Some(pid)).events == SetState(starting, Running).events + [ProcessStarted(pid)];
  }

  lemma {:induction false} StartKeeps(m: Monitor, o: Options, now: int, spawn: Option<Pid>)
    requires MonitorInv(m, o)
    ensures MonitorInv(StartOutcome(m, now, spawn), o)
    ensures Restarts(StartOutcome(m, now, spawn).events) == Restarts(m.events)
    ensures StartOutcome(m, now, spawn).armed == m.armed
  {
    if CanStart(m.state) {
      match spawn
      case None => FailedStartKeeps(m, o, now);
      case Some(pid) => SpawnKeeps(m, o, now, pid);
    }
  }

  lemma {:induction false} StartedEvents(ready: Monitor, pid: Pid)
    requires StopsOncePerStart(ready.events)
    ensures
      var events := SetState(ready, Running).events + [ProcessStarted(pid)];
      StopsOncePerStart(events) && StopsSinceStart(events) == 0 && Restarts(events) == Restarts(ready.events)
  {
    SetStateEvents(ready, Running);
    StopsAppend(SetState(ready, Running).events, ProcessStarted(pid));
    RestartsAppend(SetState(ready, Running).events, ProcessStarted(pid));
  }

  lemma {:induction false} CrashKeeps(m: Monitor, o: Options, exit: Exit, now: int)
    requires MonitorInv(m, o) && m.state == Running && (exit.code != Some(0) || WillRestart(m, o, exit, now))
    ensures MonitorInv(ExitOutcome(m, o, exit, now), o)
    ensures
      Restarts(ExitOutcome(m, o, exit, now).events) ==
      Restarts(m.events) + if WillRestart(m, o, exit, now) then 1 else 0
  {
    MoveAndEmit(m.(endTime := Some(now)), Crashed, ProcessCrashed(WillRestart(m, o, exit, now)));
  }

  lemma {:induction false} ExitKeeps(m: Monitor, o: Options, exit: Exit, now: int)
    requires MonitorInv(m, o)
    ensures MonitorInv(ExitOutcome(m, o, exit, now), o)
    ensures
      Restarts(ExitOutcome(m, o, exit, now).events) ==
      Restarts(m.events) + if WillRestart(m, o, exit, now) then 1 else 0
  {
    if m.state == Running && (exit.code != Some(0) || WillRestart(m, o, exit, now)) {
      CrashKeeps(m, o, exit, now);
    } else if m.state != Stopped {
      MoveAndEmit(m.(endTime := Some(now)), Stopped, ProcessStopped);
    }
  }

  lemma {:induction false} FinishKeeps(m: Monitor, o: Options)
    requires MonitorInv(m, o)
    ensures MonitorInv(FinishStop(m), o)
    ensures Restarts(FinishStop(m).events) == Restarts(m.events)
  {
    if m.state == Stopping {
      MoveAndEmit(m, Stopped, ProcessStopped);
    }
  }

  lemma {:induction false} StopKeeps(m: Monitor, o: Options, waits: bool)
    requires MonitorInv(m, o)
    ensures MonitorInv(StopOutcome(m, waits), o)
    ensures Restarts(StopOutcome(m, waits).events) == Restarts(m.events)
  {
    if StopProceeds(m) {
      SetStateEvents(m, Stopping);
      FinishKeeps(ClearTimer(SetState(m, Stopping)), o);
    }
  }

  lemma {:induction false} RestartFailedKeeps(m: Monitor, o: Options)
    requires MonitorInv(m, o)
    ensures MonitorInv(Emit(m, RestartFailed(m.restartCount)), o)
    ensures Restarts(Emit(m, RestartFailed(m.restartCount)).events) == Restarts(m.events)
  {
    assert m.events[..|m.events|] == m.events;
    StopsAppend(m.events, RestartFailed(m.restartCount));
    RestartsAppend(m.events, RestartFailed(m.restartCount));
  }

  lemma {:induction false} TimerKeeps(m: Monitor, o: Options, id: TimerId, now: int, spawn: Option<Pid>)
    requires MonitorInv(m, o) && id in m.armed
    ensures MonitorInv(TimerOutcome(m, id, now, spawn), o)
    ensures Restarts(TimerOutcome(m, id, now, spawn).events) == Restarts(m.events)
    ensures m.armed == {id} && TimerOutcome(m, id, now, spawn).armed == {}
  {
    var fired := m.(armed := m.armed - {id}, restartTimer := None);
    assert fired.armed == {};
    StartKeeps(fired, o, now, spawn);
    RestartFailedKeeps(StartOutcome(fired, now, spawn), o);
  }

  /** Every run keeps the budget, the timer bookkeeping and the event discipline. */
  lemma {:induction false} MonitorInvStep(s: System, step: Step)
    requires MonitorInv(s.m, s.o)
    ensures MonitorInv(Next(s, step).m, s.o) && Next(s, step).o == s.o
  {
    if Enabled(s, step) {
      match step
      case Start(spawn) => StartKeeps(s.m, s.o, s.now, spawn);
      case Stop(sent) => StopKeeps(s.m, s.o, Waits(s, sent));
      case Cleanup(sent) => StopKeeps(ClearTimer(s.m), s.o, Waits(s, sent));
      case StopResumes => FinishKeeps(s.m, s.o);
      case ChildExits(pid, exit) => ExitKeeps(s.m, s.o, exit, s.now);
      case ChildErrors(pid) => SetStateEvents(s.m, Crashed);
      case TimerFires(id, spawn) => TimerKeeps(s.m, s.o, id, s.now, spawn);
      case _ =>
    }
  }

  // ------------------------------------------------------ one live child

  /** Children alive at most the monitor's own, and none where `start()` would spawn another. */
  ghost predicate OneChild(s: System) {
    && (forall p :: p in s.live ==> s.m.child == Some(p) && p in s.used)
    && (CanStart(s.m.state) ==> s.live == {})
    && s.m.state != Starting
  }

  /** The ways the monitor settles into a startable state beside a child that has not exited. */
  predicate GivesUpOnChild(s: System, step: Step) {
    s.live != {} && Enabled(s, step) &&
    match step
    case ChildErrors(_) => s.m.state == Running
    case StopResumes => s.m.state == Stopping
    case Stop(sent) => StopProceeds(s.m) && !Waits(s, sent)
    case Cleanup(sent) => StopProceeds(s.m) && !Waits(s, sent)
    case _ => false
  }

  lemma {:induction false} OneChildStep(s: System, step: Step)
    requires OneChild(s)
    ensures OneChild(Next(s, step)) <==> !GivesUpOnChild(s, step)
  {
    if s.live != {} {
      var p :| p in s.live;
      assert s.live == {p};
    }
  }

  /** At most one child lives while no error event, kill timeout or failed signal makes the monitor give up on one. */
  lemma {:induction false} OneLiveChild(o: Options, steps: seq<Step>)
    requires Throughout(Init(o), steps, (s, step) => !GivesUpOnChild(s, step))
    ensures OneChild(RunFrom(Init(o), steps)) && |RunFrom(Init(o), steps).live| <= 1
  {
    var s := RunFrom(Init(o), steps);
    if steps != [] {
      OneLiveChild(o, steps[..|steps| - 1]);
      OneChildStep(RunFrom(Init(o), steps[..|steps| - 1]), steps[|steps| - 1]);
    }
    if s.live != {} {
      var p :| p in s.live;
      assert s.live == {p};
    }
  }

  lemma {:induction false} GivingUpLeavesChild(s: System, step: Step)
    requires OneChild(s) && GivesUpOnChild(s, step)
    ensures
      var t := Next(s, step);
      CanStart(t.m.state) && t.live == s.live && t.used == s.used
  {
  }

  /** After giving up on a child, the next start really runs a second one beside it. */
  lemma {:induction false} GivingUpAllowsTwo(s: System, step: Step, pid: Pid)
    requires OneChild(s) && GivesUpOnChild(s, step) && pid !in s.used
    ensures |Next(Next(s, step), Start(Some(pid))).live| == 2
  {
    var p :| p in s.live;
    assert s.live == {p};
    GivingUpLeavesChild(s, step);
    StartSpawns(Next(s, step), pid);
    assert s.live + {pid} == {p, pid};
  }

  lemma {:induction false} StartSpawns(s: System, pid: Pid)
    requires CanStart(s.m.state) && pid !in s.used
    ensures Next(s, Start(Some(pid))).live == s.live + {pid}
  {
  }

  /** From a fresh monitor it takes a start, an error event of the running child and another start. */
  lemma {:induction false} TwoChildrenReachable(o: Options)
    ensures RunFrom(Init(o), [Start(Some(0)), ChildErrors(0), Start(Some(1))]).live == {0, 1}
  {
    var steps := [Start(Some(0)), ChildErrors(0), Start(Some(1))];
    var s1 := Next(Init(o), Start(Some(0)));
    assert s1.m.state == Running && s1.live == {0};
    var s2 := Next(s1, ChildErrors(0));
    assert s2.m.state == Crashed && s2.live == {0};
    FirstTwo(Init(o), steps);
  }

  lemma {:induction false} FirstTwo(s: System, steps: seq<Step>)
    requires |steps| == 3
    ensures RunFrom(s, steps[..2]) == Next(Next(s, steps[0]), steps[1])
  {
    assert steps[..2][..1][..0] == [] && steps[..2][..1][0] == steps[0] && steps[..2][1] == steps[1];
    assert RunFrom(s, steps[..2][..1]) == Next(s, steps[0]);
  }

  // ------------------------------------------------------- explicit stops

  ghost predicate HeldStopped(s: System) {
    (s.m.state == Stopping || s.m.state == Stopped) && (s.m.armed, s.m.restartTimer) == ({}, None)
  }

  /** `longer` continues `shorter` without a crash. */
  ghost predicate NoCrashSince(shorter: seq<Event>, longer: seq<Event>) {
    shorter <= longer && forall i :: |shorter| <= i < |longer| ==> !longer[i].ProcessCrashed?
  }

  lemma {:induction false} StopHoldsAtOnce(s: System, sent: bool)
    requires MonitorInv(s.m, s.o) && StopProceeds(s.m)
    ensures HeldStopped(Next(s, Stop(sent))) && NoCrashSince(s.m.events, Next(s, Stop(sent)).m.events)
  {
    var stopping := ClearTimer(SetState(s.m, Stopping));
    assert stopping.armed == {};
    assert NoCrashSince(s.m.events, stopping.events);
  }

  lemma {:induction false} HeldStep(s: System, step: Step)
    requires HeldStopped(s) && !step.Start?
    ensures HeldStopped(Next(s, step)) && NoCrashSince(s.m.events, Next(s, step).m.events)
    ensures Next(s, step).live <= s.live
  {
  }

  /**
   After `stop()` nothing but a new `start()` call leaves the stopping or stopped state: no crash is reported, no
   restart is scheduled and no child is spawned, whichever of exit, timeout, error and stale timer comes first.
   */
  lemma {:induction false} StopIsFinal(s: System, sent: bool, steps: seq<Step>)
    requires MonitorInv(s.m, s.o) && StopProceeds(s.m)
    requires forall step :: step in steps ==> !step.Start?
    ensures
      var t := RunFrom(Next(s, Stop(sent)), steps);
      HeldStopped(t) && NoCrashSince(s.m.events, t.m.events) && t.live <= s.live
  {
    if steps == [] {
      StopHoldsAtOnce(s, sent);
    } else {
      assert steps[|steps| - 1] in steps;
      StopIsFinal(s, sent, steps[..|steps| - 1]);
      HeldStep(RunFrom(Next(s, Stop(sent)), steps[..|steps| - 1]), steps[|steps| - 1]);
    }
  }

  // -------------------------------------------------------- stale timers

  /** The monitor's own record of a spawn: the last event announces the child it now holds. */
  predicate Announces(before: Monitor, after: Monitor, pid: Pid) {
    && |after.events| > |before.events| && after.events[|after.events| - 1] == ProcessStarted(pid)
    && after.child == Some(pid)
  }

  /** In every step, a child comes to life exactly when the monitor's transition announces and holds it. */
  lemma {:induction false} SpawnsAreAnnounced(s: System, step: Step, pid: Pid)
    requires pid !in s.live
    ensures pid in Next(s, step).live <==> Announces(s.m, Next(s, step).m, pid)
  {
  }

  /** A restart timer that goes off starts a child exactly when the monitor is crashed at that moment. */
  lemma {:induction false} TimerSpawnsIffCrashed(s: System, id: TimerId, pid: Pid)
    requires Enabled(s, TimerFires(id, Some(pid))) && s.m.state != Starting && pid !in s.live
    ensures
      var t := Next(s, TimerFires(id, Some(pid)));
      && (pid in t.live <==> s.m.state == Crashed)
      && (Announces(s.m, t.m, pid) <==> s.m.state == Crashed)
      && (s.m.state != Crashed ==> t.m.state == s.m.state && t.m.child == s.m.child)
  {
  }

  /**
   So a timer that survived a manual start is harmless while that run goes on, but not once it has crashed: with the
   budget spent the monitor announces that it will not restart, leaves the old timer armed, and restarts anyway.
   */
  lemma {:induction false} StaleTimerRespawns(s: System, child: Pid, exit: Exit, id: TimerId, pid: Pid)
    requires MonitorInv(s.m, s.o) && s.m.state == Running && child in s.live && id in s.m.armed
    requires s.m.restartCount >= s.o.maxRestarts && exit.code != Some(0) && pid !in s.used
    ensures
      var crashed := Next(s, ChildExits(child, exit));
      var revived := Next(crashed, TimerFires(id, Some(pid)));
      && crashed.m.state == Crashed && crashed.m.events[|crashed.m.events| - 1] == ProcessCrashed(false)
      && revived.m.state == Running && pid in revived.live
  {
  }

  /** Such a state is reached by one crash, one manual start before the timer, and a budget of one. */
  lemma {:induction false} StaleTimerReachable()
    ensures
      var o := Options(true, 1);
      var s := RunFrom(Init(o), [Start(Some(0)), ChildExits(0, Exit(Some(1), None)), Start(Some(1))]);
      s.m.state == Running && s.live == {1} && s.m.armed == {0} && s.m.restartCount >= s.o.maxRestarts
  {
    var o := Options(true, 1);
    var s1 := Next(Init(o), Start(Some(0)));
    assert s1.m.state == Running && s1.live == {0};
    var s2 := Next(s1, ChildExits(0, Exit(Some(1), None)));
    assert s2.m.state == Crashed && s2.m.restartCount == 1 && s2.m.armed == {0};
    var steps := [Start(Some(0)), ChildExits(0, Exit(Some(1), None)), Start(Some(1))];
    FirstTwo(Init(o), steps);
  }

  // --------------------------------------------------- the restart budget

  predicate Stable(r: Run) {
    r.end - r.start > STABILITY_THRESHOLD_MS
  }

  function CountStable(runs: seq<Run>): nat {
    if runs == [] then 0 else CountStable(runs[..|runs| - 1]) + if Stable(runs[|runs| - 1]) then 1 else 0
  }

  /** Completed runs that lasted longer than five minutes. */
  function StableRuns(s: System): nat {
    CountStable(s.runs) + if LastRunStable(s.m) then 1 else 0
  }

  /** Scheduled restarts, and the timers that went off, against the budget, in stable runs and in time. */
  ghost predicate WithinBudget(s: System) {
    && Restarts(s.m.events) <= s.o.Budget() * (1 + StableRuns(s))
    && Restarts(s.m.events) <= s.o.Budget() * (1 + s.now / STABILITY_THRESHOLD_MS)
    && s.fired <= Restarts(s.m.events)
  }

  /**
   The amortised restart budget, over every run: scheduled restarts are at most one budget plus one per completed run
   longer than five minutes, and since such runs are disjoint, at most `maxRestarts * (1 + T / 300000)` within T ms.
   The timers that went off are covered by the same bound.
   */
  lemma {:induction false} RestartBudget(o: Options, steps: seq<Step>)
    ensures WithinBudget(RunFrom(Init(o), steps)) && RunFrom(Init(o), steps).o == o
  {
    AccountAlways(o, steps);
    SpendingAt(RunFrom(Init(o), steps));
  }

  /** The named consequences, for every run whatever the environment does. */
  lemma {:induction false} LifecycleSafety(o: Options, steps: seq<Step>)
    ensures
      var m := RunFrom(Init(o), steps).m;
      && m.restartCount <= o.Budget()
      && |m.armed| <= 1
      && StopsOncePerStart(m.events)
  {
    AccountAlways(o, steps);
  }

  lemma {:induction false} CountStableAppend(runs: seq<Run>, r: Run)
    ensures CountStable(runs + [r]) == CountStable(runs) + if Stable(r) then 1 else 0
  {
  }

  /** `n` budgets of `b` restarts each. */
  function Budgets(b: nat, n: nat): nat {
    if n == 0 then 0 else b + Budgets(b, n - 1)
  }

  lemma {:induction false} BudgetsIsProduct(b: nat, n: nat)
    ensures Budgets(b, n) == b * n
  {
    if n > 0 {
      BudgetsIsProduct(b, n - 1);
    }
  }

  /**
   The amortised account: what was spent is covered by the counter and one budget per stable run, where the last run
   counts once it has refilled the counter.
   */
  ghost predicate BudgetInv(s: System) {
    var spent, budget, done := Restarts(s.m.events), s.o.Budget(), CountStable(s.runs);
    || spent <= s.m.restartCount + Budgets(budget, done)
    || (LastRunStable(s.m) && s.m.restartCount == 0 && spent <= Budgets(budget, done + 1))
  }

  /** Runs are disjoint intervals of the clock, and every armed or fired timer was paid for by a scheduled restart. */
  ghost predicate ClockInv(s: System) {
    && (s.m.lastSuccessfulStart.None? ==> s.runs == [] && s.live == {} && s.m.endTime.None?)
    && (s.m.lastSuccessfulStart.Some? ==>
          STABILITY_THRESHOLD_MS * CountStable(s.runs) <= s.m.lastSuccessfulStart.value <= s.now)
    && (s.m.lastSuccessfulStart.Some? && s.m.endTime.Some? ==>
          s.m.lastSuccessfulStart.value <= s.m.endTime.value <= s.now)
    && s.fired + |s.m.armed| <= Restarts(s.m.events)
  }

  ghost predicate AccountInv(s: System) {
    BudgetInv(s) && ClockInv(s)
  }

  /** What a start does to the counter and to the times of the last run. */
  predicate Started(before: Monitor, after: Monitor, now: int, spawn: Option<Pid>) {
    && after.restartCount == (if LastRunStable(before) then 0 else before.restartCount)
    && (spawn.Some? ==> after.lastSuccessfulStart == Some(now) && after.endTime.None?)
    && (spawn.None? ==> after.lastSuccessfulStart == before.lastSuccessfulStart && after.endTime == before.endTime)
  }

  lemma {:induction false} StartAccount(s: System, m: Monitor, spawn: Option<Pid>)
    requires MonitorInv(s.m, s.o) && AccountInv(s)
    requires CanStart(s.m.state) && Restarts(m.events) == Restarts(s.m.events)
    requires s.fired + |m.armed| <= Restarts(m.events)
    requires Started(s.m, m, s.now, spawn)
    ensures AccountInv(AfterStart(s, m, spawn, true))
  {
    if spawn.Some? && s.m.lastSuccessfulStart.Some? && s.m.endTime.Some? {
      var r := Run(s.m.lastSuccessfulStart.value, s.m.endTime.value);
      CountStableAppend(s.runs, r);
    }
    assert CountStable([]) == 0;
    Covered(s);
  }

  /** When the last run was stable, one more budget covers what was spent even with the counter at zero. */
  lemma {:induction false} Covered(s: System)
    requires MonitorInv(s.m, s.o) && AccountInv(s)
    ensures Restarts(s.m.events) <= Budgets(s.o.Budget(), CountStable(s.runs) + 1)
    ensures !LastRunStable(s.m) ==>
              Restarts(s.m.events) <= s.m.restartCount + Budgets(s.o.Budget(), CountStable(s.runs))
  {
  }

  lemma {:induction false} StartFields(m: Monitor, now: int, spawn: Option<Pid>)
    requires CanStart(m.state)
    ensures Started(m, StartOutcome(m, now, spawn), now, spawn)
  {
  }

  lemma {:induction false} AccountStart(s: System, spawn: Option<Pid>)
    requires MonitorInv(s.m, s.o) && AccountInv(s) && Enabled(s, Start(spawn))
    ensures AccountInv(Take(s, Start(spawn)))
  {
    StartKeeps(s.m, s.o, s.now, spawn);
    if CanStart(s.m.state) {
      StartFields(s.m, s.now, spawn);
      StartAccount(s, StartOutcome(s.m, s.now, spawn), spawn);
    }
  }

  /** The timer that fires leaves the armed set and is counted as fired. */
  lemma {:induction false} FiredAccount(s: System, id: TimerId)
    requires MonitorInv(s.m, s.o) && AccountInv(s) && id in s.m.armed
    ensures
      var t := s.(fired := s.fired + 1, m := s.m.(armed := {}, restartTimer := None));
      s.m.armed - {id} == {} && MonitorInv(t.m, t.o) && AccountInv(t)
  {
  }

  /** The timer's callback schedules nothing and leaves no timer armed. */
  lemma {:induction false} TimerSpends(m: Monitor, o: Options, id: TimerId, now: int, spawn: Option<Pid>)
    requires MonitorInv(m, o) && id in m.armed
    ensures Restarts(TimerOutcome(m, id, now, spawn).events) == Restarts(m.events)
    ensures TimerOutcome(m, id, now, spawn).armed == {}
  {
    TimerKeeps(m, o, id, now, spawn);
  }

  lemma {:induction false} AccountTimerCrashed(s: System, id: TimerId, spawn: Option<Pid>)
    requires MonitorInv(s.m, s.o) && AccountInv(s) && Enabled(s, TimerFires(id, spawn)) && s.m.state == Crashed
    ensures AccountInv(Take(s, TimerFires(id, spawn)))
  {
    var t := s.(fired := s.fired + 1, m := s.m.(armed := {}, restartTimer := None));
    FiredAccount(s, id);
    TimerSpends(s.m, s.o, id, s.now, spawn);
    StartFields(t.m, s.now, spawn);
    StartAccount(t, TimerOutcome(s.m, id, s.now, spawn), spawn);
  }

  lemma {:induction false} AccountTimerIdle(s: System, id: TimerId, spawn: Option<Pid>)
    requires MonitorInv(s.m, s.o) && AccountInv(s) && Enabled(s, TimerFires(id, spawn)) && s.m.state != Crashed
    ensures AccountInv(Take(s, TimerFires(id, spawn)))
  {
    FiredAccount(s, id);
    TimerSpends(s.m, s.o, id, s.now, spawn);
    AccountSame(s.(fired := s.fired + 1, m := s.m.(armed := {}, restartTimer := None)), Take(s, TimerFires(id, spawn)));
  }

  lemma {:induction false} AccountTimer(s: System, id: TimerId, spawn: Option<Pid>)
    requires MonitorInv(s.m, s.o) && AccountInv(s) && Enabled(s, TimerFires(id, spawn))
    ensures AccountInv(Take(s, TimerFires(id, spawn)))
  {
    if s.m.state == Crashed {
      AccountTimerCrashed(s, id, spawn);
    } else {
      AccountTimerIdle(s, id, spawn);
    }
  }

  /** An exit spends one restart exactly when it schedules one. */
  lemma {:induction false} ExitSpends(m: Monitor, o: Options, exit: Exit, now: int)
    requires MonitorInv(m, o)
    ensures
      var t, n := ExitOutcome(m, o, exit, now), if WillRestart(m, o, exit, now) then 1 else 0;
      && Restarts(t.events) == Restarts(m.events) + n && t.restartCount == m.restartCount + n
      && |t.armed| <= |m.armed| + n
      && t.endTime == Some(now) && t.lastSuccessfulStart == m.lastSuccessfulStart
      && (n == 1 ==> m.state == Running)
  {
    ExitKeeps(m, o, exit, now);
  }

  lemma {:induction false} AccountExit(s: System, pid: Pid, exit: Exit)
    requires MonitorInv(s.m, s.o) && AccountInv(s) && Enabled(s, ChildExits(pid, exit))
    ensures AccountInv(Take(s, ChildExits(pid, exit)))
  {
    ExitSpends(s.m, s.o, exit, s.now);
  }

  lemma {:induction false} StopSpends(m: Monitor, o: Options, waits: bool)
    requires MonitorInv(m, o)
    ensures Restarts(StopOutcome(m, waits).events) == Restarts(m.events)
    ensures StopOutcome(m, waits).armed == m.armed || StopOutcome(m, waits).armed == {}
  {
    StopKeeps(m, o, waits);
  }

  lemma {:induction false} AccountStop(s: System, waits: bool)
    requires MonitorInv(s.m, s.o) && AccountInv(s)
    ensures AccountInv(s.(m := StopOutcome(s.m, waits)))
  {
    StopSpends(s.m, s.o, waits);
  }

  /** Nothing that the account speaks of has changed, except that time may have passed. */
  ghost predicate SameAccount(s: System, t: System) {
    && t == s.(m := t.m, now := t.now, waiting := t.waiting) && s.now <= t.now
    && t.m == s.m.(state := t.m.state, lastActivity := t.m.lastActivity, events := t.m.events)
    && Restarts(t.m.events) == Restarts(s.m.events)
  }

  lemma {:induction false} AccountSame(s: System, t: System)
    requires AccountInv(s) && SameAccount(s, t)
    ensures AccountInv(t)
  {
  }

  lemma {:induction false} AccountStep(s: System, step: Step)
    requires MonitorInv(s.m, s.o) && AccountInv(s)
    ensures AccountInv(Next(s, step))
  {
    if Enabled(s, step) {
      match step
      case Start(spawn) => AccountStart(s, spawn);
      case Stop(sent) => AccountStop(s, Waits(s, sent));
      case Cleanup(sent) => AccountCleanup(s, sent);
      case StopResumes =>
        FinishKeeps(s.m, s.o);
        AccountSame(s, Next(s, step));
      case ChildExits(pid, exit) => AccountExit(s, pid, exit);
      case ChildErrors(pid) =>
        SetStateEvents(s.m, Crashed);
        AccountSame(s, Next(s, step));
      case TimerFires(id, spawn) => AccountTimer(s, id, spawn);
      case Tick(ms) => AccountSame(s, Next(s, step));
      case Output => AccountSame(s, Next(s, step));
    }
  }

  lemma {:induction false} ClearKeeps(s: System)
    requires MonitorInv(s.m, s.o) && AccountInv(s)
    ensures MonitorInv(ClearTimer(s.m), s.o) && AccountInv(s.(m := ClearTimer(s.m)))
  {
    assert ClearTimer(s.m).armed == {};
  }

  lemma {:induction false} AccountCleanup(s: System, sent: bool)
    requires MonitorInv(s.m, s.o) && AccountInv(s)
    ensures AccountInv(Next(s, Cleanup(sent)))
  {
    ClearKeeps(s);
    AccountStop(s.(m := ClearTimer(s.m)), Waits(s, sent));
    AccountWaits(s.(m := StopOutcome(ClearTimer(s.m), Waits(s, sent))), Next(s, Cleanup(sent)).waiting);
  }

  lemma {:induction false} AccountWaits(s: System, waiting: nat)
    requires AccountInv(s)
    ensures AccountInv(s.(waiting := waiting))
  {
  }

  lemma {:induction false} AccountAlways(o: Options, steps: seq<Step>)
    ensures RunFrom(Init(o), steps).o == o
    ensures MonitorInv(RunFrom(Init(o), steps).m, o) && AccountInv(RunFrom(Init(o), steps))
  {
    if steps == [] {
      assert StopsOncePerStart([]);
    } else {
      AccountAlways(o, steps[..|steps| - 1]);
      AccountStep(RunFrom(Init(o), steps[..|steps| - 1]), steps[|steps| - 1]);
      MonitorInvStep(RunFrom(Init(o), steps[..|steps| - 1]), steps[|steps| - 1]);
    }
  }

  lemma {:induction false} BudgetsInTime(spent: nat, b: nat, done: nat, stable: nat, now: nat)
    requires spent <= Budgets(b, done + 1) && done <= stable && STABILITY_THRESHOLD_MS * stable <= now
    ensures spent <= b * (1 + stable) && spent <= b * (1 + now / STABILITY_THRESHOLD_MS)
  {
    BudgetsIsProduct(b, done + 1);
    var limit := now / STABILITY_THRESHOLD_MS;
    assert stable <= limit;
    assert b * (done + 1) <= b * (1 + stable) <= b * (1 + limit);
  }

  lemma {:induction false} SpendingAt(s: System)
    requires MonitorInv(s.m, s.o) && AccountInv(s)
    ensures WithinBudget(s)
  {
    Covered(s);
    assert CountStable([]) == 0;
    BudgetsInTime(Restarts(s.m.events), s.o.Budget(), CountStable(s.runs), StableRuns(s), s.now);
  }

  // ---------------------------------------------------------- the monitor

  /** What `start()` and `stop()` report. */
  datatype Reply = Success | Failure | Pending

  class ProcessMonitor {
    const options: Options
    var state: ProcessState
    var restartCount: nat
    var restartTimer: Option<TimerId>
    var childProcess: Option<Pid>
    var lastSuccessfulStart: Option<int>
    var endTime: Option<int>
    var lastActivity: int
    /** The runtime's side: timers set and not cleared, and the events delivered to listeners. */
    var armed: set<TimerId>
    var nextTimer: TimerId
    var events: seq<Event>

    function View(): Monitor
      reads this
    {
      Monitor(state, restartCount, restartTimer, childProcess, lastSuccessfulStart, endTime, lastActivity,
              armed, nextTimer, events)
    }

    constructor (options: Options)
      ensures this.options == options && View() == FRESH
    {
      this.options := options;
      state, restartCount, restartTimer, childProcess := Stopped, 0, None, None;
      lastSuccessfulStart, endTime, lastActivity := None, None, 0;
      armed, nextTimer, events := {}, 0, [];
    }

    method UpdateState(newState: ProcessState)
      modifies this`state, this`events
      ensures View() == SetState(old(View()), newState)
    {
      var oldState := state;
      state := newState;
      if oldState != newState {
        events := events + [StateChanged(oldState, newState)];
      }
    }

    method CancelRestart()
      modifies this`restartTimer, this`armed
      ensures View() == ClearTimer(old(View()))
    {
      if restartTimer.Some? {
        armed := armed - {restartTimer.value};
        restartTimer := None;
      }
    }

    /** A run of more than five minutes gives the whole budget back. */
    method RefillBudget()
      modifies this`restartCount
      ensures restartCount == if LastRunStable(old(View())) then 0 else old(restartCount)
    {
      if lastSuccessfulStart.Some? && endTime.Some? {
        var runDuration := endTime.value - lastSuccessfulStart.value;
        if runDuration > STABILITY_THRESHOLD_MS {
          restartCount := 0;
        }
      }
    }

    /** `start()`; `spawn` is the pid the operating system hands out, None when the spawn fails. */
    method Start(now: int, spawn: Option<Pid>) returns (reply: Reply)
      modifies this
      ensures View() == StartOutcome(old(View()), now, spawn)
      ensures reply == if CanStart(old(state)) && spawn.Some? then Success else Failure
    {
      if state != Stopped && state != Crashed {
        return Failure;
      }
      UpdateState(Starting);
      RefillBudget();
      childProcess := spawn;
      if childProcess.None? {
        UpdateState(Stopped);
        return Failure;
      }
      endTime := None;
      UpdateState(Running);
      lastActivity := now;
      lastSuccessfulStart := Some(now);
      events := events + [ProcessStarted(childProcess.value)];
      return Success;
    }

    /** `stop()` up to its end, or up to the wait in `killProcess` when the child is alive and could be signalled. */
    method Stop(childAlive: bool, signalSent: bool) returns (reply: Reply)
      modifies this
      ensures View() == StopOutcome(old(View()), childAlive && signalSent)
    {
      if state == Stopped {
        return Success;
      }
      if state == Starting {
        return Failure;
      }
      UpdateState(Stopping);
      CancelRestart();
      if childProcess.Some? && childAlive && signalSent {
        return Pending;
      }
      CompleteStop();
      return Success;
    }

    /** The rest of `stop()`, once the child has exited or the kill timeout has passed. */
    method CompleteStop()
      modifies this
      ensures View() == FinishStop(old(View()))
    {
      if state == Stopping {
        UpdateState(Stopped);
        events := events + [ProcessStopped];
      }
    }

    /** The child's exit handler. */
    method OnExit(exit: Exit, now: int)
      modifies this
      ensures View() == ExitOutcome(old(View()), options, exit, now)
    {
      var wasRunning, wasStopping := state == Running, state == Stopping;
      endTime := Some(now);
      var shouldRestart := false;
      if wasRunning && options.autoRestart {
        shouldRestart := RestartAfterExit(exit.code, exit.signal, wasStopping, now);
      }
      if wasRunning && (exit.code != Some(0) || shouldRestart) {
        UpdateState(Crashed);
        events := events + [ProcessCrashed(shouldRestart)];
        if shouldRestart {
          SetRestartTimer();
        }
      } else if state != Stopped {
        UpdateState(Stopped);
        events := events + [ProcessStopped];
      }
    }

    method RestartAfterExit(exitCode: Option<int>, signal: Option<string>, wasStopping: bool, now: int)
      returns (restart: bool)
      ensures restart <==>
        && !wasStopping && restartCount < options.maxRestarts
        && (signal.Some? || exitCode != Some(0) || now - lastActivity > INACTIVITY_THRESHOLD_MS)
    {
      if wasStopping {
        return false;
      }
      if restartCount >= options.maxRestarts {
        return false;
      }
      if signal.Some? {
        return true;
      }
      if exitCode == Some(0) {
        return now - lastActivity > INACTIVITY_THRESHOLD_MS;
      }
      return true;
    }

    method SetRestartTimer()
      modifies this`restartTimer, this`armed, this`restartCount, this`nextTimer
      ensures View() == ScheduleRestart(old(View()))
    {
      CancelRestart();
      restartCount := restartCount + 1;
      restartTimer := Some(nextTimer);
      armed := armed + {nextTimer};
      nextTimer := nextTimer + 1;
    }

    method OnError()
      modifies this
      ensures View() == ErrorOutcome(old(View()))
    {
      if state == Running || state == Starting {
        UpdateState(Crashed);
      }
    }

    /** The callback of restart timer `id`. */
    method OnRestartTimer(id: TimerId, now: int, spawn: Option<Pid>)
      modifies this
      ensures View() == TimerOutcome(old(View()), id, now, spawn)
    {
      armed := armed - {id};
      restartTimer := None;
      if state == Stopped || state == Stopping {
        return;
      }
      var result := Start(now, spawn);
      if result == Failure {
        events := events + [RestartFailed(restartCount)];
      }
    }
  }
}
