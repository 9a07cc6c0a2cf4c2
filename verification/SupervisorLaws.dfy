/** What the supervisor decides, written out; the trail of its states over whole runs; the budget as a tight bound. */
module SupervisorLaws {
  import opened Seqs
  import opened Supervisor

  // ------------------------------------------------------------- decisions

  function LastEvent(m: Monitor): Option<Event> {
    if m.events == [] then None else Some(m.events[|m.events| - 1])
  }

  /** The options, the budget and the way the child ended ask for a restart. */
  predicate AsksForRestart(s: System, exit: Exit) {
    s.o.autoRestart && s.m.restartCount < s.o.maxRestarts &&
    (exit.signal.Some? || exit.code != Some(0) || s.now - s.m.lastActivity > 30000)
  }

  /**
   The child of a running monitor exits. A restart is announced, paid for and scheduled with a fresh timer if and only
   if automatic restarts are on, the budget is not spent, and the child was killed by a signal, failed, or had been
   silent for more than 30 s. Otherwise a zero code is a stop and any other end a crash that stays.
   */
  lemma {:induction false} ExitDecision(s: System, pid: Pid, exit: Exit)
    requires MonitorInv(s.m, s.o) && s.m.state == Running && pid in s.live
    ensures
      var t := Next(s, ChildExits(pid, exit));
      && (LastEvent(t.m) == Some(ProcessCrashed(true)) <==> AsksForRestart(s, exit))
      && (AsksForRestart(s, exit) ==>
           t.m.state == Crashed && t.m.armed == {s.m.nextTimer} && s.m.nextTimer !in s.m.armed &&
           t.m.restartCount == s.m.restartCount + 1)
      && (!AsksForRestart(s, exit) ==> t.m.armed == s.m.armed && t.m.restartCount == s.m.restartCount)
      && (!AsksForRestart(s, exit) && exit.code == Some(0) ==>
           t.m.state == Stopped && LastEvent(t.m) == Some(ProcessStopped))
      && (!AsksForRestart(s, exit) && exit.code != Some(0) ==>
           t.m.state == Crashed && LastEvent(t.m) == Some(ProcessCrashed(false)))
      && t.live == s.live - {pid} && t.m.endTime == Some(s.now)
  {
  }

  /** Outside the running state an exit is never a crash: what was not yet stopped is stopped, and says so once. */
  lemma {:induction false} LateExit(s: System, pid: Pid, exit: Exit)
    requires s.m.state != Running && pid in s.live
    ensures
      var t := Next(s, ChildExits(pid, exit));
      && t.m.state == Stopped && t.m.armed == s.m.armed && t.m.restartCount == s.m.restartCount
      && t.m.events == s.m.events +
           if s.m.state == Stopped then [] else [StateChanged(s.m.state, Stopped), ProcessStopped]
  {
  }

  /** With automatic restarts off, or none allowed, no run schedules one, arms a timer or fires one. */
  lemma {:induction false} NoAutoRestart(o: Options, steps: seq<Step>)
    requires !o.autoRestart || o.maxRestarts <= 0
    ensures
      var s := RunFrom(Init(o), steps);
      s.m.armed == {} && s.m.restartTimer.None? && s.fired == 0 && Restarts(s.m.events) == 0
  {
    AccountAlways(o, steps);
    if steps != [] {
      var s, step := RunFrom(Init(o), steps[..|steps| - 1]), steps[|steps| - 1];
      AccountAlways(o, steps[..|steps| - 1]);
      NoAutoRestart(o, steps[..|steps| - 1]);
      NothingArmed(s, step);
    }
  }

  ghost predicate Unarmed(s: System) {
    s.m.armed == {} && s.m.restartTimer.None? && s.fired == 0 && Restarts(s.m.events) == 0
  }

  lemma {:induction false} NothingArmed(s: System, step: Step)
    requires MonitorInv(s.m, s.o) && (!s.o.autoRestart || s.o.maxRestarts <= 0) && Unarmed(s)
    ensures Unarmed(Next(s, step))
  {
    if Enabled(s, step) {
      match step
      case Start(spawn) => StartKeeps(s.m, s.o, s.now, spawn);
      case Stop(sent) => StopKeeps(s.m, s.o, Waits(s, sent));
      case Cleanup(sent) => StopKeeps(ClearTimer(s.m), s.o, Waits(s, sent));
      case StopResumes => FinishKeeps(s.m, s.o);
      case ChildExits(pid, exit) => ExitKeeps(s.m, s.o, exit, s.now);
      case ChildErrors(pid) => SetStateEvents(s.m, Crashed);
      case _ =>
    }
  }

  /** A start in the stopped or crashed state, and what it makes of the budget. */
  lemma {:induction false} StartDecision(s: System, spawn: Option<Pid>)
    requires Enabled(s, Start(spawn))
    ensures
      var t := Next(s, Start(spawn));
      if s.m.state != Stopped && s.m.state != Crashed then t == s
      else
        && t.m.restartCount ==
             (if s.m.lastSuccessfulStart.Some? && s.m.endTime.Some? &&
                 s.m.endTime.value - s.m.lastSuccessfulStart.value > 300000
              then 0 else s.m.restartCount)
        && (t.m.child, t.m.armed) == (spawn, s.m.armed)
        && match spawn
           case None => t.m.state == Stopped && t.live == s.live
           case Some(pid) =>
             && t.m.state == Running && t.live == s.live + {pid} && LastEvent(t.m) == Some(ProcessStarted(pid))
             && t.m.endTime.None? && t.m.lastSuccessfulStart == Some(s.now) == Some(t.m.lastActivity)
  {
  }

  /** A restart timer: nothing once stopped or stopping, otherwise a start, and a failed start is reported. */
  lemma {:induction false} TimerDecision(s: System, id: TimerId, spawn: Option<Pid>)
    requires MonitorInv(s.m, s.o) && Enabled(s, TimerFires(id, spawn))
    ensures
      var t := Next(s, TimerFires(id, spawn));
      && t.m.armed == {} && t.fired == s.fired + 1
      && (s.m.state == Stopped || s.m.state == Stopping ==> t.m.events == s.m.events && t.m.state == s.m.state)
      && (s.m.state == Crashed && spawn.Some? ==>
           t.m.state == Running && LastEvent(t.m) == Some(ProcessStarted(spawn.value)))
      && (s.m.state == Crashed && spawn.None? ==>
           t.m.state == Stopped && LastEvent(t.m) == Some(RestartFailed(t.m.restartCount)))
      && (s.m.state == Running ==>
           t.m.state == Running && LastEvent(t.m) == Some(RestartFailed(t.m.restartCount)) && t.live == s.live)
  {
  }

  /** `stop()`: no restart stays scheduled, and unless the child is waited for the stop is announced at once. */
  lemma {:induction false} StopDecision(s: System, sent: bool)
    requires TimersInv(s.m)
    ensures
      var t := Next(s, Stop(sent));
      if s.m.state == Stopped || s.m.state == Starting then t == s
      else
        && t.m.armed == {} && t.m.restartTimer.None? && t.live == s.live
        && if s.m.child.Some? && s.m.child.value in s.live && sent
           then t.m.state == Stopping && t.waiting == s.waiting + 1
           else t.m.state == Stopped && LastEvent(t.m) == Some(ProcessStopped)
  {
  }

  /** A stop that waits ends stopped and announced, whichever of the exit and the kill timeout comes first. */
  lemma {:induction false} StopEnds(s: System, sent: bool, pid: Pid, exit: Exit)
    requires MonitorInv(s.m, s.o) && s.m.state != Stopped && s.m.child == Some(pid) && pid in s.live && sent
    ensures
      var waits := Next(s, Stop(sent));
      var exited, timedOut := Next(waits, ChildExits(pid, exit)), Next(waits, StopResumes);
      && exited.m.state == timedOut.m.state == Stopped
      && LastEvent(exited.m) == LastEvent(timedOut.m) == Some(ProcessStopped)
      && Next(exited, StopResumes).m == exited.m
      && Next(timedOut, ChildExits(pid, exit)).m.events == timedOut.m.events
  {
  }

  /** An error event of the child crashes a running or starting monitor; nothing is announced but the new state. */
  lemma {:induction false} ErrorDecision(s: System, pid: Pid)
    requires pid in s.live
    ensures
      var t, crashes := Next(s, ChildErrors(pid)), s.m.state == Running || s.m.state == Starting;
      && t.m.state == (if crashes then Crashed else s.m.state)
      && t.m == s.m.(state := t.m.state, events := t.m.events) && t.live == s.live
      && t.m.events == s.m.events + if crashes then [StateChanged(s.m.state, Crashed)] else []
  {
  }

  // ------------------------------------------------- announcements over runs

  function StopCount(events: seq<Event>): nat {
    if events == [] then 0
    else StopCount(events[..|events| - 1]) + if events[|events| - 1] == ProcessStopped then 1 else 0
  }

  lemma {:induction false} CountEmit(m: Monitor, e: Event)
    ensures StopCount(m.events + [e]) == StopCount(m.events) + if e == ProcessStopped then 1 else 0
  {
    assert (m.events + [e])[..|m.events|] == m.events;
  }

  lemma {:induction false} CountMove(m: Monitor, to: ProcessState)
    ensures StopCount(SetState(m, to).events) == StopCount(m.events)
  {
    CountEmit(m, StateChanged(m.state, to));
  }

  lemma {:induction false} CountStart(m: Monitor, now: int, spawn: Option<Pid>)
    ensures StopCount(StartOutcome(m, now, spawn).events) == StopCount(m.events)
  {
    var starting := SetState(m, Starting);
    CountMove(m, Starting);
    CountMove(starting, Stopped);
    CountMove(starting, Running);
    if CanStart(m.state) && spawn.Some? {
      CountEmit(SetState(starting, Running), ProcessStarted(spawn.value));
      assert StartOutcome(m, now, spawn).events == SetState(starting, Running).events + [ProcessStarted(spawn.value)];
    } else if CanStart(m.state) {
      assert StartOutcome(m, now, spawn).events == SetState(starting, Stopped).events;
    }
  }

  lemma {:induction false} CountFinish(m: Monitor)
    ensures StopCount(SetState(m, Stopped).events + [ProcessStopped]) == StopCount(m.events) + 1
  {
    CountMove(m, Stopped);
    CountEmit(SetState(m, Stopped), ProcessStopped);
  }

  lemma {:induction false} CountCrash(m: Monitor, restart: bool)
    ensures StopCount(SetState(m, Crashed).events + [ProcessCrashed(restart)]) == StopCount(m.events)
  {
    CountMove(m, Crashed);
    CountEmit(SetState(m, Crashed), ProcessCrashed(restart));
  }

  lemma {:induction false} CountExit(m: Monitor, o: Options, exit: Exit, now: int)
    ensures
      var t := ExitOutcome(m, o, exit, now);
      StopCount(t.events) == StopCount(m.events) + if m.state != Stopped && t.state == Stopped then 1 else 0
  {
    var restart := WillRestart(m, o, exit, now);
    if m.state == Running && (exit.code != Some(0) || restart) {
      CountCrash(m.(endTime := Some(now)), restart);
    } else {
      CountFinish(m.(endTime := Some(now)));
    }
  }

  lemma {:induction false} CountStop(m: Monitor, waits: bool)
    requires m.state != Starting
    ensures
      var t := StopOutcome(m, waits);
      StopCount(t.events) == StopCount(m.events) + if m.state != Stopped && t.state == Stopped then 1 else 0
  {
    if StopProceeds(m) {
      var stopping := ClearTimer(SetState(m, Stopping));
      CountMove(m, Stopping);
      assert StopCount(stopping.events) == StopCount(m.events);
      if !(m.child.Some? && waits) {
        CountFinish(stopping);
        assert StopOutcome(m, waits).events == SetState(stopping, Stopped).events + [ProcessStopped];
      }
    }
  }

  lemma {:induction false} CountTimer(m: Monitor, id: TimerId, now: int, spawn: Option<Pid>)
    ensures StopCount(TimerOutcome(m, id, now, spawn).events) == StopCount(m.events)
  {
    var fired := m.(armed := m.armed - {id}, restartTimer := None);
    var started := StartOutcome(fired, now, spawn);
    CountStart(fired, now, spawn);
    CountEmit(started, RestartFailed(started.restartCount));
  }

  /** The step enters the stopped state otherwise than by a start that fails. */
  predicate EntersStopped(s: System, step: Step) {
    s.m.state != Stopped && Next(s, step).m.state == Stopped && !step.Start? && !step.TimerFires?
  }

  /** `process_stopped` is emitted once by each step that enters the stopped state, failed starts apart; by no other. */
  lemma {:induction false} StopAnnouncedIff(s: System, step: Step)
    requires MonitorInv(s.m, s.o)
    ensures
      StopCount(Next(s, step).m.events) == StopCount(s.m.events) + if EntersStopped(s, step) then 1 else 0
  {
    if Enabled(s, step) {
      match step
      case Start(spawn) => CountStart(s.m, s.now, spawn);
      case Stop(sent) => CountStop(s.m, Waits(s, sent));
      case Cleanup(sent) => CountStop(ClearTimer(s.m), Waits(s, sent));
      case StopResumes => CountFinish(s.m);
      case ChildExits(pid, exit) => CountExit(s.m, s.o, exit, s.now);
      case ChildErrors(pid) => CountMove(s.m, Crashed);
      case TimerFires(id, spawn) => CountTimer(s.m, id, s.now, spawn);
      case _ =>
    }
  }

  /** The changes of state announced so far lead from `from` to `to` without gaps or repetitions. */
  predicate Trail(events: seq<Event>, from: ProcessState, to: ProcessState) {
    if events == [] then from == to
    else
      match events[|events| - 1]
      case StateChanged(oldState, newState) =>
        newState == to && oldState != newState && Trail(events[..|events| - 1], from, oldState)
      case _ => Trail(events[..|events| - 1], from, to)
  }

  lemma {:induction false} TrailSilent(events: seq<Event>, from: ProcessState, to: ProcessState, e: Event)
    requires Trail(events, from, to) && !e.StateChanged?
    ensures Trail(events + [e], from, to)
  {
  }

  lemma {:induction false} TrailMoves(m: Monitor, from: ProcessState, to: ProcessState)
    requires Trail(m.events, from, m.state)
    ensures Trail(SetState(m, to).events, from, to)
  {
    if m.state != to {
      assert (m.events + [StateChanged(m.state, to)])[..|m.events|] == m.events;
    }
  }

  ghost predicate OnTrail(m: Monitor) {
    Trail(m.events, Stopped, m.state)
  }

  lemma {:induction false} TrailStart(m: Monitor, now: int, spawn: Option<Pid>)
    requires OnTrail(m)
    ensures OnTrail(StartOutcome(m, now, spawn))
  {
    if CanStart(m.state) {
      var starting := SetState(m, Starting);
      TrailMoves(m, Stopped, Starting);
      match spawn
      case None => TrailMoves(starting, Stopped, Stopped);
      case Some(pid) =>
        TrailMoves(starting, Stopped, Running);
        TrailSilent(SetState(starting, Running).events, Stopped, Running, ProcessStarted(pid));
    }
  }

  lemma {:induction false} TrailExit(m: Monitor, o: Options, exit: Exit, now: int)
    requires OnTrail(m)
    ensures OnTrail(ExitOutcome(m, o, exit, now))
  {
    TrailMoves(m, Stopped, Crashed);
    TrailMoves(m, Stopped, Stopped);
    TrailSilent(SetState(m, Crashed).events, Stopped, Crashed, ProcessCrashed(WillRestart(m, o, exit, now)));
    TrailSilent(SetState(m, Stopped).events, Stopped, Stopped, ProcessStopped);
  }

  lemma {:induction false} TrailFinish(m: Monitor)
    requires OnTrail(m)
    ensures OnTrail(FinishStop(m))
  {
    TrailMoves(m, Stopped, Stopped);
    TrailSilent(SetState(m, Stopped).events, Stopped, Stopped, ProcessStopped);
  }

  lemma {:induction false} TrailStop(m: Monitor, waits: bool)
    requires OnTrail(m)
    ensures OnTrail(StopOutcome(m, waits))
  {
    TrailMoves(m, Stopped, Stopping);
    TrailFinish(ClearTimer(SetState(m, Stopping)));
  }

  lemma {:induction false} TrailTimer(m: Monitor, id: TimerId, now: int, spawn: Option<Pid>)
    requires OnTrail(m)
    ensures OnTrail(TimerOutcome(m, id, now, spawn))
  {
    var started := StartOutcome(m.(armed := m.armed - {id}, restartTimer := None), now, spawn);
    TrailStart(m.(armed := m.armed - {id}, restartTimer := None), now, spawn);
    TrailSilent(started.events, Stopped, started.state, RestartFailed(started.restartCount));
  }

  /** In every run, the announced changes of state form one path from stopped to the present state. */
  lemma {:induction false} StateTrail(o: Options, steps: seq<Step>)
    ensures OnTrail(RunFrom(Init(o), steps).m)
  {
    if steps != [] {
      var s, step := RunFrom(Init(o), steps[..|steps| - 1]), steps[|steps| - 1];
      StateTrail(o, steps[..|steps| - 1]);
      if Enabled(s, step) {
        match step
        case Start(spawn) => TrailStart(s.m, s.now, spawn);
        case Stop(sent) => TrailStop(s.m, Waits(s, sent));
        case Cleanup(sent) => TrailStop(ClearTimer(s.m), Waits(s, sent));
        case StopResumes => TrailFinish(s.m);
        case ChildExits(pid, exit) => TrailExit(s.m, s.o, exit, s.now);
        case ChildErrors(pid) => TrailMoves(s.m, Stopped, Crashed);
        case TimerFires(id, spawn) => TrailTimer(s.m, id, s.now, spawn);
        case _ =>
      }
    }
  }

  // ------------------------------------------------- the budget is attained

  lemma {:induction false} RunAppend(s: System, a: seq<Step>, b: seq<Step>)
    ensures RunFrom(s, a + b) == RunFrom(RunFrom(s, a), b)
  {
    if b == [] {
      assert a + b == a;
    } else {
      assert (a + b)[..|a + b| - 1] == a + b[..|b| - 1];
      RunAppend(s, a, b[..|b| - 1]);
    }
  }

  lemma {:induction false} RunTwo(s: System, a: Step, b: Step)
    ensures RunFrom(s, [a, b]) == Next(Next(s, a), b)
  {
    RunAppend(s, [a], [b]);
    assert [a] + [b] == [a, b] && [a][..0] == [] && [b][..0] == [];
  }

  /** The monitor has just started the child `pid`, with so much of the budget used and so much spent in all. */
  ghost predicate Up(m: Monitor, now: int, pid: Pid, count: nat, spent: nat) {
    && m.state == Running && m.restartCount == count && m.child == Some(pid)
    && m.armed == {} && m.restartTimer.None? && m.endTime.None? && m.lastSuccessfulStart == Some(now)
    && Restarts(m.events) == spent
  }

  ghost predicate JustUp(s: System, o: Options, pid: Pid, count: nat, spent: nat, stable: nat) {
    && s.o == o && MonitorInv(s.m, o) && Up(s.m, s.now, pid, count, spent)
    && s.live == {pid} && (forall p :: p in s.used ==> p <= pid) && CountStable(s.runs) == stable
  }

  /** The monitor's child has just exited, having been started at `start`. */
  ghost predicate Down(m: Monitor, now: int, count: nat, spent: nat, start: int) {
    && m.state == Crashed && m.restartCount == count && m.endTime == Some(now) && m.lastSuccessfulStart == Some(start)
    && Restarts(m.events) == spent
  }

  ghost predicate JustDown(s: System, o: Options, pid: Pid, count: nat, spent: nat, stable: nat, start: int) {
    && s.o == o && MonitorInv(s.m, o) && Down(s.m, s.now, count, spent, start)
    && s.live == {} && (forall p :: p in s.used ==> p <= pid) && CountStable(s.runs) == stable
  }

  lemma {:induction false} GoesDown(s: System, o: Options, pid: Pid, count: nat, spent: nat, stable: nat, start: int)
    requires s.o == o && MonitorInv(s.m, o) && Up(s.m, start, pid, count, spent) && o.autoRestart
    requires s.live == {pid} && (forall p :: p in s.used ==> p <= pid) && CountStable(s.runs) == stable
    ensures
      var t, n := Next(s, ChildExits(pid, Exit(Some(1), None))), if count < o.maxRestarts then 1 else 0;
      && JustDown(t, o, pid, count + n, spent + n, stable, start)
      && t.m.armed == (if n == 1 then {s.m.nextTimer} else {}) && t.now == s.now
  {
    ExitKeeps(s.m, o, Exit(Some(1), None), s.now);
    assert s.live - {pid} == {};
  }

  /** The next start, from the timer or by hand, refills the budget if the run that ended was stable. */
  lemma {:induction false} UpAgain(m: Monitor, o: Options, now: int, pid: Pid, count: nat, spent: nat, start: int)
    requires MonitorInv(m, o) && m.armed == {} && Down(m, now, count, spent, start)
    ensures
      var n := StartOutcome(m, now, Some(pid));
      MonitorInv(n, o) && Up(n, now, pid, if now - start > 300000 then 0 else count, spent)
  {
    StartKeeps(m, o, now, Some(pid));
  }

  lemma {:induction false} StartsUp(
    t: System, o: Options, pid: Pid, m: Monitor, count: nat, spent: nat, stable: nat, start: int)
    requires JustDown(t, o, pid, count, spent, stable, start)
    requires MonitorInv(m, o) && Up(m, t.now, pid + 1, if t.now - start > 300000 then 0 else count, spent)
    ensures
      var n := if t.now - start > 300000 then 1 else 0;
      JustUp(AfterStart(t, m, Some(pid + 1), true), o, pid + 1, if n == 1 then 0 else count, spent, stable + n)
  {
    CountStableAppend(t.runs, Run(start, t.now));
  }

  /** A crash with budget left costs one restart and brings the next child up. */
  lemma {:induction false} CrashOnce(s: System, o: Options, pid: Pid, count: nat, spent: nat, stable: nat)
    returns (steps: seq<Step>)
    requires JustUp(s, o, pid, count, spent, stable) && o.autoRestart && count < o.maxRestarts
    ensures JustUp(RunFrom(s, steps), o, pid + 1, count + 1, spent + 1, stable)
  {
    var crash, fire := ChildExits(pid, Exit(Some(1), None)), TimerFires(s.m.nextTimer, Some(pid + 1));
    steps := [crash, fire];
    RunTwo(s, crash, fire);
    GoesDown(s, o, pid, count, spent, stable, s.now);
    FiresUp(Next(s, crash), o, pid, count + 1, spent + 1, stable, s.m.nextTimer);
  }

  lemma {:induction false} FiresUp(
    t: System, o: Options, pid: Pid, count: nat, spent: nat, stable: nat, id: TimerId)
    requires JustDown(t, o, pid, count, spent, stable, t.now) && t.m.armed == {id}
    ensures JustUp(Next(t, TimerFires(id, Some(pid + 1))), o, pid + 1, count, spent, stable)
  {
    var fired := t.m.(armed := t.m.armed - {id}, restartTimer := None);
    assert fired.armed == {};
    UpAgain(fired, o, t.now, pid + 1, count, spent, t.now);
    StartsUp(t, o, pid, StartOutcome(fired, t.now, Some(pid + 1)), count, spent, stable, t.now);
  }

  /** All of the budget, one crash after the other. */
  lemma {:induction false} CrashAll(s: System, o: Options, pid: Pid, count: nat, spent: nat, stable: nat)
    returns (steps: seq<Step>, last: Pid)
    requires JustUp(s, o, pid, count, spent, stable) && o.autoRestart && count <= o.Budget()
    ensures JustUp(RunFrom(s, steps), o, last, o.Budget(), spent + (o.Budget() - count), stable)
    decreases o.Budget() - count
  {
    if count == o.Budget() {
      steps, last := [], pid;
    } else {
      var first := CrashOnce(s, o, pid, count, spent, stable);
      var rest;
      rest, last := CrashAll(RunFrom(s, first), o, pid + 1, count + 1, spent + 1, stable);
      RunAppend(s, first, rest);
      steps := first + rest;
    }
  }

  /** With the budget spent, a run of more than five minutes ends, and the next start has the whole budget back. */
  lemma {:induction false} RefillOnce(s: System, o: Options, pid: Pid, spent: nat, stable: nat)
    returns (steps: seq<Step>)
    requires JustUp(s, o, pid, o.Budget(), spent, stable) && o.autoRestart
    ensures JustUp(RunFrom(s, steps), o, pid + 1, 0, spent, stable + 1)
  {
    var crash, start := ChildExits(pid, Exit(Some(1), None)), Start(Some(pid + 1));
    steps := [Tick(300001)] + [crash, start];
    RunAppend(s, [Tick(300001)], [crash, start]);
    assert [Tick(300001)][..0] == [];
    var t := Next(s, Tick(300001));
    RunTwo(t, crash, start);
    GoesDown(t, o, pid, o.Budget(), spent, stable, s.now);
    var u := Next(t, crash);
    UpAgain(u.m, o, u.now, pid + 1, o.Budget(), spent, s.now);
    StartsUp(u, o, pid, StartOutcome(u.m, u.now, Some(pid + 1)), o.Budget(), spent, stable, s.now);
  }

  lemma {:induction false} FirstUp(o: Options)
    ensures JustUp(RunFrom(Init(o), [Start(Some(0))]), o, 0, 0, 0, 0)
  {
    assert [Start(Some(0))][..0] == [];
    assert StopsOncePerStart([]);
    StartKeeps(FRESH, o, 0, Some(0));
  }

  lemma {:induction false} SpendAll(o: Options, k: nat) returns (steps: seq<Step>, pid: Pid)
    requires o.autoRestart
    ensures JustUp(RunFrom(Init(o), steps), o, pid, o.Budget(), Budgets(o.Budget(), k + 1), k)
  {
    if k == 0 {
      FirstUp(o);
      var s := RunFrom(Init(o), [Start(Some(0))]);
      var rest;
      rest, pid := CrashAll(s, o, 0, 0, 0, 0);
      RunAppend(Init(o), [Start(Some(0))], rest);
      steps := [Start(Some(0))] + rest;
    } else {
      var earlier, last := SpendAll(o, k - 1);
      var s := RunFrom(Init(o), earlier);
      var refill := RefillOnce(s, o, last, Budgets(o.Budget(), k), k - 1);
      var rest;
      rest, pid := CrashAll(RunFrom(s, refill), o, last + 1, 0, Budgets(o.Budget(), k), k);
      RunAppend(s, refill, rest);
      RunAppend(Init(o), earlier, refill + rest);
      steps := earlier + (refill + rest);
    }
  }

  /** The bound on restarts is attained: for every budget and every number of stable runs, some run spends all of it. */
  lemma {:induction false} BudgetIsTight(o: Options, k: nat) returns (steps: seq<Step>)
    requires o.autoRestart
    ensures
      var s := RunFrom(Init(o), steps);
      StableRuns(s) == k && Restarts(s.m.events) == o.Budget() * (1 + k)
  {
    var pid;
    steps, pid := SpendAll(o, k);
    BudgetsIsProduct(o.Budget(), k + 1);
  }
}
