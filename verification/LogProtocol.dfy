/** The log file shared between processes: appenders, calls that drain it, and the lock file they agree on. */
module LogProtocol {
  import opened Seqs

  // A call is one run of `getAllLogsAndReset` or of the CLI's `logs get`. Between any two of its file operations the
  // clock may advance, lines may be appended, other calls may move and the process may crash.

  type CallId = nat
  type Line = string

  const MAX_RETRIES := 10
  const LOCK_STALE_MS := 30000

  /** `MonitorReset` recreates the log with `wx`, `CliReset` by truncating; `CliRead` does not reset. */
  datatype Kind = MonitorReset | CliReset | CliRead

  /** What a call does next. */
  datatype Pc =
    | Creating(attempt: nat)
    | Reading(attempt: nat)
    | Removing(attempt: nat)
    | Sleeping(attempt: nat)
    | Renaming
    | Recreating
    | ReadingTemp
    | RemovingTemp(logs: seq<Line>)
    | Releasing(result: seq<Line>)
    | Returned(result: seq<Line>)
    | GaveUp
    | Crashed(inside: bool)

  datatype Call = Call(kind: Kind, pc: Pc)

  datatype Lock = Lock(owner: CallId, timestamp: nat)

  datatype System = System(
    clock: nat,
    lock: Option<Lock>,
    log: Option<seq<Line>>,
    temps: map<CallId, seq<Line>>,
    calls: map<CallId, Call>,
    // history
    appended: seq<Line>,
    batches: map<CallId, seq<Line>>,
    takers: seq<CallId>,
    returned: seq<CallId>)

  const INIT := System(0, None, None, map[], map[], [], map[], [], [])

  /** `Unlink` is `cleanup()` deleting the log, which it does with or without the lock. */
  datatype Step =
    | Tick(ms: nat)
    | Append(line: Line)
    | Unlink
    | Begin(call: CallId, kind: Kind)
    | Advance(call: CallId)
    | Crash(call: CallId)

  /** Between acquiring the lock and releasing it. */
  predicate Inside(pc: Pc) {
    pc.Renaming? || pc.Recreating? || pc.ReadingTemp? || pc.RemovingTemp? || pc.Releasing?
  }

  predicate IsInside(s: System, c: CallId) {
    c in s.calls && Inside(s.calls[c].pc)
  }

  function Current(s: System): seq<Line> {
    match s.log case None => [] case Some(lines) => lines
  }

  function NextAttempt(k: nat): Pc {
    if k + 1 < MAX_RETRIES then Creating(k + 1) else GaveUp
  }

  function At(s: System, c: CallId, pc: Pc): System
    requires c in s.calls
  {
    s.(calls := s.calls[c := Call(s.calls[c].kind, pc)])
  }

  /** The call takes `lines` out of the log. */
  function Take(s: System, c: CallId, lines: seq<Line>): System {
    s.(batches := s.batches[c := lines], takers := s.takers + [c])
  }

  /** One file operation of call `c`: its effect on the files and where the call stands afterwards. */
  function Move(s: System, c: CallId): (r: (System, Pc))
    requires c in s.calls
    ensures r.0.calls == s.calls
  {
    var kind := s.calls[c].kind;
    match s.calls[c].pc
    case Creating(k) =>
      if s.lock.None? then (s.(lock := Some(Lock(c, s.clock))), Renaming) else (s, Reading(k))
    case Reading(k) =>
      if s.lock.Some? && s.clock - s.lock.value.timestamp > LOCK_STALE_MS then (s, Removing(k)) else (s, Sleeping(k))
    case Removing(k) => (s.(lock := None), NextAttempt(k))
    case Sleeping(k) => (s, NextAttempt(k))
    case Renaming =>
      if kind == CliRead then (s, Releasing(Current(s)))
      else if s.log.None? then (Take(s, c, []), Releasing([]))
      else (Take(s, c, s.log.value).(temps := s.temps[c := s.log.value], log := None), Recreating)
    case Recreating =>
      (if kind == CliReset || s.log.None? then s.(log := Some([])) else s, ReadingTemp)
    case ReadingTemp => (s, if c in s.temps then RemovingTemp(s.temps[c]) else Releasing([]))
    case RemovingTemp(logs) => (s.(temps := s.temps - {c}), Releasing(logs))
    case Releasing(result) =>
      (s.(lock := None, returned := if kind == CliRead then s.returned else s.returned + [c]), Returned(result))
    case Returned(_) => (s, s.calls[c].pc)
    case GaveUp => (s, s.calls[c].pc)
    case Crashed(_) => (s, s.calls[c].pc)
  }

  function AdvanceCall(s: System, c: CallId): System
    requires c in s.calls
  {
    At(Move(s, c).0, c, Move(s, c).1)
  }

  function Next(s: System, step: Step): System {
    match step
    case Tick(ms) => s.(clock := s.clock + ms)
    case Append(line) => s.(log := Some(Current(s) + [line]), appended := s.appended + [line])
    case Unlink => s.(log := None)
    case Begin(c, kind) => if c in s.calls then s else s.(calls := s.calls[c := Call(kind, Creating(0))])
    case Advance(c) => if c in s.calls then AdvanceCall(s, c) else s
    case Crash(c) =>
      if c in s.calls && !s.calls[c].pc.Returned? && !s.calls[c].pc.GaveUp? && !s.calls[c].pc.Crashed?
      then At(s, c, Crashed(Inside(s.calls[c].pc)))
      else s
  }

  function RunFrom(s: System, steps: seq<Step>): System {
    if steps == [] then s else Next(RunFrom(s, steps[..|steps| - 1]), steps[|steps| - 1])
  }

  /** `ok` holds of every step of the run, in the state the step is taken in. */
  ghost predicate Throughout(s: System, steps: seq<Step>, ok: (System, Step) -> bool) {
    steps == [] ||
    (Throughout(s, steps[..|steps| - 1], ok) && ok(RunFrom(s, steps[..|steps| - 1]), steps[|steps| - 1]))
  }

  // -------------------------------------------------------- mutual exclusion

  /** The lock file names whoever is inside; it outlives its owner only when that owner crashed inside. */
  ghost predicate Exclusive(s: System) {
    && (forall c :: IsInside(s, c) ==> s.lock.Some? && s.lock.value.owner == c)
    && (s.lock.Some? ==>
          s.lock.value.owner in s.calls &&
          (IsInside(s, s.lock.value.owner) || s.calls[s.lock.value.owner].pc == Crashed(true)))
  }

  /** Two calls are between acquiring and releasing at the same time. */
  ghost predicate TwoInside(s: System) {
    exists c, d :: c != d && IsInside(s, c) && IsInside(s, d)
  }

  /** A stale-lock removal that hits the lock of a call that is still inside. */
  predicate RemovesLiveLock(s: System, step: Step) {
    && step.Advance? && step.call in s.calls && s.calls[step.call].pc.Removing?
    && s.lock.Some? && IsInside(s, s.lock.value.owner)
  }

  /** A stale check that is evaluated more than 30 s after the timestamp it reads. */
  predicate ChecksLate(s: System, step: Step) {
    && step.Advance? && step.call in s.calls && s.calls[step.call].pc.Reading?
    && s.lock.Some? && s.clock - s.lock.value.timestamp > LOCK_STALE_MS
  }

  /** Only the call that moves changes its place. */
  lemma {:induction false} OthersStay(s: System, c: CallId, d: CallId)
    requires c in s.calls && c != d
    ensures d in AdvanceCall(s, c).calls <==> d in s.calls
    ensures d in s.calls ==> AdvanceCall(s, c).calls[d] == s.calls[d]
  {
  }

  lemma {:induction false} ExclusiveAdvance(s: System, c: CallId)
    requires Exclusive(s) && c in s.calls && !RemovesLiveLock(s, Advance(c))
    ensures Exclusive(AdvanceCall(s, c))
  {
    var t := AdvanceCall(s, c);
    assert IsInside(s, c) ==> s.lock.Some? && s.lock.value.owner == c;
    forall d | IsInside(t, d) ensures t.lock.Some? && t.lock.value.owner == d {
      if d != c {
        OthersStay(s, c, d);
        assert IsInside(s, d);
      }
    }
    if t.lock.Some? && t.lock.value.owner != c {
      OthersStay(s, c, t.lock.value.owner);
    }
  }

  /** Every step keeps exclusion, except exactly the removal of a live holder's lock. */
  lemma {:induction false} ExclusiveStep(s: System, step: Step)
    requires Exclusive(s)
    ensures Exclusive(Next(s, step)) <==> !RemovesLiveLock(s, step)
  {
    if RemovesLiveLock(s, step) {
      OthersStay(s, step.call, s.lock.value.owner);
      assert IsInside(Next(s, step), s.lock.value.owner);
    } else {
      match step
      case Advance(c) =>
        if c in s.calls {
          ExclusiveAdvance(s, c);
        }
      case Begin(c, kind) => ExclusiveRelabel(s, Next(s, step));
      case Crash(c) => ExclusiveRelabel(s, Next(s, step));
      case Tick(ms) => ExclusiveRelabel(s, Next(s, step));
      case Append(line) => ExclusiveRelabel(s, Next(s, step));
      case Unlink => ExclusiveRelabel(s, Next(s, step));
    }
  }

  predicate Relabelled(before: Pc, after: Pc) {
    after == before || (!before.Crashed? && after == Crashed(Inside(before)))
  }

  /** Steps that leave the lock alone and only begin or crash calls. */
  lemma {:induction false} ExclusiveRelabel(s: System, t: System)
    requires Exclusive(s) && t.lock == s.lock
    requires forall c :: c in s.calls ==> c in t.calls && Relabelled(s.calls[c].pc, t.calls[c].pc)
    requires forall c :: c in t.calls && c !in s.calls ==> !Inside(t.calls[c].pc)
    ensures Exclusive(t)
  {
    forall c | IsInside(t, c) ensures t.lock.Some? && t.lock.value.owner == c {
      assert IsInside(s, c);
    }
  }

  /** At most one call is inside for as long as no removal hits the lock of a call that is. */
  lemma {:induction false} MutualExclusion(steps: seq<Step>)
    requires Throughout(INIT, steps, (s, step) => !RemovesLiveLock(s, step))
    ensures Exclusive(RunFrom(INIT, steps))
    ensures !TwoInside(RunFrom(INIT, steps))
  {
    if steps != [] {
      MutualExclusion(steps[..|steps| - 1]);
      ExclusiveStep(RunFrom(INIT, steps[..|steps| - 1]), steps[|steps| - 1]);
    }
  }

  /** When every stale check happens within 30 s of the timestamp it reads, nothing is ever judged stale. */
  lemma {:induction false} PromptChecksExclude(steps: seq<Step>)
    requires Throughout(INIT, steps, (s, step) => !ChecksLate(s, step))
    ensures Exclusive(RunFrom(INIT, steps))
    ensures forall c :: c in RunFrom(INIT, steps).calls ==> !RunFrom(INIT, steps).calls[c].pc.Removing?
  {
    if steps != [] {
      var s, step := RunFrom(INIT, steps[..|steps| - 1]), steps[|steps| - 1];
      PromptChecksExclude(steps[..|steps| - 1]);
      ExclusiveStep(s, step);
      NobodyRemoves(s, step);
    }
  }

  lemma {:induction false} NobodyRemoves(s: System, step: Step)
    requires !ChecksLate(s, step)
    requires forall c :: c in s.calls ==> !s.calls[c].pc.Removing?
    ensures forall c :: c in Next(s, step).calls ==> !Next(s, step).calls[c].pc.Removing?
  {
  }

  /** Without crashes the lock file exists exactly while somebody is inside. */
  lemma {:induction false} LockFileMarksHolder(steps: seq<Step>)
    requires Throughout(INIT, steps, (s, step) => !ChecksLate(s, step) && !step.Crash?)
    ensures RunFrom(INIT, steps).lock.Some? <==> exists c :: IsInside(RunFrom(INIT, steps), c)
  {
    Weaken(INIT, steps);
    PromptChecksExclude(steps);
    NobodyCrashed(steps);
    var s := RunFrom(INIT, steps);
    assert s.lock.Some? ==> IsInside(s, s.lock.value.owner);
  }

  lemma {:induction false} Weaken(s: System, steps: seq<Step>)
    requires Throughout(s, steps, (s, step) => !ChecksLate(s, step) && !step.Crash?)
    ensures Throughout(s, steps, (s, step) => !ChecksLate(s, step))
  {
    if steps != [] {
      Weaken(s, steps[..|steps| - 1]);
    }
  }

  lemma {:induction false} NobodyCrashed(steps: seq<Step>)
    requires Throughout(INIT, steps, (s, step) => !ChecksLate(s, step) && !step.Crash?)
    ensures forall c :: c in RunFrom(INIT, steps).calls ==> !RunFrom(INIT, steps).calls[c].pc.Crashed?
  {
    if steps != [] {
      NobodyCrashed(steps[..|steps| - 1]);
    }
  }

  /** A removal that hits a live holder always lets a newcomer in beside it. */
  lemma {:induction false} LiveRemovalBreaksExclusion(s: System, step: Step, newcomer: CallId, kind: Kind)
    requires Exclusive(s) && RemovesLiveLock(s, step) && newcomer !in s.calls
    ensures TwoInside(RunFrom(s, [step, Begin(newcomer, kind), Advance(newcomer)]))
  {
    var holder := s.lock.value.owner;
    var s1 := Next(s, step);
    assert IsInside(s1, holder) && s1.lock.None?;
    var s2 := Next(s1, Begin(newcomer, kind));
    assert IsInside(s2, holder) && s2.calls[newcomer] == Call(kind, Creating(0));
    var s3 := Next(s2, Advance(newcomer));
    assert IsInside(s3, holder) && IsInside(s3, newcomer);
    RunThree(s, step, Begin(newcomer, kind), Advance(newcomer));
  }

  lemma {:induction false} RunThree(s: System, a: Step, b: Step, c: Step)
    ensures RunFrom(s, [a, b, c]) == Next(Next(Next(s, a), b), c)
  {
    assert [a, b, c][..2] == [a, b] && [a, b][..1] == [a] && [a][..0] == [];
    assert RunFrom(s, []) == s;
    assert RunFrom(s, [a]) == Next(s, a);
    assert RunFrom(s, [a, b]) == Next(Next(s, a), b);
  }

  // ------------------------------------------------ recovery from a crash

  function Advances(steps: seq<Step>, c: CallId): nat {
    if steps == [] then 0 else Advances(steps[..|steps| - 1], c) + if steps[|steps| - 1] == Advance(c) then 1 else 0
  }

  /** Where a lone contender stands after `n` of its moves, when it starts against a stale lock. */
  ghost predicate Recovering(s: System, c: CallId, n: nat) {
    && c in s.calls
    && match n
       case 0 => s.calls[c].pc == Creating(0) && StaleLock(s)
       case 1 => s.calls[c].pc == Reading(0) && StaleLock(s)
       case 2 => s.calls[c].pc == Removing(0) && s.lock.Some?
       case 3 => s.calls[c].pc == Creating(1) && s.lock.None?
       case _ => s.calls[c].pc == Renaming && s.lock.Some? && s.lock.value.owner == c
  }

  ghost predicate StaleLock(s: System) {
    s.lock.Some? && s.clock - s.lock.value.timestamp > LOCK_STALE_MS
  }

  /**
   A single contender that finds a lock older than 30 s acquires it on its second attempt, whatever time passes and
   whatever is appended between its moves.
   */
  lemma {:induction false} LoneContenderRecovers(s: System, steps: seq<Step>, c: CallId)
    requires Recovering(s, c, 0)
    requires forall step :: step in steps ==> step.Tick? || step.Append? || step.Unlink? || step == Advance(c)
    requires Advances(steps, c) <= 4
    ensures Recovering(RunFrom(s, steps), c, Advances(steps, c))
  {
    if steps != [] {
      assert steps[|steps| - 1] in steps;
      LoneContenderRecovers(s, steps[..|steps| - 1], c);
    }
  }

  /**
   With two contenders the same recovery is not safe, although the holder really crashed: both judge its lock stale,
   one removes it and acquires, and the other then removes the new lock. Nothing re-reads the lock before unlinking.
   */
  lemma {:induction false} TwoContendersBreakExclusion(s: System, holder: CallId, c: CallId, d: CallId)
    requires StaleLock(s) && s.lock.value.owner == holder
    requires holder in s.calls && s.calls[holder].pc == Crashed(true)
    requires c != d && c in s.calls && d in s.calls
    requires s.calls[c].pc == Reading(0) && s.calls[d].pc == Reading(0)
    ensures TwoInside(RunFrom(s, [Advance(c), Advance(d), Advance(c), Advance(c), Advance(d), Advance(d)]))
  {
    var s3 := RunFrom(s, [Advance(c), Advance(d), Advance(c)]);
    JudgeAndRemove(s, c, d);
    AcquireAndRemove(s3, c, d);
    RunAppend(s, [Advance(c), Advance(d), Advance(c)], [Advance(c), Advance(d), Advance(d)]);
    assert [Advance(c), Advance(d), Advance(c)] + [Advance(c), Advance(d), Advance(d)]
        == [Advance(c), Advance(d), Advance(c), Advance(c), Advance(d), Advance(d)];
  }

  lemma {:induction false} JudgeAndRemove(s: System, c: CallId, d: CallId)
    requires StaleLock(s) && c != d && c in s.calls && d in s.calls
    requires s.calls[c].pc == Reading(0) && s.calls[d].pc == Reading(0)
    ensures
      var t := RunFrom(s, [Advance(c), Advance(d), Advance(c)]);
      && t.lock.None? && c in t.calls && d in t.calls
      && t.calls[c].pc == Creating(1) && t.calls[d].pc == Removing(0)
  {
    RunThree(s, Advance(c), Advance(d), Advance(c));
  }

  lemma {:induction false} AcquireAndRemove(s: System, c: CallId, d: CallId)
    requires s.lock.None? && c != d && c in s.calls && d in s.calls
    requires s.calls[c].pc == Creating(1) && s.calls[d].pc == Removing(0)
    ensures TwoInside(RunFrom(s, [Advance(c), Advance(d), Advance(d)]))
  {
    RunThree(s, Advance(c), Advance(d), Advance(d));
    var t := RunFrom(s, [Advance(c), Advance(d), Advance(d)]);
    assert IsInside(t, c) && IsInside(t, d);
  }

  lemma {:induction false} RunAppend(s: System, a: seq<Step>, b: seq<Step>)
    ensures RunFrom(s, a + b) == RunFrom(RunFrom(s, a), b)
  {
    if b == [] {
      assert a + b == a;
    } else {
      assert (a + b)[..|a + b| - 1] == a + b[..|b| - 1];
      RunAppend(s, a, b[..|b| - 1]);
    }
  }

  // --------------------------------------------- such states are reached

  lemma {:induction false} FirstAcquires(kind: Kind, last: Step)
    ensures
      var s := INIT.(lock := Some(Lock(0, 0)), calls := map[0 := Call(kind, Renaming)]);
      RunFrom(INIT, [Begin(0, kind), Advance(0), last]) == Next(s, last)
  {
    RunThree(INIT, Begin(0, kind), Advance(0), last);
    assert map[0 := Call(kind, Creating(0))][0 := Call(kind, Renaming)] == map[0 := Call(kind, Renaming)];
  }

  /** A first call acquires the lock and is still inside more than 30 s later; a second has judged its lock stale. */
  lemma {:induction false} LiveRemovalReachable(kind: Kind)
    ensures
      var s := RunFrom(INIT, [Begin(0, kind), Advance(0), Tick(30001)] + [Begin(1, kind), Advance(1), Advance(1)]);
      Exclusive(s) && RemovesLiveLock(s, Advance(1))
  {
    RunAppend(INIT, [Begin(0, kind), Advance(0), Tick(30001)], [Begin(1, kind), Advance(1), Advance(1)]);
    FirstAcquires(kind, Tick(30001));
    JudgesStale(RunFrom(INIT, [Begin(0, kind), Advance(0), Tick(30001)]), 1, kind);
  }

  lemma {:induction false} JudgesStale(s: System, c: CallId, kind: Kind)
    requires StaleLock(s) && c !in s.calls
    ensures
      RunFrom(s, [Begin(c, kind), Advance(c), Advance(c)]) == s.(calls := s.calls[c := Call(kind, Removing(0))])
  {
    RunThree(s, Begin(c, kind), Advance(c), Advance(c));
  }

  /** The holder crashes, its lock goes stale, two contenders begin: from the very start, both can end up inside. */
  lemma {:induction false} ContendersReachable(kind: Kind)
    ensures
      var s := RunFrom(INIT,
        [Begin(0, kind), Advance(0), Crash(0)] + [Tick(30001), Begin(1, kind), Begin(2, kind)] +
        [Advance(1), Advance(2)]);
      && StaleLock(s) && 0 in s.calls && s.calls[0].pc == Crashed(true) && s.lock.value.owner == 0
      && 1 in s.calls && 2 in s.calls && s.calls[1].pc == Reading(0) && s.calls[2].pc == Reading(0)
  {
    var first, second := [Begin(0, kind), Advance(0), Crash(0)], [Tick(30001), Begin(1, kind), Begin(2, kind)];
    RunAppend(INIT, first + second, [Advance(1), Advance(2)]);
    RunAppend(INIT, first, second);
    FirstAcquires(kind, Crash(0));
    TwoContend(RunFrom(INIT, first), kind);
  }

  lemma {:induction false} TwoContend(s: System, kind: Kind)
    requires s.lock.Some? && s.clock == s.lock.value.timestamp && 1 !in s.calls && 2 !in s.calls
    ensures
      RunFrom(RunFrom(s, [Tick(30001), Begin(1, kind), Begin(2, kind)]), [Advance(1), Advance(2)]) ==
      s.(clock := s.clock + 30001, calls := s.calls[1 := Call(kind, Reading(0))][2 := Call(kind, Reading(0))])
  {
    RunThree(s, Tick(30001), Begin(1, kind), Begin(2, kind));
    var t := RunFrom(s, [Tick(30001), Begin(1, kind), Begin(2, kind)]);
    assert t.calls == s.calls[1 := Call(kind, Creating(0))][2 := Call(kind, Creating(0))];
    RunTwo(t, Advance(1), Advance(2));
  }

  lemma {:induction false} RunTwo(s: System, a: Step, b: Step)
    ensures RunFrom(s, [a, b]) == Next(Next(s, a), b)
  {
    assert [a, b][..1] == [a] && [a][..0] == [];
    assert RunFrom(s, [a]) == Next(s, a);
  }

  // ------------------------------------------------------- draining the log

  /** Everything taken out of the log, in the order it was taken. */
  function Taken(takers: seq<CallId>, batches: map<CallId, seq<Line>>): seq<Line> {
    if takers == [] then []
    else
      var c := takers[|takers| - 1];
      Taken(takers[..|takers| - 1], batches) + if c in batches then batches[c] else []
  }

  lemma {:induction false} TakenIgnoresOthers(
    takers: seq<CallId>, batches: map<CallId, seq<Line>>, c: CallId, lines: seq<Line>)
    requires c !in takers
    ensures Taken(takers, batches[c := lines]) == Taken(takers, batches)
  {
    if takers != [] {
      assert takers[|takers| - 1] in takers;
      TakenIgnoresOthers(takers[..|takers| - 1], batches, c, lines);
    }
  }

  /** A truncating recreate that finds lines appended since the rename. */
  predicate TruncatesLines(s: System, step: Step) {
    && step.Advance? && step.call in s.calls
    && s.calls[step.call] == Call(CliReset, Recreating) && Current(s) != []
  }

  /** A step that destroys lines nobody has taken: such a truncation, or an unlink of a log that is not empty. */
  predicate LosesLines(s: System, step: Step) {
    TruncatesLines(s, step) || (step.Unlink? && Current(s) != [])
  }

  /** Each call that took a batch holds it until it returns it, and takes only one. */
  ghost predicate Holds(s: System, c: CallId)
    requires c in s.calls
  {
    s.calls[c].kind == CliRead ||
    match s.calls[c].pc
    case Creating(_) => c !in s.takers
    case Reading(_) => c !in s.takers
    case Removing(_) => c !in s.takers
    case Sleeping(_) => c !in s.takers
    case GaveUp => c !in s.takers
    case Renaming => c !in s.takers
    case Recreating => c in s.batches && c in s.temps && s.temps[c] == s.batches[c]
    case ReadingTemp => c in s.batches && c in s.temps && s.temps[c] == s.batches[c]
    case RemovingTemp(logs) => c in s.batches && logs == s.batches[c]
    case Releasing(result) => c in s.batches && result == s.batches[c]
    case Returned(result) => c in s.batches && result == s.batches[c]
    case Crashed(_) => true
  }

  ghost predicate Conserved(s: System) {
    && Taken(s.takers, s.batches) + Current(s) == s.appended
  }

  ghost predicate Accounted(s: System) {
    && NoDuplicates(s.takers)
    && (forall c :: c in s.takers <==> c in s.batches)
    && (forall c :: c in s.takers ==> c in s.calls && s.calls[c].kind != CliRead)
    && (forall c :: c in s.calls ==> Holds(s, c) && ReadersSkip(s.calls[c]))
  }

  /** A read-only call never gets to the steps that move the log. */
  ghost predicate ReadersSkip(call: Call) {
    call.kind == CliRead ==> !call.pc.Recreating? && !call.pc.ReadingTemp? && !call.pc.RemovingTemp?
  }

  lemma {:induction false} HoldsOther(s: System, c: CallId, d: CallId)
    requires c in s.calls && d in s.calls && c != d && Holds(s, d)
    ensures d in AdvanceCall(s, c).calls && Holds(AdvanceCall(s, c), d)
  {
  }

  lemma {:induction false} HoldsSelf(s: System, c: CallId)
    requires c in s.calls && Holds(s, c) && ReadersSkip(s.calls[c])
    ensures Holds(AdvanceCall(s, c), c) && ReadersSkip(AdvanceCall(s, c).calls[c])
  {
  }

  /** The takers change only when a resetting call reaches the rename. */
  predicate Takes(s: System, c: CallId) {
    c in s.calls && s.calls[c].pc.Renaming? && s.calls[c].kind != CliRead
  }

  lemma {:induction false} TakersChange(s: System, c: CallId)
    requires c in s.calls
    ensures
      var t := AdvanceCall(s, c);
      if Takes(s, c) then t.takers == s.takers + [c] && t.batches == s.batches[c := Current(s)]
      else t.takers == s.takers && t.batches == s.batches
    ensures AdvanceCall(s, c).calls[c].kind == s.calls[c].kind
    ensures AdvanceCall(s, c).calls.Keys == s.calls.Keys
  {
  }

  lemma {:induction false} AccountedAdvance(s: System, c: CallId)
    requires Accounted(s) && c in s.calls
    ensures Accounted(AdvanceCall(s, c))
  {
    var t := AdvanceCall(s, c);
    TakersChange(s, c);
    assert Holds(s, c);
    HoldsSelf(s, c);
    forall d | d in t.calls ensures Holds(t, d) && ReadersSkip(t.calls[d]) {
      if d != c {
        assert Holds(s, d) && ReadersSkip(s.calls[d]);
        OthersStay(s, c, d);
        HoldsOther(s, c, d);
      }
    }
    forall d | d in t.takers ensures d in t.calls && t.calls[d].kind != CliRead {
      if d != c {
        OthersStay(s, c, d);
      }
    }
  }

  /** Steps that leave the log's history alone and only begin or crash calls. */
  lemma {:induction false} AccountedRelabel(s: System, t: System)
    requires Accounted(s) && t.takers == s.takers && t.batches == s.batches && t.temps == s.temps
    requires forall c :: c in s.calls ==>
      (c in t.calls && t.calls[c].kind == s.calls[c].kind && (t.calls[c] == s.calls[c] || t.calls[c].pc.Crashed?))
    requires forall c :: c in t.calls && c !in s.calls ==> t.calls[c].pc == Creating(0)
    ensures Accounted(t)
  {
  }

  lemma {:induction false} AccountedStep(s: System, step: Step)
    requires Accounted(s)
    ensures Accounted(Next(s, step))
  {
    if step.Advance? {
      if step.call in s.calls {
        AccountedAdvance(s, step.call);
      }
    } else {
      AccountedRelabel(s, Next(s, step));
    }
  }

  /** A step keeps every appended line accounted for exactly when it is no truncation and no unlink of fresh lines. */
  lemma {:induction false} ConservedStep(s: System, step: Step)
    requires Accounted(s) && Conserved(s)
    ensures Conserved(Next(s, step)) <==> !LosesLines(s, step)
  {
    match step
    case Advance(c) =>
      if c in s.calls {
        ConservedAdvance(s, c);
      }
    case Append(line) =>
      assert Taken(s.takers, s.batches) + (Current(s) + [line]) == (Taken(s.takers, s.batches) + Current(s)) + [line];
    case Unlink =>
      assert |Taken(s.takers, s.batches) + Current(s)| == |s.appended|;
    case _ =>
  }

  lemma {:induction false} ConservedAdvance(s: System, c: CallId)
    requires Accounted(s) && Conserved(s) && c in s.calls
    ensures Conserved(AdvanceCall(s, c)) <==> !TruncatesLines(s, Advance(c))
  {
    var t := AdvanceCall(s, c);
    TakersChange(s, c);
    CurrentChange(s, c);
    if Takes(s, c) {
      assert Holds(s, c) && c !in s.takers;
      TakenIgnoresOthers(s.takers, s.batches, c, Current(s));
      assert t.takers[..|t.takers| - 1] == s.takers;
      assert Taken(t.takers, t.batches) == Taken(s.takers, s.batches) + Current(s);
    } else {
      assert |Taken(s.takers, s.batches) + Current(s)| == |s.appended|;
    }
  }

  lemma {:induction false} CurrentChange(s: System, c: CallId)
    requires c in s.calls
    ensures AdvanceCall(s, c).appended == s.appended
    ensures Current(AdvanceCall(s, c)) == if Takes(s, c) || TruncatesLines(s, Advance(c)) then [] else Current(s)
  {
  }

  /**
   Exactly once: whatever the interleaving, however many calls drain, even if some crash and even if the lock fails
   to exclude, as long as no truncation or unlink meets fresh lines every line ever appended is either still in the
   log or in the batch of exactly one call, batches partition the history in order, and a call that returns returns
   its batch.
   */
  lemma {:induction false} ExactlyOnce(steps: seq<Step>)
    requires Throughout(INIT, steps, (s, step) => !LosesLines(s, step))
    ensures Accounted(RunFrom(INIT, steps)) && Conserved(RunFrom(INIT, steps))
  {
    if steps == [] {
      assert Taken([], map[]) == [];
    } else {
      var s, step := RunFrom(INIT, steps[..|steps| - 1]), steps[|steps| - 1];
      ExactlyOnce(steps[..|steps| - 1]);
      AccountedStep(s, step);
      ConservedStep(s, step);
    }
  }

  // ----------------------------------------------- in order, under the lock

  /** What the call now inside has taken and not yet returned. */
  function InFlight(s: System): seq<CallId> {
    if s.lock.Some? && s.lock.value.owner in s.batches then [s.lock.value.owner] else []
  }

  /** Batches are returned in the order they were taken; at most the last one is still on its way. */
  ghost predicate InOrder(s: System) {
    s.takers == s.returned + InFlight(s)
  }

  lemma {:induction false} InOrderStep(s: System, step: Step)
    requires Exclusive(s) && Accounted(s) && InOrder(s)
    requires !RemovesLiveLock(s, step) && !step.Crash? && NoCrash(s)
    ensures InOrder(Next(s, step))
  {
    if step.Advance? && step.call in s.calls {
      InOrderAdvance(s, step.call);
    }
  }

  ghost predicate NoCrash(s: System) {
    forall c :: c in s.calls ==> !s.calls[c].pc.Crashed?
  }

  lemma {:induction false} InOrderAdvance(s: System, c: CallId)
    requires Exclusive(s) && Accounted(s) && InOrder(s) && NoCrash(s)
    requires c in s.calls && !RemovesLiveLock(s, Advance(c))
    ensures InOrder(AdvanceCall(s, c))
  {
    var t := AdvanceCall(s, c);
    TakersChange(s, c);
    assert Holds(s, c);
    assert s.lock.Some? ==> IsInside(s, s.lock.value.owner);
    if IsInside(s, c) {
      assert s.lock.Some? && s.lock.value.owner == c;
    }
    ReturnedChange(s, c);
  }

  lemma {:induction false} ReturnedChange(s: System, c: CallId)
    requires c in s.calls
    ensures
      var t, pc := AdvanceCall(s, c), s.calls[c].pc;
      && t.returned == (if pc.Releasing? && s.calls[c].kind != CliRead then s.returned + [c] else s.returned)
      && t.lock == if pc.Creating? && s.lock.None? then Some(Lock(c, s.clock))
                   else if pc.Removing? || pc.Releasing? then None else s.lock
  {
  }

  /**
   The log read back: with prompt stale checks, no crash and no truncation or unlink of fresh lines, the results
   returned so far, then the batch in flight, then the log file spell out exactly what was appended.
   */
  lemma {:induction false} DrainsInOrder(steps: seq<Step>)
    requires Throughout(INIT, steps, (s, step) => !ChecksLate(s, step) && !step.Crash? && !LosesLines(s, step))
    ensures
      var s := RunFrom(INIT, steps);
      && Taken(s.returned + InFlight(s), s.batches) + Current(s) == s.appended
      && forall c :: c in s.returned ==> c in s.calls && c in s.batches && s.calls[c].pc == Returned(s.batches[c])
  {
    DrainInvariant(steps);
    var s := RunFrom(INIT, steps);
    forall c | c in s.returned ensures c in s.calls && c in s.batches && s.calls[c].pc == Returned(s.batches[c]) {
      assert Holds(s, c);
    }
  }

  ghost predicate DrainInv(s: System) {
    && Exclusive(s) && Accounted(s) && Conserved(s) && InOrder(s) && NoCrash(s)
    && Settled(s)
  }

  ghost predicate Settled(s: System) {
    && (forall c :: c in s.calls ==> !s.calls[c].pc.Removing?)
    && (forall c :: c in s.returned ==> c in s.calls && s.calls[c].pc.Returned? && s.calls[c].kind != CliRead)
  }

  lemma {:induction false} SettledAdvance(s: System, c: CallId)
    requires Settled(s) && NoCrash(s) && c in s.calls && !ChecksLate(s, Advance(c))
    ensures Settled(AdvanceCall(s, c)) && NoCrash(AdvanceCall(s, c))
  {
  }

  lemma {:induction false} DrainInvariant(steps: seq<Step>)
    requires Throughout(INIT, steps, (s, step) => !ChecksLate(s, step) && !step.Crash? && !LosesLines(s, step))
    ensures DrainInv(RunFrom(INIT, steps))
  {
    if steps == [] {
      assert Taken([], map[]) == [];
    } else {
      DrainInvariant(steps[..|steps| - 1]);
      DrainInvStep(RunFrom(INIT, steps[..|steps| - 1]), steps[|steps| - 1]);
    }
  }

  lemma {:induction false} DrainInvStep(s: System, step: Step)
    requires DrainInv(s) && !ChecksLate(s, step) && !step.Crash? && !LosesLines(s, step)
    ensures DrainInv(Next(s, step))
  {
    ExclusiveStep(s, step);
    AccountedStep(s, step);
    ConservedStep(s, step);
    InOrderStep(s, step);
    if step.Advance? && step.call in s.calls {
      SettledAdvance(s, step.call);
    }
  }

  /** The CLI's truncating recreate loses any line appended after its rename, whatever came before. */
  lemma {:induction false} CliResetLosesLine(s: System, c: CallId, line: Line)
    requires Accounted(s) && Conserved(s)
    requires c in s.calls && s.calls[c] == Call(CliReset, Recreating)
    ensures !Conserved(Next(Next(s, Append(line)), Advance(c)))
  {
  }

  /** From the very start: a line, a CLI reset up to its rename, another line, and the recreate loses the latter. */
  lemma {:induction false} CliResetLossReachable(a: Line, b: Line)
    ensures
      !Conserved(RunFrom(INIT,
        [Append(a), Begin(0, CliReset)] + [Advance(0), Advance(0)] + [Append(b), Advance(0)]))
  {
    var begin, reset := [Append(a), Begin(0, CliReset)], [Advance(0), Advance(0)];
    RunAppend(INIT, begin + reset, [Append(b), Advance(0)]);
    RunAppend(INIT, begin, reset);
    RunTwo(INIT, Append(a), Begin(0, CliReset));
    assert [] + [a] == [a];
    Renames(RunFrom(INIT, begin), a);
    var t := RunFrom(RunFrom(INIT, begin), reset);
    RunTwo(t, Append(b), Advance(0));
    LossAt(t, a, b);
  }

  lemma {:induction false} Renames(s: System, a: Line)
    requires s == INIT.(log := Some([a]), appended := [a], calls := map[0 := Call(CliReset, Creating(0))])
    ensures
      var t := RunFrom(s, [Advance(0), Advance(0)]);
      && 0 in t.calls && t.calls[0] == Call(CliReset, Recreating) && t.takers == [0]
      && t.batches == map[0 := [a]] && t.appended == [a] && t.log == None
  {
    RunTwo(s, Advance(0), Advance(0));
    assert [] + [0] == [0];
  }

  lemma {:induction false} LossAt(s: System, a: Line, b: Line)
    requires 0 in s.calls && s.calls[0] == Call(CliReset, Recreating) && s.takers == [0]
    requires s.batches == map[0 := [a]] && s.appended == [a] && s.log == None
    ensures !Conserved(Next(Next(s, Append(b)), Advance(0)))
  {
    var t := Next(Next(s, Append(b)), Advance(0));
    assert [0][..0] == [];
    assert Taken(t.takers, t.batches) == Taken([], t.batches) + [a] == [a];
    assert |t.appended| == 2;
  }
}
