/** What a call does on its way to the log and back: how long it tries, what a reading call returns, what it leaves. */
module LogProtocolLaws {
  import opened Seqs
  import opened LogProtocol

  // ---------------------------------------------------------- read-only calls

  predicate IsReader(s: System, c: CallId) {
    c in s.calls && s.calls[c].kind == CliRead
  }

  /** The read itself leaves the log, the batches and everybody else alone, and finds the rest of what was appended. */
  lemma {:induction false} ReadFindsTheRest(s: System, c: CallId)
    requires Conserved(s) && IsReader(s, c) && s.calls[c].pc.Renaming?
    ensures
      var t := Next(s, Advance(c));
      && t == s.(calls := t.calls) && t.calls == s.calls[c := t.calls[c]] && t.calls[c].pc.Releasing?
      && Taken(s.takers, s.batches) + t.calls[c].pc.result == s.appended
  {
  }

  /** The call has read, and is on its way back with the result or has returned it. */
  predicate HasRead(s: System, c: CallId, result: seq<Line>) {
    IsReader(s, c) && (s.calls[c].pc == Releasing(result) || s.calls[c].pc == Returned(result))
  }

  /** A result once read is the one returned. */
  lemma {:induction false} ResultStays(s: System, step: Step, c: CallId, result: seq<Line>)
    requires HasRead(Next(s, step), c, result) && (c in s.calls ==> ReadersSkip(s.calls[c]))
    ensures HasRead(s, c, result) || (step == Advance(c) && IsReader(s, c) && s.calls[c].pc.Renaming?)
  {
    if step.Advance? && step.call in s.calls {
      assert AdvanceCall(s, step.call).calls[step.call].kind == s.calls[step.call].kind;
    }
  }

  /**
   In every run without lost lines, a reading call that returns has one moment in the run, its read, at which its
   result was exactly the lines appended up to then that no draining call had taken.
   */
  lemma {:induction false} ReadTellsTheRest(steps: seq<Step>, c: CallId, result: seq<Line>) returns (n: nat)
    requires Throughout(INIT, steps, (s, step) => !LosesLines(s, step))
    requires HasRead(RunFrom(INIT, steps), c, result)
    ensures n < |steps| && steps[n] == Advance(c)
    ensures
      var s := RunFrom(INIT, steps[..n]);
      && IsReader(s, c) && s.calls[c].pc.Renaming?
      && Taken(s.takers, s.batches) + result == s.appended
  {
    var s, step := RunFrom(INIT, steps[..|steps| - 1]), steps[|steps| - 1];
    ExactlyOnce(steps[..|steps| - 1]);
    ResultStays(s, step, c, result);
    if HasRead(s, c, result) {
      n := ReadTellsTheRest(steps[..|steps| - 1], c, result);
      assert steps[..|steps| - 1][..n] == steps[..n];
    } else {
      n := |steps| - 1;
      ReadFindsTheRest(s, c);
    }
  }

  // ------------------------------------------------------------ how a call tries

  /** The attempt the call is in, if it has not got in yet. */
  function Attempt(pc: Pc): Option<nat> {
    match pc
    case Creating(k) => Some(k)
    case Reading(k) => Some(k)
    case Removing(k) => Some(k)
    case Sleeping(k) => Some(k)
    case _ => None
  }

  /**
   One step of a call that has not got in yet: it gets in exactly when it finds no lock file, it goes to remove one
   exactly when that is more than 30 s old, and it gives up exactly after its tenth attempt.
   */
  lemma {:induction false} AttemptDecision(s: System, c: CallId)
    requires c in s.calls && Attempt(s.calls[c].pc).Some?
    ensures
      var t, pc, k := Next(s, Advance(c)), s.calls[c].pc, Attempt(s.calls[c].pc).value;
      && (IsInside(t, c) <==> pc.Creating? && s.lock.None?)
      && (IsInside(t, c) ==> t.lock == Some(Lock(c, s.clock)))
      && (t.calls[c].pc.Removing? <==> pc.Reading? && s.lock.Some? && s.clock - s.lock.value.timestamp > 30000)
      && (t.calls[c].pc == GaveUp <==> (pc.Removing? || pc.Sleeping?) && k + 1 >= 10)
      && (pc.Removing? ==> t.lock.None?) && (pc.Reading? || pc.Sleeping? ==> t.lock == s.lock)
      && (t.log, t.temps, t.appended, t.takers, t.batches) == (s.log, s.temps, s.appended, s.takers, s.batches)
      && (Attempt(t.calls[c].pc).Some? ==>
           Attempt(t.calls[c].pc).value == if pc.Removing? || pc.Sleeping? then k + 1 else k)
  {
  }

  /** Every call starts with its first attempt, and none makes an eleventh. */
  lemma {:induction false} TenAttempts(steps: seq<Step>, c: CallId)
    ensures
      var s := RunFrom(INIT, steps);
      c in s.calls && Attempt(s.calls[c].pc).Some? ==> Attempt(s.calls[c].pc).value < 10
  {
    if steps != [] {
      var s, step := RunFrom(INIT, steps[..|steps| - 1]), steps[|steps| - 1];
      TenAttempts(steps[..|steps| - 1], c);
      if step == Advance(c) && c in s.calls && Attempt(s.calls[c].pc).Some? {
        AttemptDecision(s, c);
      }
    }
  }

  // ------------------------------------------------------------- every call ends

  /** How many steps of its own a call still takes at most. */
  function StepsLeft(pc: Pc): nat {
    match pc
    case Creating(k) => if k < 10 then 5 + 3 * (10 - k) else 0
    case Reading(k) => if k < 10 then 4 + 3 * (10 - k) else 0
    case Removing(k) => if k < 10 then 3 + 3 * (10 - k) else 0
    case Sleeping(k) => if k < 10 then 3 + 3 * (10 - k) else 0
    case Renaming => 5
    case Recreating => 4
    case ReadingTemp => 3
    case RemovingTemp(_) => 2
    case Releasing(_) => 1
    case Returned(_) => 0
    case GaveUp => 0
    case Crashed(_) => 0
  }

  predicate HasEnded(pc: Pc) {
    pc.Returned? || pc.GaveUp?
  }

  predicate Ended(s: System, c: CallId) {
    c in s.calls && HasEnded(s.calls[c].pc)
  }

  /** The call has not crashed and is within its ten attempts. */
  predicate UnderWay(s: System, c: CallId) {
    c in s.calls && !s.calls[c].pc.Crashed? && (Attempt(s.calls[c].pc).Some? ==> Attempt(s.calls[c].pc).value < 10)
  }

  /** Every step of its own brings a call nearer to its end, and no step of anybody else takes it farther away. */
  lemma {:induction false} StepsDecrease(s: System, step: Step, c: CallId)
    requires UnderWay(s, c) && step != Crash(c)
    ensures
      var t := Next(s, step);
      && UnderWay(t, c)
      && (if step == Advance(c) && !HasEnded(s.calls[c].pc)
          then StepsLeft(t.calls[c].pc) < StepsLeft(s.calls[c].pc) else t.calls[c].pc == s.calls[c].pc)
  {
    if step.Advance? && step.call != c && step.call in s.calls {
      OthersStay(s, step.call, c);
    }
  }

  function OwnSteps(steps: seq<Step>, c: CallId): nat {
    if steps == [] then 0
    else OwnSteps(steps[..|steps| - 1], c) + if steps[|steps| - 1] == Advance(c) then 1 else 0
  }

  lemma {:induction false} StepsRunOut(s: System, steps: seq<Step>, c: CallId)
    requires UnderWay(s, c) && Crash(c) !in steps
    ensures
      var t := RunFrom(s, steps);
      && UnderWay(t, c)
      && (HasEnded(t.calls[c].pc) || StepsLeft(t.calls[c].pc) + OwnSteps(steps, c) <= StepsLeft(s.calls[c].pc))
  {
    if steps != [] {
      var last := steps[|steps| - 1];
      assert last in steps;
      StepsRunOut(s, steps[..|steps| - 1], c);
      StepsDecrease(RunFrom(s, steps[..|steps| - 1]), last, c);
    }
  }

  /**
   A call never waits for anybody: within 35 steps of its own, whatever the others do meanwhile, it has returned a
   result or given up; and within five once it is inside, it has returned.
   */
  lemma {:induction false} EveryCallEnds(s: System, steps: seq<Step>, c: CallId)
    requires UnderWay(s, c) && Crash(c) !in steps
    ensures OwnSteps(steps, c) >= 35 ==> Ended(RunFrom(s, steps), c)
    ensures IsInside(s, c) && OwnSteps(steps, c) >= 5 ==> Ended(RunFrom(s, steps), c)
  {
    StepsRunOut(s, steps, c);
    StepsAtEnd(RunFrom(s, steps).calls[c].pc);
    assert StepsLeft(s.calls[c].pc) <= 35;
  }

  /** A call that has not ended has a step left. */
  lemma {:induction false} StepsAtEnd(pc: Pc)
    requires !pc.Crashed? && (Attempt(pc).Some? ==> Attempt(pc).value < 10)
    ensures HasEnded(pc) <==> StepsLeft(pc) == 0
  {
  }

  // --------------------------------------------------------- what a call leaves

  /** The call is between its rename and the removal of its temporary file, or crashed. */
  predicate MayHaveTemp(pc: Pc) {
    pc.Recreating? || pc.ReadingTemp? || pc.RemovingTemp? || pc.Crashed?
  }

  ghost predicate TempsInUse(s: System) {
    forall c :: c in s.temps ==> c in s.calls && MayHaveTemp(s.calls[c].pc)
  }

  lemma {:induction false} TempsAdvance(s: System, c: CallId)
    requires TempsInUse(s) && c in s.calls
    ensures TempsInUse(AdvanceCall(s, c))
  {
    var t := AdvanceCall(s, c);
    forall d | d in t.temps ensures d in t.calls && MayHaveTemp(t.calls[d].pc) {
      if d != c {
        assert d in s.temps;
        OthersStay(s, c, d);
      }
    }
  }

  /** In every run, temporary files are left by calls that are not done with them or have crashed, and by no others. */
  lemma {:induction false} TempsAreInUse(steps: seq<Step>)
    ensures TempsInUse(RunFrom(INIT, steps))
  {
    if steps != [] {
      var s, step := RunFrom(INIT, steps[..|steps| - 1]), steps[|steps| - 1];
      TempsAreInUse(steps[..|steps| - 1]);
      if step.Advance? && step.call in s.calls {
        TempsAdvance(s, step.call);
      }
    }
  }

  /** A call that has come back, with a result or without, holds no lock. */
  lemma {:induction false} NobodyKeepsTheLock(s: System, c: CallId)
    requires c in s.calls && s.calls[c].pc.Releasing?
    ensures
      var t := Next(s, Advance(c));
      t.lock.None? && t.calls[c].pc == Returned(s.calls[c].pc.result)
  {
  }
}
