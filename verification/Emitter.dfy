/** The typed event emitter: listeners are called in the order they were registered, as registered at that moment. */
module Emitter {
  import opened Seqs

  /** What a caller, or a callback during an emission, does to the registrations. */
  datatype Call<E, L> = On(event: E, cb: L) | Off(event: E, cb: L) | OnAny(cb: L) | OffAny(cb: L)

  /** The two fields of the emitter; a JavaScript `Set` is the sequence of its elements in insertion order. */
  datatype Registry<E, L> = Registry(listeners: map<E, seq<L>>, anyListeners: seq<L>)

  function Without<L(==)>(s: seq<L>, l: L): (r: seq<L>)
    ensures l !in r
    ensures forall x :: x in r ==> x in s
    ensures forall x :: x in s && x != l ==> x in r
  {
    if s == [] then [] else (if s[0] == l then [] else [s[0]]) + Without(s[1..], l)
  }

  function With<L(==)>(s: seq<L>, l: L): seq<L> {
    if l in s then s else s + [l]
  }

  /** The listeners of one event, or the catch-all listeners. */
  function Members<E, L>(r: Registry<E, L>, target: Option<E>): seq<L> {
    match target
    case None => r.anyListeners
    case Some(event) => if event in r.listeners then r.listeners[event] else []
  }

  function Do<E(==), L(==)>(r: Registry<E, L>, call: Call<E, L>): Registry<E, L> {
    match call
    case On(event, cb) => r.(listeners := r.listeners[event := With(Members(r, Some(event)), cb)])
    case Off(event, cb) =>
      var rest := Without(Members(r, Some(event)), cb);
      r.(listeners := if rest == [] then r.listeners - {event} else r.listeners[event := rest])
    case OnAny(cb) => r.(anyListeners := With(r.anyListeners, cb))
    case OffAny(cb) => r.(anyListeners := Without(r.anyListeners, cb))
  }

  function DoAll<E(==), L(==)>(r: Registry<E, L>, calls: seq<Call<E, L>>): Registry<E, L>
    decreases calls
  {
    if calls == [] then r else DoAll(Do(r, calls[0]), calls[1..])
  }

  /** The call takes `l` out of the target. */
  predicate Removes<E(==), L(==)>(call: Call<E, L>, target: Option<E>, l: L) {
    match call
    case Off(event, cb) => target == Some(event) && cb == l
    case OffAny(cb) => target == None && cb == l
    case _ => false
  }

  predicate Spares<E(==), L(==)>(calls: seq<Call<E, L>>, target: Option<E>, l: L) {
    forall call :: call in calls ==> !Removes(call, target, l)
  }

  // --------------------------------------------------------------- emission

  /**
   An iteration over a `Set` while callbacks change it: `next` elements of the set have been visited and are still
   there. Taking out the last listener of an event drops its set from the map, so the set under iteration stays empty
   from then on, whatever is registered afterwards.
   */
  datatype Cursor<E, L> = Cursor(r: Registry<E, L>, next: nat, live: bool)

  predicate Fits<E, L>(c: Cursor<E, L>, target: Option<E>) {
    c.next <= |Members(c.r, target)|
  }

  function Move<E(==), L(==)>(c: Cursor<E, L>, target: Option<E>, call: Call<E, L>): (d: Cursor<E, L>)
    requires Fits(c, target)
    ensures d.r == Do(c.r, call)
  {
    var r := Do(c.r, call);
    var removed := (call.Off? && target == Some(call.event)) || (call.OffAny? && target == None);
    Cursor(r,
           if removed then |Without(Members(c.r, target)[..c.next], call.cb)| else c.next,
           c.live && (removed && target.Some? ==> Members(r, target) != []))
  }

  lemma {:induction false} WithoutConcat<L>(a: seq<L>, b: seq<L>, l: L)
    ensures Without(a + b, l) == Without(a, l) + Without(b, l)
  {
    if a == [] {
      assert a + b == b;
    } else {
      assert (a + b)[1..] == a[1..] + b;
      WithoutConcat(a[1..], b, l);
      var head := if a[0] == l then [] else [a[0]];
      assert head + (Without(a[1..], l) + Without(b, l)) == (head + Without(a[1..], l)) + Without(b, l);
    }
  }

  lemma {:induction false} WithoutNone<L>(s: seq<L>, l: L)
    requires l !in s
    ensures Without(s, l) == s
  {
    if s != [] {
      WithoutNone(s[1..], l);
    }
  }

  /** How one call changes the members of one target. */
  lemma {:induction false} MembersAfter<E, L>(r: Registry<E, L>, target: Option<E>, call: Call<E, L>)
    ensures
      var before, after := Members(r, target), Members(Do(r, call), target);
      match call
      case On(event, cb) => after == if target == Some(event) then With(before, cb) else before
      case Off(event, cb) => after == if target == Some(event) then Without(before, cb) else before
      case OnAny(cb) => after == if target == None then With(before, cb) else before
      case OffAny(cb) => after == if target == None then Without(before, cb) else before
  {
  }

  lemma {:induction false} MoveFits<E, L>(c: Cursor<E, L>, target: Option<E>, call: Call<E, L>)
    requires Fits(c, target)
    ensures Fits(Move(c, target, call), target)
  {
    var s := Members(c.r, target);
    MembersAfter(c.r, target, call);
    if call.Off? || call.OffAny? {
      assert s == s[..c.next] + s[c.next..];
      WithoutConcat(s[..c.next], s[c.next..], call.cb);
    }
  }

  function MoveAll<E(==), L(==)>(c: Cursor<E, L>, target: Option<E>, calls: seq<Call<E, L>>): (d: Cursor<E, L>)
    requires Fits(c, target)
    ensures Fits(d, target)
    decreases calls
  {
    if calls == [] then c
    else
      MoveFits(c, target, calls[0]);
      MoveAll(Move(c, target, calls[0]), target, calls[1..])
  }

  /** What the next callback does: the script holds one entry for each callback that changes registrations, in turn. */
  function Turn<E, L>(script: seq<seq<Call<E, L>>>): seq<Call<E, L>> {
    if script == [] then [] else script[0]
  }

  function Later<E, L>(script: seq<seq<Call<E, L>>>): seq<seq<Call<E, L>>> {
    if script == [] then [] else script[1..]
  }

  predicate Finished<E, L>(c: Cursor<E, L>, target: Option<E>) {
    !c.live || c.next >= |Members(c.r, target)|
  }

  /** The cursor after the next callback has run. */
  function Advance<E(==), L(==)>(c: Cursor<E, L>, target: Option<E>, calls: seq<Call<E, L>>): (d: Cursor<E, L>)
    requires Fits(c, target) && !Finished(c, target)
    ensures Fits(d, target)
  {
    MoveAll(c.(next := c.next + 1), target, calls)
  }

  /** The callbacks an iteration calls, the registrations afterwards, and what is left of the script. */
  datatype Visited<E, L> = Visited(called: seq<L>, r: Registry<E, L>, script: seq<seq<Call<E, L>>>)

  function Visit<E(==), L(==)>(c: Cursor<E, L>, target: Option<E>, script: seq<seq<Call<E, L>>>): Visited<E, L>
    requires Fits(c, target)
    decreases |script|, |Members(c.r, target)| - c.next
  {
    if Finished(c, target) then Visited([], c.r, script)
    else
      var rest := Visit(Advance(c, target, Turn(script)), target, Later(script));
      rest.(called := [Members(c.r, target)[c.next]] + rest.called)
  }

  /** An iteration that has called some callbacks and goes on. */
  function Resumed<E(==), L(==)>(
    called: seq<L>, c: Cursor<E, L>, target: Option<E>, script: seq<seq<Call<E, L>>>): Visited<E, L>
    requires Fits(c, target)
  {
    var rest := Visit(c, target, script);
    rest.(called := called + rest.called)
  }

  lemma {:induction false} VisitNext<E, L>(
    called: seq<L>, c: Cursor<E, L>, target: Option<E>, script: seq<seq<Call<E, L>>>)
    requires Fits(c, target) && !Finished(c, target)
    ensures
      Resumed(called, c, target, script) ==
      Resumed(called + [Members(c.r, target)[c.next]], Advance(c, target, Turn(script)), target, Later(script))
  {
    var rest := Visit(Advance(c, target, Turn(script)), target, Later(script)).called;
    var l := Members(c.r, target)[c.next];
    assert called + ([l] + rest) == called + [l] + rest;
  }

  function Begin<E, L>(r: Registry<E, L>): Cursor<E, L> {
    Cursor(r, 0, true)
  }

  /** The catch-all listeners first, then the listeners the event has by then. */
  function EmitOutcome<E(==), L(==)>(r: Registry<E, L>, event: E, script: seq<seq<Call<E, L>>>): Visited<E, L> {
    var all := Visit(Begin(r), None, script);
    var own := Visit(Begin(all.r), Some(event), all.script);
    own.(called := all.called + own.called)
  }

  // ------------------------------------------------ who is called, and when

  predicate ScriptSpares<E(==), L(==)>(script: seq<seq<Call<E, L>>>, target: Option<E>, l: L) {
    forall calls :: calls in script ==> Spares(calls, target, l)
  }

  predicate SparesAll<E(==), L(==)>(calls: seq<Call<E, L>>, target: Option<E>, ls: seq<L>) {
    forall l :: l in ls ==> Spares(calls, target, l)
  }

  predicate ScriptSparesAll<E(==), L(==)>(script: seq<seq<Call<E, L>>>, target: Option<E>, ls: seq<L>) {
    forall calls :: calls in script ==> SparesAll(calls, target, ls)
  }

  /** Whoever comes first and is not removed stays in front of everybody else. */
  lemma {:induction false} PrefixKept<E, L>(first: seq<L>, r: Registry<E, L>, target: Option<E>, call: Call<E, L>)
    requires first <= Members(r, target) && forall l :: l in first ==> !Removes(call, target, l)
    ensures first <= Members(Do(r, call), target)
  {
    var s := Members(r, target);
    MembersAfter(r, target, call);
    assert s == first + s[|first|..];
    if call.Off? || call.OffAny? {
      WithoutConcat(first, s[|first|..], call.cb);
      if call.cb !in first {
        WithoutNone(first, call.cb);
      }
    }
  }

  /** So over any later registrations and removals by others. */
  lemma {:induction false} EarlierStaysFirst<E, L>(
    first: seq<L>, r: Registry<E, L>, target: Option<E>, calls: seq<Call<E, L>>)
    requires first <= Members(r, target) && SparesAll(calls, target, first)
    ensures first <= Members(DoAll(r, calls), target)
    decreases calls
  {
    if calls != [] {
      assert calls[0] in calls;
      PrefixKept(first, r, target, calls[0]);
      EarlierStaysFirst(first, Do(r, calls[0]), target, calls[1..]);
    }
  }

  /** While the iteration is among the first, none of their places shifts. */
  lemma {:induction false} CursorKept<E, L>(
    first: seq<L>, c: Cursor<E, L>, target: Option<E>, calls: seq<Call<E, L>>)
    requires Fits(c, target) && c.live && c.next <= |first| && first != []
    requires first <= Members(c.r, target) && SparesAll(calls, target, first)
    ensures
      var d := MoveAll(c, target, calls);
      first <= Members(d.r, target) && d.live && d.next == c.next
    decreases calls
  {
    if calls != [] {
      var s := Members(c.r, target);
      assert calls[0] in calls;
      PrefixKept(first, c.r, target, calls[0]);
      MoveFits(c, target, calls[0]);
      assert s[..c.next] == first[..c.next];
      if (calls[0].Off? || calls[0].OffAny?) && calls[0].cb !in first {
        WithoutNone(s[..c.next], calls[0].cb);
      }
      CursorKept(first, Move(c, target, calls[0]), target, calls[1..]);
    }
  }

  /** Whatever callbacks register and remove meanwhile, those who come first and stay are called first, each once. */
  lemma {:induction false} FirstAreCalledFirst<E, L>(
    first: seq<L>, c: Cursor<E, L>, target: Option<E>, script: seq<seq<Call<E, L>>>)
    requires Fits(c, target) && c.live && c.next <= |first| && first != []
    requires first <= Members(c.r, target) && ScriptSparesAll(script, target, first)
    ensures first[c.next..] <= Visit(c, target, script).called
    decreases |first| - c.next
  {
    if c.next < |first| {
      var calls := Turn(script);
      assert SparesAll(calls, target, first);
      assert !Finished(c, target) && Members(c.r, target)[c.next] == first[c.next];
      CursorKept(first, c.(next := c.next + 1), target, calls);
      FirstAreCalledFirst(first, Advance(c, target, calls), target, Later(script));
      assert first[c.next..] == [first[c.next]] + first[c.next + 1..];
    }
  }

  /** An iteration over one target leaves alone whoever comes first in another and is not removed. */
  lemma {:induction false} VisitKeeps<E, L>(
    first: seq<L>, kept: Option<E>, c: Cursor<E, L>, target: Option<E>, script: seq<seq<Call<E, L>>>)
    requires Fits(c, target) && first <= Members(c.r, kept) && ScriptSparesAll(script, kept, first)
    ensures
      var v := Visit(c, target, script);
      first <= Members(v.r, kept) && ScriptSparesAll(v.script, kept, first)
    decreases |script|, |Members(c.r, target)| - c.next
  {
    if !Finished(c, target) {
      var calls := Turn(script);
      assert SparesAll(calls, kept, first);
      MoveAllIsDoAll(c.(next := c.next + 1), target, calls);
      EarlierStaysFirst(first, c.r, kept, calls);
      VisitKeeps(first, kept, Advance(c, target, calls), target, Later(script));
    }
  }

  lemma {:induction false} MoveAllIsDoAll<E, L>(c: Cursor<E, L>, target: Option<E>, calls: seq<Call<E, L>>)
    requires Fits(c, target)
    ensures MoveAll(c, target, calls).r == DoAll(c.r, calls)
    decreases calls
  {
    if calls != [] {
      MoveFits(c, target, calls[0]);
      MoveAllIsDoAll(Move(c, target, calls[0]), target, calls[1..]);
    }
  }

  /** In every emission: the catch-all listeners, then whoever came first among the event's own and stays. */
  lemma {:induction false} EmissionOrder<E, L>(
    first: seq<L>, r: Registry<E, L>, event: E, script: seq<seq<Call<E, L>>>)
    requires first != [] && first <= Members(r, Some(event)) && ScriptSparesAll(script, Some(event), first)
    ensures Visit(Begin(r), None, script).called + first <= EmitOutcome(r, event, script).called
  {
    var all := Visit(Begin(r), None, script);
    VisitKeeps(first, Some(event), Begin(r), None, script);
    FirstAreCalledFirst(first, Begin(all.r), Some(event), all.script);
    assert first[0..] == first;
    var own := Visit(Begin(all.r), Some(event), all.script).called;
    assert own == first + own[|first|..];
    assert all.called + own == all.called + first + own[|first|..];
  }

  lemma {:induction false} AheadWith<L>(s: seq<L>, n: nat, x: L, l: L)
    requires n <= |s| && l in s[n..]
    ensures l in With(s, x)[n..]
  {
    assert s[n..] <= With(s, x)[n..];
  }

  lemma {:induction false} AheadWithout<L>(s: seq<L>, n: nat, x: L, l: L)
    requires n <= |s| && l in s[n..] && l != x
    ensures
      var passed := |Without(s[..n], x)|;
      passed <= |Without(s, x)| && l in Without(s, x)[passed..]
  {
    assert s == s[..n] + s[n..];
    WithoutConcat(s[..n], s[n..], x);
    assert Without(s, x)[|Without(s[..n], x)|..] == Without(s[n..], x);
  }

  lemma {:induction false} StillAhead<E, L>(c: Cursor<E, L>, target: Option<E>, call: Call<E, L>, l: L)
    requires Fits(c, target) && c.live && l in Members(c.r, target)[c.next..] && !Removes(call, target, l)
    ensures
      var d := Move(c, target, call);
      Fits(d, target) && d.live && l in Members(d.r, target)[d.next..]
  {
    var s := Members(c.r, target);
    MembersAfter(c.r, target, call);
    match call
    case On(event, cb) => AheadWith(s, c.next, cb, l);
    case OnAny(cb) => AheadWith(s, c.next, cb, l);
    case Off(event, cb) =>
      if target == Some(event) {
        AheadWithout(s, c.next, cb, l);
      }
    case OffAny(cb) =>
      if target == None {
        AheadWithout(s, c.next, cb, l);
      }
  }

  lemma {:induction false} NotPassedBy<E, L>(
    c: Cursor<E, L>, target: Option<E>, calls: seq<Call<E, L>>, l: L)
    requires Fits(c, target) && c.live && l in Members(c.r, target)[c.next..] && Spares(calls, target, l)
    ensures
      var d := MoveAll(c, target, calls);
      d.live && l in Members(d.r, target)[d.next..]
    decreases calls
  {
    if calls != [] {
      assert calls[0] in calls;
      StillAhead(c, target, calls[0], l);
      NotPassedBy(Move(c, target, calls[0]), target, calls[1..], l);
    }
  }

  /** Nobody who is still to be visited and is not removed is skipped. */
  lemma {:induction false} NobodyIsSkipped<E, L>(
    c: Cursor<E, L>, target: Option<E>, script: seq<seq<Call<E, L>>>, l: L)
    requires Fits(c, target) && c.live && l in Members(c.r, target)[c.next..] && ScriptSpares(script, target, l)
    ensures l in Visit(c, target, script).called
    decreases |script|, |Members(c.r, target)| - c.next
  {
    var s, calls := Members(c.r, target), Turn(script);
    assert Spares(calls, target, l);
    if s[c.next] != l {
      assert s[c.next..] == [s[c.next]] + s[c.next + 1..];
      NotPassedBy(c.(next := c.next + 1), target, calls, l);
      NobodyIsSkipped(Advance(c, target, calls), target, Later(script), l);
    }
  }

  /** When callbacks leave the registrations alone, the listeners registered at the start are called, each once. */
  lemma {:induction false} QuietVisit<E, L>(c: Cursor<E, L>, target: Option<E>)
    requires Fits(c, target) && c.live
    ensures Visit(c, target, []) == Visited(Members(c.r, target)[c.next..], c.r, [])
    decreases |Members(c.r, target)| - c.next
  {
    var s := Members(c.r, target);
    if c.next < |s| {
      QuietVisit(c.(next := c.next + 1), target);
      assert s[c.next..] == [s[c.next]] + s[c.next + 1..];
    }
  }

  lemma {:induction false} QuietEmission<E, L>(r: Registry<E, L>, event: E)
    ensures EmitOutcome(r, event, []) == Visited(r.anyListeners + Members(r, Some(event)), r, [])
  {
    QuietVisit(Begin(r), None);
    QuietVisit(Begin(r), Some(event));
  }

  /** The call takes somebody out of the target. */
  predicate TakesOut<E(==), L>(call: Call<E, L>, target: Option<E>) {
    (call.Off? && target == Some(call.event)) || (call.OffAny? && target == None)
  }

  predicate TakesNobodyOut<E(==), L(==)>(calls: seq<Call<E, L>>, target: Option<E>) {
    forall call :: call in calls ==> !TakesOut(call, target)
  }

  lemma {:induction false} MoveAllGrows<E, L>(c: Cursor<E, L>, target: Option<E>, calls: seq<Call<E, L>>)
    requires Fits(c, target) && TakesNobodyOut(calls, target)
    ensures
      var d := MoveAll(c, target, calls);
      d.next == c.next && d.live == c.live && Members(c.r, target) <= Members(d.r, target)
    decreases calls
  {
    if calls != [] {
      assert calls[0] in calls;
      MembersAfter(c.r, target, calls[0]);
      MoveFits(c, target, calls[0]);
      MoveAllGrows(Move(c, target, calls[0]), target, calls[1..]);
    }
  }

  /**
   While callbacks take nobody out, everybody who is still ahead is called once, in order of registration, and so is
   whoever registers meanwhile.
   */
  lemma {:induction false} EverybodyOnce<E, L>(
    c: Cursor<E, L>, target: Option<E>, script: seq<seq<Call<E, L>>>)
    requires Fits(c, target) && c.live && forall calls :: calls in script ==> TakesNobodyOut(calls, target)
    ensures
      var v := Visit(c, target, script);
      Members(c.r, target) <= Members(v.r, target) && v.called == Members(v.r, target)[c.next..]
    decreases |script|, |Members(c.r, target)| - c.next
  {
    var s, calls := Members(c.r, target), Turn(script);
    if c.next < |s| {
      MoveAllGrows(c.(next := c.next + 1), target, calls);
      EverybodyOnce(Advance(c, target, calls), target, Later(script));
      var last := Members(Visit(c, target, script).r, target);
      assert s <= last && last[c.next..] == [last[c.next]] + last[c.next + 1..];
    }
  }

  /** The part of the script that callbacks have performed when so many have been called. */
  function Performed<E, L>(script: seq<seq<Call<E, L>>>, n: nat): seq<seq<Call<E, L>>> {
    if n <= |script| then script[..n] else script
  }

  lemma {:induction false} PerformedNext<E, L>(script: seq<seq<Call<E, L>>>, n: nat)
    ensures Flatten(Performed(script, n + 1)) == Turn(script) + Flatten(Performed(Later(script), n))
  {
    if script == [] {
      assert Flatten(Performed(script, n + 1)) == [] && Flatten(Performed(Later(script), n)) == [];
    } else {
      assert Performed(script, n + 1) == [script[0]] + Performed(script[1..], n);
      assert ([script[0]] + Performed(script[1..], n))[1..] == Performed(script[1..], n);
    }
  }

  /** An iteration performs the script, one entry for each callback, and nothing else. */
  lemma {:induction false} VisitPerforms<E, L>(
    c: Cursor<E, L>, target: Option<E>, script: seq<seq<Call<E, L>>>)
    requires Fits(c, target)
    ensures
      var v := Visit(c, target, script);
      v.r == DoAll(c.r, Flatten(Performed(script, |v.called|)))
    decreases |script|, |Members(c.r, target)| - c.next
  {
    if Finished(c, target) {
      assert Performed(script, 0) == [];
    } else {
      var calls := Turn(script);
      var d := Advance(c, target, calls);
      var rest := Visit(d, target, Later(script));
      var n := |rest.called|;
      assert Visit(c, target, script).r == rest.r && |Visit(c, target, script).called| == n + 1;
      MoveAllIsDoAll(c.(next := c.next + 1), target, calls);
      assert d.r == DoAll(c.r, calls);
      VisitPerforms(d, target, Later(script));
      DoAllConcat(c.r, calls, Flatten(Performed(Later(script), n)));
      PerformedNext(script, n);
    }
  }

  /** What is left of the script is what the callbacks have not performed. */
  lemma {:induction false} VisitLeaves<E, L>(
    c: Cursor<E, L>, target: Option<E>, script: seq<seq<Call<E, L>>>)
    requires Fits(c, target)
    ensures
      var v := Visit(c, target, script);
      v.script == if |v.called| <= |script| then script[|v.called|..] else []
    decreases |script|, |Members(c.r, target)| - c.next
  {
    if !Finished(c, target) {
      VisitLeaves(Advance(c, target, Turn(script)), target, Later(script));
    }
  }

  lemma {:induction false} DoAllConcat<E, L>(r: Registry<E, L>, a: seq<Call<E, L>>, b: seq<Call<E, L>>)
    ensures DoAll(r, a + b) == DoAll(DoAll(r, a), b)
    decreases a
  {
    if a == [] {
      assert a + b == b;
    } else {
      assert (a + b)[1..] == a[1..] + b;
      DoAllConcat(Do(r, a[0]), a[1..], b);
    }
  }

  lemma {:induction false} WithoutNoDuplicates<L>(s: seq<L>, l: L)
    requires NoDuplicates(s)
    ensures NoDuplicates(Without(s, l))
  {
    if s != [] {
      WithoutNoDuplicates(s[1..], l);
      assert s[0] !in s[1..];
    }
  }

  /** Nobody is ever registered twice. */
  lemma {:induction false} RegisteredOnce<E, L>(r: Registry<E, L>, target: Option<E>, call: Call<E, L>)
    requires NoDuplicates(Members(r, target))
    ensures NoDuplicates(Members(Do(r, call), target))
  {
    MembersAfter(r, target, call);
    WithoutNoDuplicates(Members(r, target), call.cb);
  }

  // ----------------------------------------------------- what callbacks do

  /** What all listeners together do, in calling order. */
  function Effects<L, A>(listeners: seq<L>, does: L -> seq<A>): seq<A> {
    if listeners == [] then [] else does(listeners[0]) + Effects(listeners[1..], does)
  }

  lemma {:induction false} EffectsConcat<L, A>(a: seq<L>, b: seq<L>, does: L -> seq<A>)
    ensures Effects(a + b, does) == Effects(a, does) + Effects(b, does)
  {
    if a == [] {
      assert a + b == b;
    } else {
      assert (a + b)[1..] == a[1..] + b;
      EffectsConcat(a[1..], b, does);
    }
  }

  class TypedEmitter<E(==), L(==)> {
    var listeners: map<E, seq<L>>
    var anyListeners: seq<L>

    function View(): Registry<E, L>
      reads this
    {
      Registry(listeners, anyListeners)
    }

    constructor ()
      ensures View() == Registry(map[], [])
    {
      listeners, anyListeners := map[], [];
    }

    method On(event: E, cb: L)
      modifies this`listeners
      ensures View() == Do(old(View()), Call.On(event, cb))
    {
      var callbacks := if event in listeners then listeners[event] else [];
      if cb !in callbacks {
        callbacks := callbacks + [cb];
      }
      listeners := listeners[event := callbacks];
    }

    method Off(event: E, cb: L)
      modifies this`listeners
      ensures View() == Do(old(View()), Call.Off(event, cb))
    {
      if event in listeners {
        var callbacks := Without(listeners[event], cb);
        if callbacks == [] {
          listeners := listeners - {event};
        } else {
          listeners := listeners[event := callbacks];
        }
      }
    }

    method OnAny(cb: L)
      modifies this`anyListeners
      ensures View() == Do(old(View()), Call.OnAny(cb))
    {
      if cb !in anyListeners {
        anyListeners := anyListeners + [cb];
      }
    }

    /** The function `onAny` returns. */
    method OffAny(cb: L)
      modifies this`anyListeners
      ensures View() == Do(old(View()), Call.OffAny(cb))
    {
      anyListeners := Without(anyListeners, cb);
    }

    method Perform(call: Call<E, L>)
      modifies this
      ensures View() == Do(old(View()), call)
    {
      match call {
        case On(event, cb) => On(event, cb);
        case Off(event, cb) => Off(event, cb);
        case OnAny(cb) => OnAny(cb);
        case OffAny(cb) => OffAny(cb);
      }
    }

    /** A callback runs while the iteration over the target stands at `next`. */
    method Callback(calls: seq<Call<E, L>>, target: Option<E>, next: nat, live: bool)
      returns (next': nat, live': bool)
      requires Fits(Cursor(View(), next, live), target)
      modifies this
      ensures Cursor(View(), next', live') == MoveAll(Cursor(old(View()), next, live), target, calls)
    {
      next', live' := next, live;
      ghost var start := Cursor(View(), next, live);
      for i := 0 to |calls|
        invariant Fits(Cursor(View(), next', live'), target)
        invariant MoveAll(Cursor(View(), next', live'), target, calls[i..]) == MoveAll(start, target, calls)
      {
        assert calls[i..][0] == calls[i] && calls[i..][1..] == calls[i + 1..];
        ghost var c := Cursor(View(), next', live');
        MoveFits(c, target, calls[i]);
        var d := Move(Cursor(View(), next', live'), target, calls[i]);
        Perform(calls[i]);
        next', live' := d.next, d.live;
      }
    }

    /** `for (const cb of set) cb(...)`. */
    method ForOf(target: Option<E>, script: seq<seq<Call<E, L>>>)
      returns (called: seq<L>, rest: seq<seq<Call<E, L>>>)
      modifies this
      ensures Visited(called, View(), rest) == Visit(Begin(old(View())), target, script)
    {
      called, rest := [], script;
      var next: nat, live := 0, true;
      ghost var whole := Visit(Begin(View()), target, script);
      while live && next < |Members(View(), target)|
        invariant Fits(Cursor(View(), next, live), target)
        invariant Resumed(called, Cursor(View(), next, live), target, rest) == whole
        decreases |rest|, |Members(View(), target)| - next
      {
        VisitNext(called, Cursor(View(), next, live), target, rest);
        called := called + [Members(View(), target)[next]];
        var turn := Turn(rest);
        next, live := Callback(turn, target, next + 1, live);
        rest := Later(rest);
      }
    }

    /** `script` is what the callbacks do to the registrations, in the order they are called. */
    method Emit(event: E, script: seq<seq<Call<E, L>>>) returns (called: seq<L>)
      modifies this
      ensures
        var outcome := EmitOutcome(old(View()), event, script);
        called == outcome.called && View() == outcome.r
    {
      var rest;
      called, rest := ForOf(None, script);
      var own;
      own, rest := ForOf(Some(event), rest);
      called := called + own;
    }
  }
}
