/**
 Sequence operations shared by the component models: the last elements, filtering, mapping, flattening and removing
 duplicates, with the laws about concatenation and permutation that the models need.

 Filtering and mapping follow the elements from the front, because most histories are consumed in that order; laws
 about appending one element are stated separately, because histories grow at the end.
 */
module Seqs {

  datatype Option<+T> = None | Some(value: T)

  datatype Result<+T, +E> = Ok(data: T) | Err(error: E)

  /** The last `n` elements of `s`, or all of it when there are fewer. */
  function LastN<T>(s: seq<T>, n: nat): (r: seq<T>)
    ensures |r| == if |s| <= n then |s| else n
  {
    if |s| <= n then s else s[|s| - n..]
  }

  /** Appending one element at a time and truncating each time forgets exactly what truncating once forgets. */
  lemma {:induction false} LastNAppend<T>(s: seq<T>, x: T, n: nat)
    ensures LastN(LastN(s, n) + [x], n) == LastN(s + [x], n)
  {
  }

  lemma {:induction false} LastNTwice<T>(s: seq<T>, n: nat, k: nat)
    ensures LastN(LastN(s, n), k) == LastN(s, if k < n then k else n)
  {
  }

  function Filter<T>(s: seq<T>, p: T -> bool): (r: seq<T>)
    ensures |r| <= |s|
    ensures forall x :: x in r ==> x in s && p(x)
    ensures forall x :: x in s && p(x) ==> x in r
  {
    if s == [] then [] else (if p(s[0]) then [s[0]] else []) + Filter(s[1..], p)
  }

  lemma {:induction false} FilterConcat<T>(a: seq<T>, b: seq<T>, p: T -> bool)
    ensures Filter(a + b, p) == Filter(a, p) + Filter(b, p)
  {
    if a == [] {
      assert a + b == b;
    } else {
      assert (a + b)[1..] == a[1..] + b;
      FilterConcat(a[1..], b, p);
    }
  }

  lemma {:induction false} FilterAll<T>(s: seq<T>, p: T -> bool)
    requires forall x :: x in s ==> p(x)
    ensures Filter(s, p) == s
  {
    if s != [] {
      FilterAll(s[1..], p);
      assert s == [s[0]] + s[1..];
    }
  }

  lemma {:induction false} FilterNone<T>(s: seq<T>, p: T -> bool)
    requires forall x :: x in s ==> !p(x)
    ensures Filter(s, p) == []
  {
    if s != [] {
      FilterNone(s[1..], p);
    }
  }

  lemma {:induction false} FilterAppend<T>(s: seq<T>, x: T, p: T -> bool)
    ensures Filter(s + [x], p) == Filter(s, p) + if p(x) then [x] else []
  {
    FilterConcat(s, [x], p);
    assert [x][1..] == [];
  }

  lemma {:induction false} FilterTwice<T>(s: seq<T>, p: T -> bool, q: T -> bool)
    requires forall x :: x in s && q(x) ==> p(x)
    ensures Filter(Filter(s, p), q) == Filter(s, q)
  {
    if s != [] {
      FilterTwice(s[1..], p, q);
      if p(s[0]) {
        assert ([s[0]] + Filter(s[1..], p))[1..] == Filter(s[1..], p);
      } else {
        assert Filter(s, p) == Filter(s[1..], p);
      }
    }
  }

  lemma {:induction false} FilterSame<T>(s: seq<T>, p: T -> bool, q: T -> bool)
    requires forall x :: x in s ==> p(x) == q(x)
    ensures Filter(s, p) == Filter(s, q)
  {
    if s != [] {
      FilterSame(s[1..], p, q);
    }
  }

  function Map<A, B>(s: seq<A>, f: A -> B): (r: seq<B>)
    ensures |r| == |s|
    ensures forall i :: 0 <= i < |s| ==> r[i] == f(s[i])
  {
    if s == [] then [] else [f(s[0])] + Map(s[1..], f)
  }

  lemma {:induction false} MapConcat<A, B>(a: seq<A>, b: seq<A>, f: A -> B)
    ensures Map(a + b, f) == Map(a, f) + Map(b, f)
  {
  }

  function Flatten<T>(ss: seq<seq<T>>): seq<T> {
    if ss == [] then [] else ss[0] + Flatten(ss[1..])
  }

  lemma {:induction false} FlattenConcat<T>(a: seq<seq<T>>, b: seq<seq<T>>)
    ensures Flatten(a + b) == Flatten(a) + Flatten(b)
  {
    if a == [] {
      assert a + b == b;
    } else {
      assert (a + b)[1..] == a[1..] + b;
      FlattenConcat(a[1..], b);
    }
  }

  function Sum(s: seq<int>): int {
    if s == [] then 0 else s[0] + Sum(s[1..])
  }

  lemma {:induction false} SumConcat(a: seq<int>, b: seq<int>)
    ensures Sum(a + b) == Sum(a) + Sum(b)
  {
    if a == [] {
      assert a + b == b;
    } else {
      assert (a + b)[1..] == a[1..] + b;
      SumConcat(a[1..], b);
    }
  }

  ghost predicate NoDuplicates<T>(s: seq<T>) {
    forall i, j :: 0 <= i < j < |s| ==> s[i] != s[j]
  }

  /** The pigeonhole principle: a duplicate-free sequence is no longer than a set that holds all its elements. */
  lemma {:induction false} Pigeonhole<T>(s: seq<T>, pool: set<T>)
    requires NoDuplicates(s)
    requires forall x :: x in s ==> x in pool
    ensures |s| <= |pool|
  {
    if s != [] {
      Pigeonhole(s[1..], pool - {s[0]});
    }
  }

  lemma {:induction false} AnyElement<T>(s: set<T>) returns (x: T)
    requires s != {}
    ensures x in s
  {
    x :| x in s;
  }

  function FlatMap<A, B>(s: seq<A>, f: A -> seq<B>): seq<B> {
    if s == [] then [] else f(s[0]) + FlatMap(s[1..], f)
  }

  lemma {:induction false} FlatMapConcat<A, B>(a: seq<A>, b: seq<A>, f: A -> seq<B>)
    ensures FlatMap(a + b, f) == FlatMap(a, f) + FlatMap(b, f)
  {
    if a == [] {
      assert a + b == b;
    } else {
      assert (a + b)[1..] == a[1..] + b;
      FlatMapConcat(a[1..], b, f);
    }
  }

  lemma {:induction false} FlatMapOne<A, B>(x: A, f: A -> seq<B>)
    ensures FlatMap([x], f) == f(x)
  {
  }

  lemma {:induction false} FlatMapAppend<A, B>(s: seq<A>, x: A, f: A -> seq<B>)
    ensures FlatMap(s + [x], f) == FlatMap(s, f) + f(x)
  {
    FlatMapConcat(s, [x], f);
    FlatMapOne(x, f);
  }

  lemma {:induction false} FlatMapMember<A, B>(s: seq<A>, f: A -> seq<B>, x: A, y: B)
    requires x in s && y in f(x)
    ensures y in FlatMap(s, f)
  {
    if x != s[0] {
      FlatMapMember(s[1..], f, x, y);
    }
  }

  lemma {:induction false} FlatMapOrigin<A, B>(s: seq<A>, f: A -> seq<B>, y: B) returns (x: A)
    requires y in FlatMap(s, f)
    ensures x in s && y in f(x)
  {
    if y in f(s[0]) {
      x := s[0];
    } else {
      x := FlatMapOrigin(s[1..], f, y);
    }
  }

  lemma {:induction false} WithoutOne<A>(a: seq<A>, b: seq<A>, k: nat)
    requires multiset(a) == multiset(b) && a != [] && k < |b| && b[k] == a[0]
    ensures multiset(a[1..]) == multiset(b[..k] + b[k + 1..])
  {
    assert a == [a[0]] + a[1..];
    assert b == b[..k] + [b[k]] + b[k + 1..];
    assert multiset(a[1..]) == multiset(a) - multiset{a[0]};
    assert multiset(b[..k] + b[k + 1..]) == multiset(b) - multiset{b[k]};
  }

  /** Reordering the input only reorders the output. */
  lemma {:induction false} FlatMapPermutation<A, B>(a: seq<A>, b: seq<A>, f: A -> seq<B>)
    requires multiset(a) == multiset(b)
    ensures multiset(FlatMap(a, f)) == multiset(FlatMap(b, f))
  {
    if a == [] {
      assert |multiset(b)| == 0;
    } else {
      var x := a[0];
      assert x in multiset(b);
      var k :| 0 <= k < |b| && b[k] == x;
      var rest := b[..k] + b[k + 1..];
      assert b == b[..k] + ([x] + b[k + 1..]);
      assert a == [x] + a[1..];
      WithoutOne(a, b, k);
      FlatMapPermutation(a[1..], rest, f);
      FlatMapConcat(b[..k], [x] + b[k + 1..], f);
      FlatMapConcat([x], b[k + 1..], f);
      FlatMapOne(x, f);
      FlatMapConcat(b[..k], b[k + 1..], f);
    }
  }

  lemma {:induction false} MapPermutation<A, B>(a: seq<A>, b: seq<A>, f: A -> B)
    requires multiset(a) == multiset(b)
    ensures multiset(Map(a, f)) == multiset(Map(b, f))
  {
    var g := x => [f(x)];
    MapAsFlatMap(a, f, g);
    MapAsFlatMap(b, f, g);
    FlatMapPermutation(a, b, g);
  }

  lemma {:induction false} MapAsFlatMap<A, B>(s: seq<A>, f: A -> B, g: A -> seq<B>)
    requires forall x :: x in s ==> g(x) == [f(x)]
    ensures FlatMap(s, g) == Map(s, f)
  {
    if s != [] {
      MapAsFlatMap(s[1..], f, g);
    }
  }

  /** Filtering by a test that splits into two exclusive tests splits the result. */
  lemma {:induction false} FilterSplit<T>(s: seq<T>, p: T -> bool, q: T -> bool, r: T -> bool)
    requires forall x :: x in s ==> (p(x) <==> q(x) || r(x)) && !(q(x) && r(x))
    ensures multiset(Filter(s, p)) == multiset(Filter(s, q)) + multiset(Filter(s, r))
  {
    if s != [] {
      FilterSplit(s[1..], p, q, r);
    }
  }

  /** The elements of `s` in the order of their first occurrences. */
  function Dedup<T(==)>(s: seq<T>): (r: seq<T>)
    ensures NoDuplicates(r)
    ensures forall x :: x in r ==> x in s
    ensures forall x :: x in s ==> x in r
  {
    if s == [] then []
    else
      var front, last := s[..|s| - 1], s[|s| - 1];
      assert s == front + [last];
      if last in front then Dedup(front) else Dedup(front) + [last]
  }

  // ------------------------------------------------ deduplication by a key

  predicate HasKey<T, K(==)>(s: seq<T>, key: T -> K, k: K) {
    exists i :: 0 <= i < |s| && key(s[i]) == k
  }

  /** The first element of each key, in order. */
  function DedupBy<T, K(==)>(s: seq<T>, key: T -> K): seq<T> {
    if s == [] then []
    else
      var front, x := s[..|s| - 1], s[|s| - 1];
      if HasKey(front, key, key(x)) then DedupBy(front, key) else DedupBy(front, key) + [x]
  }

  ghost predicate KeysDiffer<T, K>(s: seq<T>, key: T -> K) {
    forall i, j :: 0 <= i < j < |s| ==> key(s[i]) != key(s[j])
  }

  /** No earlier element has the key of the one at `i`. */
  ghost predicate IsFirst<T, K>(s: seq<T>, key: T -> K, i: nat)
    requires i < |s|
  {
    forall j :: 0 <= j < i ==> key(s[j]) != key(s[i])
  }

  ghost predicate OccursFirst<T, K>(s: seq<T>, key: T -> K, x: T) {
    exists i :: 0 <= i < |s| && s[i] == x && IsFirst(s, key, i)
  }

  lemma {:induction false} HasKeyAppend<T, K>(s: seq<T>, key: T -> K, x: T, k: K)
    ensures HasKey(s + [x], key, k) <==> HasKey(s, key, k) || key(x) == k
  {
    var next := s + [x];
    if HasKey(s, key, k) {
      var i :| 0 <= i < |s| && key(s[i]) == k;
      assert key(next[i]) == k;
    }
    if key(x) == k {
      assert key(next[|s|]) == k;
    }
  }

  lemma {:induction false} DedupByAppend<T, K>(s: seq<T>, key: T -> K, x: T)
    ensures
      DedupBy(s + [x], key) ==
      if HasKey(s, key, key(x)) then DedupBy(s, key) else DedupBy(s, key) + [x]
  {
  }

  lemma {:induction false} OccursFirstAppend<T, K>(s: seq<T>, key: T -> K, y: T, x: T)
    ensures OccursFirst(s + [y], key, x) <==> OccursFirst(s, key, x) || (x == y && !HasKey(s, key, key(y)))
  {
    var next := s + [y];
    if OccursFirst(s, key, x) {
      var i :| 0 <= i < |s| && s[i] == x && IsFirst(s, key, i);
      assert next[i] == x && IsFirst(next, key, i);
    }
    if x == y && !HasKey(s, key, key(y)) {
      assert next[|s|] == x && IsFirst(next, key, |s|);
    }
    if OccursFirst(next, key, x) {
      var i :| 0 <= i < |next| && next[i] == x && IsFirst(next, key, i);
      if i < |s| {
        assert forall j :: 0 <= j < i ==> next[j] == s[j];
        assert s[i] == x && IsFirst(s, key, i);
      } else {
        assert forall j :: 0 <= j < |s| ==> next[j] == s[j];
      }
    }
  }

  /** Deduplication keeps exactly the first occurrences. */
  lemma {:induction false} DedupByIsFirsts<T, K>(s: seq<T>, key: T -> K, x: T)
    ensures x in DedupBy(s, key) <==> OccursFirst(s, key, x)
  {
    if s != [] {
      var front, y := s[..|s| - 1], s[|s| - 1];
      assert s == front + [y];
      DedupByIsFirsts(front, key, x);
      OccursFirstAppend(front, key, y, x);
    }
  }

  lemma {:induction false} DedupByKeys<T, K>(s: seq<T>, key: T -> K)
    ensures KeysDiffer(DedupBy(s, key), key) && |DedupBy(s, key)| <= |s|
    ensures forall x :: x in DedupBy(s, key) ==> HasKey(s, key, key(x))
  {
    if s != [] {
      var front, y := s[..|s| - 1], s[|s| - 1];
      assert s == front + [y];
      DedupByKeys(front, key);
      forall x | x in DedupBy(s, key) ensures HasKey(s, key, key(x)) {
        HasKeyAppend(front, key, y, key(x));
      }
    }
  }

  lemma {:induction false} DedupByDistinct<T, K>(s: seq<T>, key: T -> K)
    requires KeysDiffer(s, key)
    ensures DedupBy(s, key) == s
  {
    if s != [] {
      var front, y := s[..|s| - 1], s[|s| - 1];
      assert s == front + [y];
      DedupByDistinct(front, key);
    }
  }

  lemma {:induction false} FilterOfTail<T>(s: seq<T>, p: T -> bool, x: T) returns (i: nat)
    requires s != [] && x in Filter(s[1..], p)
    ensures 0 < i < |s| && s[i] == x
  {
    var j :| 0 <= j < |s[1..]| && s[1..][j] == x;
    i := j + 1;
  }

  lemma {:induction false} KeysDifferFiltered<T, K>(s: seq<T>, key: T -> K, p: T -> bool)
    requires KeysDiffer(s, key)
    ensures KeysDiffer(Filter(s, p), key)
  {
    if s != [] {
      KeysDifferFiltered(s[1..], key, p);
      var rest := Filter(s[1..], p);
      forall x | x in rest ensures key(s[0]) != key(x) {
        var i := FilterOfTail(s, p, x);
      }
      KeysDifferPrepend(s[0], rest, key);
      assert [] + rest == rest;
    }
  }

  lemma {:induction false} KeysDifferPrepend<T, K>(x: T, rest: seq<T>, key: T -> K)
    requires KeysDiffer(rest, key) && forall y :: y in rest ==> key(x) != key(y)
    ensures KeysDiffer([x] + rest, key)
  {
  }

  lemma {:induction false} FilterCommutes<T>(s: seq<T>, p: T -> bool, q: T -> bool)
    ensures Filter(Filter(s, p), q) == Filter(Filter(s, q), p)
  {
    if s != [] {
      FilterCommutes(s[1..], p, q);
      var x, y := Filter(s[1..], p), Filter(s[1..], q);
      assert ([s[0]] + x)[1..] == x && ([s[0]] + y)[1..] == y;
      assert [] + x == x && [] + y == y;
    }
  }
}
