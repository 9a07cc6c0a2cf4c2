/**
 The stable sort behind `Array.prototype.sort` with a comparator and Python's `list.sort`.

 An order is a boolean function that is only required to be total and transitive: two different elements may tie, and
 what a sort does with ties is part of what is proved about it. The result is the one ordered permutation in which
 tied elements keep their order, so any algorithm with these properties computes the same sequence.
 */
module Sorting {
  import opened Seqs

  ghost predicate TotalPreorder<T(!new)>(le: (T, T) -> bool) {
    && (forall x, y :: le(x, y) || le(y, x))
    && (forall x, y, z :: le(x, y) && le(y, z) ==> le(x, z))
  }

  /** Elements that the order ties are equal: what an order needs to determine a sorted sequence from its elements. */
  ghost predicate AntisymmetricOn<T(!new)>(le: (T, T) -> bool, s: seq<T>) {
    forall x, y :: x in s && y in s && le(x, y) && le(y, x) ==> x == y
  }

  ghost predicate Sorted<T>(s: seq<T>, le: (T, T) -> bool) {
    forall i, j :: 0 <= i < j < |s| ==> le(s[i], s[j])
  }

  function Insert<T>(x: T, s: seq<T>, le: (T, T) -> bool): (r: seq<T>)
    ensures multiset(r) == multiset([x]) + multiset(s)
  {
    if s == [] || le(x, s[0]) then [x] + s
    else
      assert s == [s[0]] + s[1..];
      [s[0]] + Insert(x, s[1..], le)
  }

  function StableSort<T>(s: seq<T>, le: (T, T) -> bool): (r: seq<T>)
    ensures multiset(r) == multiset(s)
    ensures |r| == |s|
  {
    if s == [] then []
    else
      var r := Insert(s[0], StableSort(s[1..], le), le);
      assert s == [s[0]] + s[1..];
      assert multiset(r) == multiset(s);
      assert |r| == |multiset(r)| && |s| == |multiset(s)|;
      r
  }

  lemma {:induction false} SameElements<T>(a: seq<T>, b: seq<T>)
    requires multiset(a) == multiset(b)
    ensures forall x :: x in a <==> x in b
  {
    forall x ensures x in a <==> x in b {
      assert x in a <==> x in multiset(a);
    }
  }

  lemma {:induction false} InsertSorted<T(!new)>(x: T, s: seq<T>, le: (T, T) -> bool)
    requires TotalPreorder(le) && Sorted(s, le)
    ensures Sorted(Insert(x, s, le), le)
  {
    if s != [] && !le(x, s[0]) {
      InsertSorted(x, s[1..], le);
      var r := Insert(x, s[1..], le);
      forall y | y in r ensures le(s[0], y) {
        assert y in multiset(r);
        assert y in multiset([x]) + multiset(s[1..]);
        if y != x {
          assert y in s[1..];
        }
      }
    }
  }

  lemma {:induction false} SortSorted<T(!new)>(s: seq<T>, le: (T, T) -> bool)
    requires TotalPreorder(le)
    ensures Sorted(StableSort(s, le), le)
  {
    if s != [] {
      SortSorted(s[1..], le);
      InsertSorted(s[0], StableSort(s[1..], le), le);
    }
  }

  /** Sorting an already sorted sequence changes nothing. */
  lemma {:induction false} SortOfSorted<T(!new)>(s: seq<T>, le: (T, T) -> bool)
    requires TotalPreorder(le) && Sorted(s, le)
    ensures StableSort(s, le) == s
  {
    if s != [] {
      SortOfSorted(s[1..], le);
      assert s == [s[0]] + s[1..];
    }
  }

  function TiesWith<T>(t: T, le: (T, T) -> bool): T -> bool {
    y => le(y, t) && le(t, y)
  }

  lemma {:induction false} FilterCons<T>(y: T, s: seq<T>, p: T -> bool)
    ensures Filter([y] + s, p) == (if p(y) then [y] else []) + Filter(s, p)
  {
  }

  lemma {:induction false} NotBothTied<T(!new)>(x: T, y: T, t: T, le: (T, T) -> bool)
    requires TotalPreorder(le) && !le(x, y)
    ensures !TiesWith(t, le)(x) || !TiesWith(t, le)(y)
  {
  }

  lemma {:induction false} InsertStable<T(!new)>(x: T, s: seq<T>, t: T, le: (T, T) -> bool)
    requires TotalPreorder(le)
    ensures Filter(Insert(x, s, le), TiesWith(t, le)) == Filter([x] + s, TiesWith(t, le))
  {
    var p := TiesWith(t, le);
    if s != [] && !le(x, s[0]) {
      InsertStable(x, s[1..], t, le);
      NotBothTied(x, s[0], t, le);
      FilterCons(s[0], Insert(x, s[1..], le), p);
      FilterCons(x, s[1..], p);
      FilterCons(x, s, p);
      assert [] + Filter(s[1..], p) == Filter(s[1..], p);
    }
  }

  /** Stability: elements the order ties keep the order they came in. */
  lemma {:induction false} SortStable<T(!new)>(s: seq<T>, t: T, le: (T, T) -> bool)
    requires TotalPreorder(le)
    ensures Filter(StableSort(s, le), TiesWith(t, le)) == Filter(s, TiesWith(t, le))
  {
    if s != [] {
      SortStable(s[1..], t, le);
      InsertStable(s[0], StableSort(s[1..], le), t, le);
      FilterCons(s[0], StableSort(s[1..], le), TiesWith(t, le));
    }
  }

  lemma {:induction false} SameLeast<T(!new)>(a: seq<T>, b: seq<T>, le: (T, T) -> bool)
    requires Sorted(a, le) && Sorted(b, le) && a != [] && b != []
    requires multiset(a) == multiset(b) && AntisymmetricOn(le, a) && TotalPreorder(le)
    ensures a[0] == b[0]
  {
    SameElements(a, b);
    assert a[0] in b && b[0] in a;
    assert le(b[0], a[0]) && le(a[0], b[0]);
  }

  lemma {:induction false} SameTails<T>(a: seq<T>, b: seq<T>)
    requires a != [] && b != [] && a[0] == b[0] && multiset(a) == multiset(b)
    ensures multiset(a[1..]) == multiset(b[1..])
  {
    assert a == [a[0]] + a[1..] && b == [b[0]] + b[1..];
    assert multiset(a[1..]) == multiset(a) - multiset{a[0]};
    assert multiset(b[1..]) == multiset(b) - multiset{b[0]};
  }

  lemma {:induction false} SortedTail<T(!new)>(s: seq<T>, le: (T, T) -> bool)
    requires Sorted(s, le) && s != []
    ensures Sorted(s[1..], le)
    ensures AntisymmetricOn(le, s) ==> AntisymmetricOn(le, s[1..])
  {
  }

  /** Two sorted sequences with the same elements are equal when ties imply equality. */
  lemma {:induction false} SortedUnique<T(!new)>(a: seq<T>, b: seq<T>, le: (T, T) -> bool)
    requires Sorted(a, le) && Sorted(b, le)
    requires multiset(a) == multiset(b) && AntisymmetricOn(le, a) && TotalPreorder(le)
    ensures a == b
  {
    assert |a| == |multiset(a)| && |b| == |multiset(b)|;
    if a != [] {
      SameLeast(a, b, le);
      SameTails(a, b);
      SortedTail(a, le);
      SortedTail(b, le);
      SortedUnique(a[1..], b[1..], le);
      assert a == [a[0]] + a[1..] && b == [b[0]] + b[1..];
    }
  }

  /** Sorting forgets the order of its input exactly when no two different elements tie. */
  lemma {:induction false} SortOrderIndependent<T(!new)>(a: seq<T>, b: seq<T>, le: (T, T) -> bool)
    requires TotalPreorder(le) && AntisymmetricOn(le, a) && multiset(a) == multiset(b)
    ensures StableSort(a, le) == StableSort(b, le)
  {
    SortSorted(a, le);
    SortSorted(b, le);
    SameElements(a, StableSort(a, le));
    SortedUnique(StableSort(a, le), StableSort(b, le), le);
  }

  /** Sorting keeps a duplicate-free sequence duplicate free. */
  lemma {:induction false} SortNoDuplicates<T>(s: seq<T>, le: (T, T) -> bool)
    requires NoDuplicates(s)
    ensures NoDuplicates(StableSort(s, le))
  {
    MultisetOfDistinct(s);
    DistinctFromMultiset(StableSort(s, le));
  }

  lemma {:induction false} MultisetOfDistinct<T>(s: seq<T>)
    requires NoDuplicates(s)
    ensures forall x :: multiset(s)[x] <= 1
  {
    if s != [] {
      assert s == [s[0]] + s[1..];
      MultisetOfDistinct(s[1..]);
      assert s[0] !in s[1..];
      assert s[0] !in multiset(s[1..]);
    }
  }

  lemma {:induction false} DistinctFromMultiset<T>(s: seq<T>)
    requires forall x :: multiset(s)[x] <= 1
    ensures NoDuplicates(s)
  {
    forall i, j | 0 <= i < j < |s| ensures s[i] != s[j] {
      assert s == s[..i] + [s[i]] + s[i + 1..j] + [s[j]] + s[j + 1..];
      assert multiset(s)[s[i]] >= multiset([s[i]] + [s[j]])[s[i]];
    }
  }

  /** Duplicate-free sequences with the same members are permutations of each other. */
  lemma {:induction false} SameMembers<T>(a: seq<T>, b: seq<T>)
    requires NoDuplicates(a) && NoDuplicates(b)
    requires forall x :: x in a <==> x in b
    ensures multiset(a) == multiset(b)
  {
    MultisetOfDistinct(a);
    MultisetOfDistinct(b);
    forall x ensures multiset(a)[x] == multiset(b)[x] {
      assert x in a <==> x in b;
      assert (x in multiset(a) <==> x in a) && (x in multiset(b) <==> x in b);
    }
  }

  lemma {:induction false} PrependSorted<T>(x: T, rest: seq<T>, le: (T, T) -> bool)
    requires Sorted(rest, le) && forall y :: y in rest ==> le(x, y)
    ensures Sorted([x] + rest, le)
  {
  }

  lemma {:induction false} FilterSorted<T(!new)>(s: seq<T>, p: T -> bool, le: (T, T) -> bool)
    requires Sorted(s, le)
    ensures Sorted(Filter(s, p), le)
  {
    if s != [] {
      SortedTail(s, le);
      FilterSorted(s[1..], p, le);
      var rest := Filter(s[1..], p);
      forall x | x in rest ensures le(s[0], x) {
        var j :| 0 <= j < |s[1..]| && s[1..][j] == x;
        assert s[j + 1] == x;
      }
      PrependSorted(s[0], rest, le);
      assert [] + rest == rest;
    }
  }

  /** Permuting a sequence keeps its keys different. */
  lemma {:induction false} KeysDifferPermuted<T, K>(a: seq<T>, b: seq<T>, key: T -> K)
    requires multiset(a) == multiset(b) && KeysDiffer(a, key)
    ensures KeysDiffer(b, key)
  {
    var x, y := Map(a, key), Map(b, key);
    MapPermutation(a, b, key);
    forall i, j | 0 <= i < j < |x| ensures x[i] != x[j] {
      assert key(a[i]) != key(a[j]);
    }
    MultisetOfDistinct(x);
    DistinctFromMultiset(y);
    forall i, j | 0 <= i < j < |b| ensures key(b[i]) != key(b[j]) {
      assert y[i] != y[j];
    }
  }
}
