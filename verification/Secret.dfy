/** The secret sampler: bytes from the system generator, rejection sampling, one character per accepted byte. */
module Secret {
  import opened Seqs

  type Byte = b: int | 0 <= b < 256 witness 0

  /** `256 - (256 % chars.length)`. */
  function Bound(size: nat): (max: nat)
    requires 1 <= size <= 256
    ensures size <= max <= 256
  {
    256 - 256 % size
  }

  function Below(max: int): Byte -> bool {
    (b: Byte) => b < max
  }

  function CharOf(chars: string): Byte -> char
    requires 1 <= |chars| <= 256
  {
    (b: Byte) => chars[b % |chars|]
  }

  /** The first `length` of the accepted bytes. */
  function Needed(accepted: seq<Byte>, length: int): (r: seq<Byte>)
    ensures |r| >= length <==> |accepted| >= length
  {
    if length < 0 then [] else if |accepted| <= length then accepted else accepted[..length]
  }

  /** The secret that a sequence of accepted bytes spells. */
  function Secret(accepted: seq<Byte>, spell: Byte -> char, length: int): string {
    Map(Needed(accepted, length), spell)
  }

  lemma {:induction false} SecretGrows(accepted: seq<Byte>, b: Byte, spell: Byte -> char, length: int)
    requires |accepted| < length
    ensures Secret(accepted + [b], spell, length) == Secret(accepted, spell, length) + [spell(b)]
  {
  }

  /** The loop over one batch: takes its accepted bytes until the secret is complete. */
  method TakeBatch(bytes: seq<Byte>, spell: Byte -> char, max: int, length: int, start: string, ghost before: seq<Byte>)
    returns (result: string)
    requires start == Secret(before, spell, length)
    ensures result == Secret(before + Filter(bytes, Below(max)), spell, length)
  {
    result := start;
    ghost var accepted := before;
    var i := 0;
    assert before + [] == before;
    while i < |bytes| && |result| < length
      invariant i <= |bytes|
      invariant accepted == before + Filter(bytes[..i], Below(max))
      invariant result == Secret(accepted, spell, length)
    {
      var byte := bytes[i];
      BatchNext(before, bytes, i, max);
      if byte < max {
        SecretGrows(accepted, byte, spell, length);
        result := result + [spell(byte)];
        accepted := accepted + [byte];
      }
      i := i + 1;
    }
    BatchRest(before, bytes, i, max);
    SecretRest(accepted, Filter(bytes[i..], Below(max)), i == |bytes|, length);
  }

  lemma {:induction false} BatchNext(before: seq<Byte>, bytes: seq<Byte>, i: nat, max: int)
    requires i < |bytes|
    ensures
      before + Filter(bytes[..i + 1], Below(max)) ==
      if bytes[i] < max
      then before + Filter(bytes[..i], Below(max)) + [bytes[i]]
      else before + Filter(bytes[..i], Below(max))
  {
    assert bytes[..i + 1] == bytes[..i] + [bytes[i]];
    FilterAppend(bytes[..i], bytes[i], Below(max));
    var taken := Filter(bytes[..i], Below(max));
    assert taken + [] == taken && before + (taken + [bytes[i]]) == before + taken + [bytes[i]];
  }

  lemma {:induction false} BatchRest(before: seq<Byte>, bytes: seq<Byte>, i: nat, max: int)
    requires i <= |bytes|
    ensures
      before + Filter(bytes, Below(max)) == before + Filter(bytes[..i], Below(max)) + Filter(bytes[i..], Below(max))
  {
    assert bytes == bytes[..i] + bytes[i..];
    FilterConcat(bytes[..i], bytes[i..], Below(max));
  }

  lemma {:induction false} SecretRest(accepted: seq<Byte>, rest: seq<Byte>, atEnd: bool, length: int)
    requires atEnd ==> rest == []
    requires atEnd || |Needed(accepted, length)| >= length
    ensures Needed(accepted + rest, length) == Needed(accepted, length)
  {
  }

  /** The accepted bytes of the drawn batches, in order. */
  function Accepted(batches: seq<seq<Byte>>, max: int): seq<Byte> {
    Filter(Flatten(batches), Below(max))
  }

  lemma {:induction false} AcceptedConcat(a: seq<seq<Byte>>, b: seq<seq<Byte>>, max: int)
    ensures Accepted(a + b, max) == Accepted(a, max) + Accepted(b, max)
  {
    FlattenConcat(a, b);
    FilterConcat(Flatten(a), Flatten(b), Below(max));
  }

  lemma {:induction false} AcceptedNext(batches: seq<seq<Byte>>, k: nat, max: int)
    requires k < |batches|
    ensures Accepted(batches[..k + 1], max) == Accepted(batches[..k], max) + Filter(batches[k], Below(max))
  {
    assert batches[..k + 1] == batches[..k] + [batches[k]];
    AcceptedConcat(batches[..k], [batches[k]], max);
    var one := [batches[k]];
    assert one[1..] == [] && batches[k] + [] == batches[k];
    assert Flatten(one) == batches[k];
  }

  /**
   * Draws batches of `length` bytes until the secret is complete; `finished` is false when the given batches do not
   * suffice and the sampler would draw on.
   */
  method GenerateRandomSecret(chars: string, length: int, batches: seq<seq<Byte>>)
    returns (result: string, drawn: nat, finished: bool)
    requires 1 <= |chars| <= 256
    ensures drawn <= |batches|
    ensures result == Secret(Accepted(batches, Bound(|chars|)), CharOf(chars), length)
    ensures finished <==> |Accepted(batches, Bound(|chars|))| >= length
    ensures finished && length >= 0 ==> |result| == length
    ensures finished && drawn > 0 ==> |Accepted(batches[..drawn - 1], Bound(|chars|))| < length
  {
    var max := Bound(|chars|);
    result, drawn := "", 0;
    ghost var accepted := Accepted(batches[..0], max);
    while |result| < length && drawn < |batches|
      invariant drawn <= |batches| && accepted == Accepted(batches[..drawn], max)
      invariant result == Secret(accepted, CharOf(chars), length)
      invariant drawn > 0 ==> |Accepted(batches[..drawn - 1], max)| < length
    {
      result := TakeBatch(batches[drawn], CharOf(chars), max, length, result, accepted);
      AcceptedNext(batches, drawn, max);
      accepted := accepted + Filter(batches[drawn], Below(max));
      drawn := drawn + 1;
    }
    finished := |result| >= length;
    assert batches == batches[..drawn] + batches[drawn..];
    AcceptedConcat(batches[..drawn], batches[drawn..], max);
    SecretRest(accepted, Accepted(batches[drawn..], max), drawn == |batches|, length);
  }

  // -------------------------------------------------------------- uniformity

  /** The bytes below `bound` with the given remainder. */
  function Residues(size: nat, r: nat, bound: nat): (s: set<int>)
    requires size >= 1
    ensures forall b :: b in s <==> 0 <= b < bound && b % size == r
  {
    set b | 0 <= b < bound && b % size == r
  }

  lemma {:induction false} RemainderOfSum(size: nat, k: nat, j: nat)
    requires j < size
    ensures (size * k + j) % size == j
  {
    RemainderUnique(size * k + j, size, (size * k + j) / size, (size * k + j) % size, k, j);
  }

  lemma {:induction false} TimesAtLeast(size: nat, d: int)
    requires d >= 1
    ensures size * d >= size
  {
  }

  lemma {:induction false} RemainderUnique(n: int, size: nat, q: int, r: int, k: int, j: int)
    requires 0 <= r < size && 0 <= j < size
    requires n == size * q + r && n == size * k + j
    ensures q == k && r == j
  {
    assert size * (q - k) == size * q - size * k;
    assert size * (k - q) == size * k - size * q;
    if q > k {
      TimesAtLeast(size, q - k);
    } else if q < k {
      TimesAtLeast(size, k - q);
    }
  }

  lemma {:induction false} ResiduesNext(size: nat, r: nat, b: nat)
    requires size >= 1
    ensures |Residues(size, r, b + 1)| == |Residues(size, r, b)| + if b % size == r then 1 else 0
  {
    if b % size == r {
      assert Residues(size, r, b + 1) == Residues(size, r, b) + {b};
    } else {
      assert Residues(size, r, b + 1) == Residues(size, r, b);
    }
  }

  lemma {:induction false} ResiduesBlock(size: nat, r: nat, k: nat, start: nat, j: nat)
    requires r < size && j <= size && start == size * k
    ensures |Residues(size, r, start + j)| == |Residues(size, r, start)| + if j > r then 1 else 0
  {
    if j > 0 {
      ResiduesBlock(size, r, k, start, j - 1);
      RemainderOfSum(size, k, j - 1);
      ResiduesNext(size, r, start + (j - 1));
    }
  }

  lemma {:induction false} ResiduesOfMultiple(size: nat, r: nat, k: nat)
    requires r < size
    ensures |Residues(size, r, size * k)| == k
  {
    if k == 0 {
      assert Residues(size, r, 0) == {};
    } else {
      ResiduesOfMultiple(size, r, k - 1);
      var start := size * (k - 1);
      ResiduesBlock(size, r, k - 1, start, size);
      assert start + size == size * k;
    }
  }

  /** How many accepted bytes yield one character. */
  function PerCharacter(size: nat): nat
    requires 1 <= size <= 256
  {
    Bound(size) / size
  }

  /** Every remainder has equally many accepted bytes, and more than half of all bytes are accepted. */
  lemma {:induction false} ExactlyUniform(size: nat, r: nat)
    requires 1 <= size <= 256 && r < size
    ensures |Residues(size, r, Bound(size))| == PerCharacter(size) >= 1
    ensures Bound(size) > 128
  {
    var k := 256 / size;
    assert 256 == size * k + 256 % size;
    assert Bound(size) == size * k;
    RemainderOfSum(size, k, 0);
    RemainderUnique(Bound(size), size, Bound(size) / size, Bound(size) % size, k, 0);
    ResiduesOfMultiple(size, r, k);
    assert k >= 1;
    assert size * k >= size > 256 % size;
  }

  function Power(base: nat, n: nat): nat {
    if n == 0 then 1 else base * Power(base, n - 1)
  }

  /** The accepted byte strings of the length of `w` that yield `w`. */
  ghost function Sources(w: string, chars: string): (s: set<seq<int>>)
    requires 1 <= |chars| <= 256
  {
    if w == "" then {[]} else Extended(FirstBytes(w[0], chars), Sources(w[1..], chars))
  }

  ghost function FirstBytes(c: char, chars: string): set<int>
    requires 1 <= |chars| <= 256
  {
    set b | 0 <= b < Bound(|chars|) && chars[b % |chars|] == c
  }

  ghost function Extended(firsts: set<int>, rests: set<seq<int>>): set<seq<int>> {
    set b, s | b in firsts && s in rests :: [b] + s
  }

  lemma {:induction false} ExtendedMember(firsts: set<int>, rests: set<seq<int>>, t: seq<int>)
    ensures t in Extended(firsts, rests) <==> t != [] && t[0] in firsts && t[1..] in rests
  {
    if t != [] && t[0] in firsts && t[1..] in rests {
      var b, s := t[0], t[1..];
      assert [b] + s in Extended(firsts, rests);
      assert [b] + s == t;
    }
    if t in Extended(firsts, rests) {
      var b, s :| b in firsts && s in rests && t == [b] + s;
      assert t[1..] == s;
    }
  }

  lemma {:induction false} ExtendedWithout(b: int, rests: set<seq<int>>, s: seq<int>)
    requires s in rests
    ensures Extended({b}, rests) == Extended({b}, rests - {s}) + {[b] + s} && [b] + s !in Extended({b}, rests - {s})
  {
    assert ([b] + s)[1..] == s;
    ExtendedMember({b}, rests - {s}, [b] + s);
    forall t ensures t in Extended({b}, rests) <==> t in Extended({b}, rests - {s}) || t == [b] + s {
      ExtendedMember({b}, rests, t);
      ExtendedMember({b}, rests - {s}, t);
      if t != [] {
        assert t == [t[0]] + t[1..];
      }
    }
  }

  lemma {:induction false} ExtendedByOne(b: int, rests: set<seq<int>>)
    ensures |Extended({b}, rests)| == |rests|
  {
    if rests != {} {
      var s := AnyElement(rests);
      ExtendedByOne(b, rests - {s});
      ExtendedWithout(b, rests, s);
    } else {
      assert Extended({b}, rests) == {};
    }
  }

  lemma {:induction false} ExtendedSplit(firsts: set<int>, rests: set<seq<int>>, b: int)
    requires b in firsts
    ensures Extended(firsts, rests) == Extended({b}, rests) + Extended(firsts - {b}, rests)
    ensures Extended({b}, rests) !! Extended(firsts - {b}, rests)
  {
    var some, others := Extended({b}, rests), Extended(firsts - {b}, rests);
    forall t ensures t in Extended(firsts, rests) <==> t in some || t in others {
      ExtendedMember(firsts, rests, t);
      ExtendedMember({b}, rests, t);
      ExtendedMember(firsts - {b}, rests, t);
    }
    forall t ensures !(t in some && t in others) {
      ExtendedMember({b}, rests, t);
      ExtendedMember(firsts - {b}, rests, t);
    }
  }

  lemma {:induction false} ExtendedSize(firsts: set<int>, rests: set<seq<int>>)
    ensures |Extended(firsts, rests)| == |firsts| * |rests|
  {
    if firsts != {} {
      var b := AnyElement(firsts);
      ExtendedSize(firsts - {b}, rests);
      ExtendedByOne(b, rests);
      ExtendedSplit(firsts, rests, b);
      SizeOfSum(Extended({b}, rests), Extended(firsts - {b}, rests), |firsts - {b}|, |rests|);
    } else {
      assert Extended(firsts, rests) == {};
    }
  }

  lemma {:induction false} SizeOfSum<T>(x: set<T>, y: set<T>, m: nat, n: nat)
    requires x !! y && |x| == n && |y| == m * n
    ensures |x + y| == (m + 1) * n
  {
  }

  /** `Sources` are exactly the accepted byte strings that the sampler turns into `w`. */
  lemma {:induction false} SourcesYield(w: string, chars: string, bytes: seq<Byte>)
    requires 1 <= |chars| <= 256
    ensures
      bytes in Sources(w, chars) <==>
      Map(bytes, CharOf(chars)) == w && forall b :: b in bytes ==> Below(Bound(|chars|))(b)
  {
    if w == "" {
    } else {
      ExtendedMember(FirstBytes(w[0], chars), Sources(w[1..], chars), bytes);
      if bytes != [] {
        SourcesYield(w[1..], chars, bytes[1..]);
        SourcesYieldStep(w, chars, bytes);
      }
    }
  }

  lemma {:induction false} SourcesYieldStep(w: string, chars: string, bytes: seq<Byte>)
    requires 1 <= |chars| <= 256 && w != "" && bytes != []
    ensures
      Map(bytes, CharOf(chars)) == w <==>
      CharOf(chars)(bytes[0]) == w[0] && Map(bytes[1..], CharOf(chars)) == w[1..]
    ensures
      (forall b :: b in bytes ==> Below(Bound(|chars|))(b)) <==>
      Below(Bound(|chars|))(bytes[0]) && forall b :: b in bytes[1..] ==> Below(Bound(|chars|))(b)
  {
  }

  lemma {:induction false} FirstBytesSize(c: char, chars: string)
    requires 1 <= |chars| <= 256 && NoDuplicates(chars) && c in chars
    ensures |FirstBytes(c, chars)| == PerCharacter(|chars|)
  {
    var r :| 0 <= r < |chars| && chars[r] == c;
    ExactlyUniform(|chars|, r);
    forall b | 0 <= b < Bound(|chars|) ensures chars[b % |chars|] == c <==> b % |chars| == r {
    }
    assert FirstBytes(c, chars) == Residues(|chars|, r, Bound(|chars|));
  }

  /** Every string over the alphabet has equally many sources: all secrets of one length are equally likely. */
  lemma {:induction false} AllSecretsEquallyLikely(w: string, chars: string)
    requires 1 <= |chars| <= 256 && NoDuplicates(chars) && forall c :: c in w ==> c in chars
    ensures |Sources(w, chars)| == Power(PerCharacter(|chars|), |w|)
  {
    if w != "" {
      AllSecretsEquallyLikely(w[1..], chars);
      FirstBytesSize(w[0], chars);
      ExtendedSize(FirstBytes(w[0], chars), Sources(w[1..], chars));
    }
  }
}
