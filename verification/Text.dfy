/**
 The string operations the components use: trimming, splitting, joining and decimal numerals.

 Splitting keeps empty pieces and returns one more piece than there are separators, as `String.prototype.split` does;
 joining is its inverse. A decimal numeral has no leading zero, so different numbers have different numerals, which is
 what makes generated names and identifiers differ.
 */
module Text {
  import opened Seqs

  // ---------------------------------------------------------------- trimming

  /** The characters `String.prototype.trim` removes: white space and line terminators of ECMA-262. */
  predicate IsSpace(c: char) {
    var u := c as int;
    || 9 <= u <= 13 || u == 32 || u == 0xA0 || u == 0x1680 || 0x2000 <= u <= 0x200A
    || u == 0x2028 || u == 0x2029 || u == 0x202F || u == 0x205F || u == 0x3000 || u == 0xFEFF
  }

  function TrimStart(s: string): string {
    if s != [] && IsSpace(s[0]) then TrimStart(s[1..]) else s
  }

  function TrimEnd(s: string): string {
    if s != [] && IsSpace(s[|s| - 1]) then TrimEnd(s[..|s| - 1]) else s
  }

  function Trim(s: string): string {
    TrimEnd(TrimStart(s))
  }

  /** Neither end of the text is white space. */
  predicate Trimmed(s: string) {
    s == [] || (!IsSpace(s[0]) && !IsSpace(s[|s| - 1]))
  }

  lemma {:induction false} TrimStartCuts(s: string)
    ensures |TrimStart(s)| <= |s| && TrimStart(s) == s[|s| - |TrimStart(s)|..]
    ensures TrimStart(s) == [] || !IsSpace(TrimStart(s)[0])
  {
    if s != [] && IsSpace(s[0]) {
      TrimStartCuts(s[1..]);
    }
  }

  lemma {:induction false} TrimEndCuts(s: string)
    ensures |TrimEnd(s)| <= |s| && TrimEnd(s) == s[..|TrimEnd(s)|]
    ensures TrimEnd(s) == [] || !IsSpace(TrimEnd(s)[|TrimEnd(s)| - 1])
  {
    if s != [] && IsSpace(s[|s| - 1]) {
      TrimEndCuts(s[..|s| - 1]);
    }
  }

  predicate AllSpace(s: string) {
    forall c :: c in s ==> IsSpace(c)
  }

  /** The white space runs from the tab to the byte order mark, and no printable ASCII character is part of it. */
  lemma {:induction false} Spaces()
    ensures
      AllSpace("\t\n\U{0b}\U{0c}\r \U{a0}\U{1680}\U{2000}\U{200a}\U{2028}\U{2029}\U{202f}\U{205f}\U{3000}\U{feff}")
    ensures forall c :: '!' <= c <= '~' ==> !IsSpace(c)
  {
  }

  lemma {:induction false} StartIsSpace(s: string)
    ensures |TrimStart(s)| <= |s| && AllSpace(s[..|s| - |TrimStart(s)|])
  {
    TrimStartCuts(s);
    if s != [] && IsSpace(s[0]) {
      StartIsSpace(s[1..]);
      assert s[..|s| - |TrimStart(s)|] == [s[0]] + s[1..][..|s[1..]| - |TrimStart(s)|];
    }
  }

  lemma {:induction false} EndIsSpace(s: string)
    ensures |TrimEnd(s)| <= |s| && AllSpace(s[|TrimEnd(s)|..])
  {
    TrimEndCuts(s);
    if s != [] && IsSpace(s[|s| - 1]) {
      EndIsSpace(s[..|s| - 1]);
      assert s[|TrimEnd(s)|..] == s[..|s| - 1][|TrimEnd(s)|..] + [s[|s| - 1]];
    }
  }

  /** What trimming takes off either end is white space. */
  lemma {:induction false} TrimIsMiddle(s: string) returns (before: string, after: string)
    ensures s == before + Trim(s) + after && AllSpace(before) && AllSpace(after) && Trimmed(Trim(s))
  {
    var started := TrimStart(s);
    TrimTrims(s);
    StartIsSpace(s);
    EndIsSpace(started);
    TrimStartCuts(s);
    TrimEndCuts(started);
    before, after := s[..|s| - |started|], started[|Trim(s)|..];
    assert started == Trim(s) + after;
  }

  /** Trimming yields a trimmed piece of the text, and changes nothing that is trimmed already. */
  lemma {:induction false} TrimTrims(s: string)
    ensures Trimmed(Trim(s))
    ensures forall c :: c in Trim(s) ==> c in s
    ensures Trimmed(s) ==> Trim(s) == s
  {
    TrimStartCuts(s);
    TrimEndCuts(TrimStart(s));
  }

  // --------------------------------------------------------------- splitting

  /** `s.split(sep)` for a one-character separator: one more piece than there are separators. */
  function Split(s: string, sep: char): (r: seq<string>)
    ensures |r| >= 1
  {
    if s == [] then [""]
    else
      var rest := Split(s[1..], sep);
      if s[0] == sep then [""] + rest else [[s[0]] + rest[0]] + rest[1..]
  }

  function Join(parts: seq<string>, sep: string): string {
    if parts == [] then "" else if |parts| == 1 then parts[0] else parts[0] + sep + Join(parts[1..], sep)
  }

  function Init<T>(s: seq<T>): (r: seq<T>)
    requires s != []
  {
    s[..|s| - 1]
  }

  function Last<T>(s: seq<T>): (r: T)
    requires s != []
  {
    s[|s| - 1]
  }

  /** Concatenates two splits, merging the pieces that meet. */
  function Glue(x: seq<string>, y: seq<string>): (r: seq<string>)
    requires x != [] && y != []
    ensures |r| == |x| + |y| - 1
  {
    Init(x) + [Last(x) + y[0]] + y[1..]
  }

  lemma {:induction false} GlueBefore(piece: string, x: seq<string>, y: seq<string>)
    requires x != [] && y != []
    ensures Glue([piece] + x, y) == [piece] + Glue(x, y)
  {
  }

  lemma {:induction false} GlueInto(c: char, x: seq<string>, y: seq<string>)
    requires x != [] && y != []
    ensures Glue([[c] + x[0]] + x[1..], y) == [[c] + Glue(x, y)[0]] + Glue(x, y)[1..]
  {
    if |x| == 1 {
      assert Glue(x, y)[1..] == y[1..];
      assert ([c] + x[0]) + y[0] == [c] + (x[0] + y[0]);
    } else {
      GlueBefore(x[0], x[1..], y);
      assert x == [x[0]] + x[1..];
      GlueBefore([c] + x[0], x[1..], y);
    }
  }

  /** Splitting a concatenation glues the last piece of the first text to the first piece of the second. */
  lemma {:induction false} SplitConcat(a: string, b: string, sep: char)
    ensures Split(a + b, sep) == Glue(Split(a, sep), Split(b, sep))
  {
    if a == [] {
      assert a + b == b && "" + Split(b, sep)[0] == Split(b, sep)[0];
    } else {
      SplitConcat(a[1..], b, sep);
      assert (a + b)[1..] == a[1..] + b;
      GlueBefore("", Split(a[1..], sep), Split(b, sep));
      GlueInto(a[0], Split(a[1..], sep), Split(b, sep));
    }
  }

  lemma {:induction false} SplitNoSeparator(s: string, sep: char)
    requires sep !in s
    ensures Split(s, sep) == [s]
  {
    if s != [] {
      SplitNoSeparator(s[1..], sep);
      assert s == [s[0]] + s[1..];
    }
  }

  lemma {:induction false} InitLastOfConcat<T>(a: seq<T>, b: seq<T>)
    requires b != []
    ensures Init(a + b) == a + Init(b) && Last(a + b) == Last(b)
  {
  }

  lemma {:induction false} LastPieceHasNoSeparator(s: string, sep: char)
    ensures sep !in Last(Split(s, sep))
  {
    SplitPieces(s, sep);
    assert Last(Split(s, sep)) in Split(s, sep);
  }

  /** Only the last piece of the past takes part in splitting what comes next. */
  lemma {:induction false} SplitMore(past: string, more: string, sep: char)
    ensures Split(past + more, sep) == Init(Split(past, sep)) + Split(Last(Split(past, sep)) + more, sep)
  {
    var kept := Last(Split(past, sep));
    LastPieceHasNoSeparator(past, sep);
    SplitNoSeparator(kept, sep);
    SplitConcat(past, more, sep);
    SplitConcat(kept, more, sep);
    GlueAssociates(Split(past, sep), Split(more, sep));
  }

  lemma {:induction false} GlueAssociates(x: seq<string>, y: seq<string>)
    requires x != [] && y != []
    ensures Glue(x, y) == Init(x) + Glue([Last(x)], y)
  {
  }

  lemma {:induction false} SplitPieces(s: string, sep: char)
    ensures forall p :: p in Split(s, sep) ==> sep !in p
    ensures forall p, c :: p in Split(s, sep) && c in p ==> c in s
  {
    if s != [] {
      SplitPieces(s[1..], sep);
      var rest := Split(s[1..], sep);
      forall p | p in Split(s, sep) ensures sep !in p && forall c :: c in p ==> c in s {
        assert rest[0] in rest;
        if s[0] == sep {
          assert p == "" || p in rest;
        } else {
          assert p == [s[0]] + rest[0] || p in rest;
        }
      }
    }
  }

  /** Cutting at the first separator, as a loop over `indexOf` does, peels off the first piece of the split. */
  lemma {:induction false} SplitAtFirst(s: string, i: nat, sep: char)
    requires i < |s| && s[i] == sep && sep !in s[..i]
    ensures Split(s, sep) == [s[..i]] + Split(s[i + 1..], sep)
  {
    assert s == s[..i] + s[i..];
    SplitConcat(s[..i], s[i..], sep);
    SplitNoSeparator(s[..i], sep);
    assert s[i..][1..] == s[i + 1..];
    assert Init([s[..i]]) == [] && Last([s[..i]]) == s[..i];
    assert Split(s[i..], sep) == [""] + Split(s[i + 1..], sep);
    assert s[..i] + "" == s[..i];
  }

  /** Joining what was split gives the text back. */
  lemma {:induction false} JoinSplit(s: string, sep: char)
    ensures Join(Split(s, sep), [sep]) == s
  {
    if s != [] {
      JoinSplit(s[1..], sep);
      var rest := Split(s[1..], sep);
      if s[0] == sep {
        assert ([""] + rest)[1..] == rest;
      } else {
        assert ([[s[0]] + rest[0]] + rest[1..])[1..] == rest[1..];
      }
      assert s == [s[0]] + s[1..];
    }
  }

  /** The index of the first `c` in `s`, or None: `indexOf`. */
  function IndexOf(s: string, c: char): (r: Option<nat>)
    ensures r.None? <==> c !in s
    ensures r.Some? ==> r.value < |s| && s[r.value] == c && c !in s[..r.value]
  {
    if s == [] then None
    else if s[0] == c then Some(0)
    else
      match IndexOf(s[1..], c)
      case None => None
      case Some(i) =>
        assert s[..i + 1] == [s[0]] + s[1..][..i];
        Some(i + 1)
  }

  // --------------------------------------------------------------- numerals

  function Digit(d: nat): char
    requires d < 10
  {
    '0' + d as char
  }

  predicate IsDigit(c: char) {
    '0' <= c <= '9'
  }

  /** The decimal numeral of `n`. */
  function Decimal(n: nat): (s: string)
    ensures |s| >= 1
    ensures forall i :: 0 <= i < |s| ==> IsDigit(s[i])
  {
    if n < 10 then [Digit(n)] else Decimal(n / 10) + [Digit(n % 10)]
  }

  /** The number a digit string denotes. */
  function Value(s: string): nat
    requires forall i :: 0 <= i < |s| ==> IsDigit(s[i])
  {
    if s == [] then 0
    else
      assert IsDigit(s[|s| - 1]);
      10 * Value(s[..|s| - 1]) + (s[|s| - 1] as int - '0' as int)
  }

  lemma {:induction false} ValueOfDecimal(n: nat)
    ensures Value(Decimal(n)) == n
  {
    if n >= 10 {
      ValueOfDecimal(n / 10);
      assert Decimal(n)[..|Decimal(n)| - 1] == Decimal(n / 10);
    } else {
      assert Decimal(n)[..0] == "";
    }
  }

  lemma {:induction false} DecimalInjective(m: nat, n: nat)
    requires Decimal(m) == Decimal(n)
    ensures m == n
  {
    ValueOfDecimal(m);
    ValueOfDecimal(n);
  }
}
