/** Collision-free extraction: every match gets the first free name among its candidates, and none is lost. */
module Extraction {
  import opened Seqs
  import opened Text

  datatype Match = Match(filepath: string, content: string)

  /** The last index of `c`, or -1. */
  function RFind(s: string, c: char): (i: int)
    ensures -1 <= i < |s|
    ensures i >= 0 ==> s[i] == c
    ensures forall j :: i < j < |s| ==> s[j] != c
  {
    if s == "" then -1
    else if s[|s| - 1] == c then |s| - 1
    else RFind(s[..|s| - 1], c)
  }

  /** `os.path.splitext` on POSIX: the extension starts at the last dot, unless only dots come before it in the name. */
  function SplitExt(p: string): (r: (string, string))
    ensures r.0 + r.1 == p
    ensures r.1 == "" || (r.1[0] == '.' && '.' !in r.1[1..] && '/' !in r.1)
    ensures r.1 != "" <==> exists i, d :: 0 <= i < d < |p| && p[i] != '.' && p[d] == '.' && '/' !in p[i..]
  {
    var sep, dot := RFind(p, '/'), RFind(p, '.');
    if dot > sep && exists i :: sep < i < dot && p[i] != '.' then
      (p[..dot], p[dot..])
    else (p, "")
  }

  /** The names tried in turn: the original, then `{base}_v{1}{ext}`, `{base}_v{2}{ext}` and so on. */
  function Candidate(original: string, k: nat): string {
    if k == 0 then original else SplitExt(original).0 + "_v" + Decimal(k) + SplitExt(original).1
  }

  lemma {:induction false} CancelAround(a: string, x: string, y: string, b: string)
    requires a + x + b == a + y + b
    ensures x == y
  {
    assert |a + x + b| == |a| + |x| + |b| && |a + y + b| == |a| + |y| + |b|;
    assert (a + x + b)[|a|..|a| + |x|] == x && (a + y + b)[|a|..|a| + |y|] == y;
  }

  /** All candidates are different. */
  lemma {:induction false} CandidatesDiffer(original: string, j: nat, k: nat)
    requires j < k
    ensures Candidate(original, j) != Candidate(original, k)
  {
    var (base, ext) := SplitExt(original);
    if j == 0 {
      assert |Candidate(original, k)| > |base| + |ext| == |base + ext|;
    } else if Candidate(original, j) == Candidate(original, k) {
      CancelAround(base + "_v", Decimal(j), Decimal(k), ext);
      DecimalInjective(j, k);
      assert false;
    }
  }

  function Candidates(original: string, n: nat): (r: seq<string>)
    ensures |r| == n && forall i :: 0 <= i < n ==> r[i] == Candidate(original, i)
  {
    seq(n, i requires 0 <= i < n => Candidate(original, i))
  }

  /** If the first `n` candidates are all taken, then `n` names are. */
  lemma {:induction false} TakenAtLeast(original: string, n: nat, taken: set<string>)
    requires forall j :: 0 <= j < n ==> Candidate(original, j) in taken
    ensures n <= |taken|
  {
    var tried := Candidates(original, n);
    forall i, j | 0 <= i < j < n ensures tried[i] != tried[j] {
      CandidatesDiffer(original, i, j);
    }
    Pigeonhole(tried, taken);
  }

  /** `name` is candidate `k` of `original`, the first that is not taken. */
  ghost predicate IsCandidate(name: string, original: string, k: nat, taken: set<string>) {
    && name == Candidate(original, k) && name !in taken
    && forall j :: 0 <= j < k ==> Candidate(original, j) in taken
  }

  /** The first free candidate, found within one try more than there are taken names. */
  ghost predicate IsFirstFree(name: string, original: string, taken: set<string>) {
    exists k :: 0 <= k <= |taken| && IsCandidate(name, original, k, taken)
  }

  /** The renaming loop. */
  method FreeName(files: map<string, string>, original: string) returns (filepath: string)
    ensures IsFirstFree(filepath, original, files.Keys) && filepath !in files
  {
    filepath := original;
    var counter := 1;
    while filepath in files
      invariant counter >= 1 && filepath == Candidate(original, counter - 1)
      invariant forall j :: 0 <= j < counter - 1 ==> Candidate(original, j) in files.Keys
      invariant counter - 1 <= |files.Keys|
      decreases |files.Keys| + 1 - counter
    {
      TakenAtLeast(original, counter, files.Keys);
      var (base, ext) := SplitExt(original);
      filepath := base + "_v" + Decimal(counter) + ext;
      counter := counter + 1;
    }
    assert IsCandidate(filepath, original, counter - 1, files.Keys);
  }

  function Names(s: seq<string>): set<string> {
    set x | x in s
  }

  /** Every match was given the first of its candidates that no earlier match has. */
  ghost predicate Assigned(matches: seq<Match>, names: seq<string>) {
    |names| <= |matches| &&
    forall i :: 0 <= i < |names| ==> IsFirstFree(names[i], matches[i].filepath, Names(names[..i]))
  }

  /** Each name holds its own match's content. */
  ghost predicate Contains(matches: seq<Match>, files: map<string, string>, names: seq<string>)
    requires |names| <= |matches|
  {
    forall i :: 0 <= i < |names| ==> names[i] in files && files[names[i]] == matches[i].content
  }

  /** One entry per name, holding that match's content. */
  ghost predicate Stored(matches: seq<Match>, files: map<string, string>, names: seq<string>)
    requires |names| <= |matches|
  {
    Contains(matches, files, names) && |files| == |names| && NoDuplicates(names) && files.Keys == Names(names)
  }

  /** The state of the loop after it has named `names`. */
  ghost predicate Extracted(matches: seq<Match>, files: map<string, string>, names: seq<string>) {
    Assigned(matches, names) && Stored(matches, files, names)
  }

  lemma {:induction false} AssignNext(matches: seq<Match>, names: seq<string>, name: string)
    requires Assigned(matches, names) && |names| < |matches|
    requires IsFirstFree(name, matches[|names|].filepath, Names(names))
    ensures Assigned(matches, names + [name])
  {
    var next := names + [name];
    forall i | 0 <= i < |next| ensures IsFirstFree(next[i], matches[i].filepath, Names(next[..i])) {
      if i < |names| {
        assert next[..i] == names[..i] && next[i] == names[i];
      } else {
        assert next[..i] == names && next[i] == name;
      }
    }
  }

  lemma {:induction false} StoredNext(
    matches: seq<Match>, files: map<string, string>, names: seq<string>, name: string)
    requires |names| < |matches| && Stored(matches, files, names) && name !in files
    ensures Stored(matches, files[name := matches[|names|].content], names + [name])
  {
    assert name !in Names(names);
  }

  /** The dictionary has one entry per match, under the name reported for it, with that match's content. */
  method ExtractFiles(matches: seq<Match>) returns (files: map<string, string>, names: seq<string>)
    ensures Extracted(matches, files, names) && |names| == |files| == |matches|
  {
    files, names := map[], [];
    for n := 0 to |matches|
      invariant |names| == n && Extracted(matches, files, names)
    {
      var filepath := FreeName(files, matches[n].filepath);
      AssignNext(matches, names, filepath);
      StoredNext(matches, files, names, filepath);
      files := files[filepath := matches[n].content];
      names := names + [filepath];
    }
  }

  lemma {:induction false} FirstFreeUnique(x: string, y: string, original: string, taken: set<string>)
    requires IsFirstFree(x, original, taken) && IsFirstFree(y, original, taken)
    ensures x == y
  {
  }

  /** The assignment is forced: two ways of naming the same matches agree. */
  lemma {:induction false} AssignmentUnique(matches: seq<Match>, a: seq<string>, b: seq<string>)
    requires Assigned(matches, a) && Assigned(matches, b) && |a| == |b|
    ensures a == b
  {
    SamePrefix(matches, a, b, |a|);
    assert a[..|a|] == a && b[..|b|] == b;
  }

  lemma {:induction false} SameNext(matches: seq<Match>, a: seq<string>, b: seq<string>, i: nat)
    requires Assigned(matches, a) && Assigned(matches, b) && i < |a| == |b| && a[..i] == b[..i]
    ensures a[i] == b[i]
  {
    FirstFreeUnique(a[i], b[i], matches[i].filepath, Names(a[..i]));
  }

  lemma {:induction false} SamePrefix(matches: seq<Match>, a: seq<string>, b: seq<string>, n: nat)
    requires Assigned(matches, a) && Assigned(matches, b) && n <= |a| == |b|
    ensures a[..n] == b[..n]
  {
    if n > 0 {
      SamePrefix(matches, a, b, n - 1);
      SameNext(matches, a, b, n - 1);
      PrefixGrows(a, b, n - 1);
    }
  }

  lemma {:induction false} PrefixGrows(a: seq<string>, b: seq<string>, i: nat)
    requires i < |a| == |b| && a[..i] == b[..i] && a[i] == b[i]
    ensures a[..i + 1] == b[..i + 1]
  {
    assert a[..i + 1] == a[..i] + [a[i]] && b[..i + 1] == b[..i] + [b[i]];
  }
}
