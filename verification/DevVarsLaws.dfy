/**
 What parsing a regenerated `.dev.vars` gives. The new file is the configuration part, which sets only what the setup
 manages, followed by up to three blocks. A lookup in a concatenation of complete lines looks in the later part first,
 so it suffices to know each block; a value then survives if and only if printing and parsing it is the identity.
 */
module DevVarsLaws {
  import opened Seqs
  import opened Sorting
  import opened Text
  import opened DevVars

  // ------------------------------------------------------------------ lines

  /** The value of the last line that sets the key. */
  function LastValue(lines: seq<string>, key: string): Option<string> {
    if lines == [] then None
    else
      match ParseLine(Last(lines))
      case None => LastValue(Init(lines), key)
      case Some(e) => if e.0 == key then Some(e.1) else LastValue(Init(lines), key)
  }

  function LookupText(text: string, key: string): Option<string> {
    LastValue(Split(text, '\n'), key)
  }

  function OrElse(first: Option<string>, second: Option<string>): Option<string> {
    if first.Some? then first else second
  }

  lemma {:induction false} MapGetSet(entries: seq<Entry>, e: Entry, key: string)
    ensures MapGet(MapSet(entries, e), key) == if key == e.0 then Some(e.1) else MapGet(entries, key)
  {
    if entries != [] {
      if entries[0].0 != e.0 {
        MapGetSet(entries[1..], e, key);
        assert ([entries[0]] + MapSet(entries[1..], e))[1..] == MapSet(entries[1..], e);
      } else {
        assert ([e] + entries[1..])[1..] == entries[1..];
      }
    }
  }

  /** The parser's map holds for each key what the last line that sets it says. */
  lemma {:induction false} ParseGet(lines: seq<string>, key: string)
    ensures MapGet(ParseLines(lines), key) == LastValue(lines, key)
  {
    if lines != [] {
      ParseGet(Init(lines), key);
      match ParseLine(Last(lines)) {
        case None =>
        case Some(e) => MapGetSet(ParseLines(Init(lines)), e, key);
      }
    }
  }

  lemma {:induction false} LastValueConcat(a: seq<string>, b: seq<string>, key: string)
    ensures LastValue(a + b, key) == OrElse(LastValue(b, key), LastValue(a, key))
  {
    if b == [] {
      assert a + b == a;
    } else {
      InitLastOfConcat(a, b);
      LastValueConcat(a, Init(b), key);
    }
  }

  predicate EndsLine(text: string) {
    text == "" || Last(text) == '\n'
  }

  lemma {:induction false} EndsLineSplit(text: string)
    requires EndsLine(text)
    ensures Last(Split(text, '\n')) == ""
  {
    if text != "" {
      var front := Init(text);
      assert text == front + "\n";
      SplitConcat(front, "\n", '\n');
      assert "\n"[1..] == "";
      assert Split("\n", '\n') == [""] + Split("", '\n');
    }
  }

  /** A text that ends its last line contributes its lines; what follows it overrides them. */
  lemma {:induction false} LookupConcat(a: string, b: string, key: string)
    requires EndsLine(a)
    ensures LookupText(a + b, key) == OrElse(LookupText(b, key), LookupText(a, key))
  {
    EndsLineSplit(a);
    SplitMore(a, b, '\n');
    assert "" + b == b;
    LastValueConcat(Init(Split(a, '\n')), Split(b, '\n'), key);
    assert ParseLine("") == None;
  }

  lemma {:induction false} SplitLine(line: string)
    requires '\n' !in line
    ensures Split(line + "\n", '\n') == [line, ""]
  {
    SplitNoSeparator(line, '\n');
    SplitConcat(line, "\n", '\n');
    assert "\n"[1..] == "" && Split("\n", '\n') == [""] + Split("", '\n');
    assert line + "" == line;
  }

  lemma {:induction false} LookupLine(line: string, key: string)
    requires '\n' !in line
    ensures
      LookupText(line + "\n", key) ==
      match ParseLine(line) case None => None case Some(e) => if e.0 == key then Some(e.1) else None
  {
    SplitLine(line);
    assert [line, ""] == [line] + [""];
    LastValueConcat([line], [""], key);
    LastValueOne(line, key);
    LastValueOne("", key);
    assert ParseLine("") == None;
  }

  lemma {:induction false} LastValueOne(line: string, key: string)
    ensures
      LastValue([line], key) ==
      match ParseLine(line) case None => None case Some(e) => if e.0 == key then Some(e.1) else None
  {
  }

  lemma {:induction false} LookupNothing(key: string)
    ensures LookupText("", key) == None
  {
    LastValueOne("", key);
    assert ParseLine("") == None;
  }

  // ------------------------------------------------------- keys and values

  /** What the key of a parsed line looks like. */
  predicate IsKey(key: string) {
    key != "" && Trimmed(key) && key[0] != '#' && '=' !in key && '\n' !in key
  }

  predicate GoodEntry(e: Entry) {
    IsKey(e.0) && '\n' !in e.1
  }

  lemma {:induction false} TrimEndKeepsFirst(s: string)
    requires s != "" && !IsSpace(s[0])
    ensures TrimEnd(s) != "" && TrimEnd(s)[0] == s[0]
  {
    if IsSpace(s[|s| - 1]) {
      TrimEndKeepsFirst(s[..|s| - 1]);
    }
  }

  lemma {:induction false} JoinHasNo(parts: seq<string>, sep: char, c: char)
    requires c != sep && forall p :: p in parts ==> c !in p
    ensures c !in Join(parts, [sep])
  {
    if |parts| > 1 {
      JoinHasNo(parts[1..], sep, c);
    }
  }

  lemma {:induction false} ParsedIsGood(line: string)
    requires '\n' !in line && ParseLine(line).Some?
    ensures GoodEntry(ParseLine(line).value)
  {
    var trimmed := Trim(line);
    TrimTrims(line);
    var parts := Split(trimmed, '=');
    SplitPieces(trimmed, '=');
    assert parts[0][0] == trimmed[0];
    TrimEndKeepsFirst(parts[0]);
    TrimTrims(parts[0]);
    assert parts[0] in parts;
    JoinHasNo(parts[1..], '=', '\n');
  }

  lemma {:induction false} MapSetMember(entries: seq<Entry>, e: Entry, x: Entry)
    requires x in MapSet(entries, e)
    ensures x == e || x in entries
  {
    if entries != [] && entries[0].0 != e.0 && x != entries[0] {
      MapSetMember(entries[1..], e, x);
    }
  }

  ghost predicate DistinctKeys(entries: seq<Entry>) {
    forall i, j :: 0 <= i < j < |entries| ==> entries[i].0 != entries[j].0
  }

  lemma {:induction false} MapSetDistinct(entries: seq<Entry>, e: Entry)
    requires DistinctKeys(entries)
    ensures DistinctKeys(MapSet(entries, e))
  {
    if entries != [] && entries[0].0 != e.0 {
      MapSetDistinct(entries[1..], e);
      forall x | x in MapSet(entries[1..], e) ensures x.0 != entries[0].0 {
        MapSetMember(entries[1..], e, x);
      }
    }
  }

  ghost predicate GoodEntries(entries: seq<Entry>) {
    DistinctKeys(entries) && forall e :: e in entries ==> GoodEntry(e)
  }

  lemma {:induction false} ParsedAreGood(lines: seq<string>)
    requires forall l :: l in lines ==> '\n' !in l
    ensures GoodEntries(ParseLines(lines))
  {
    if lines != [] {
      ParsedAreGood(Init(lines));
      match ParseLine(Last(lines)) {
        case None =>
        case Some(e) =>
          ParsedIsGood(Last(lines));
          MapSetDistinct(ParseLines(Init(lines)), e);
          forall x | x in MapSet(ParseLines(Init(lines)), e) ensures GoodEntry(x) {
            MapSetMember(ParseLines(Init(lines)), e, x);
          }
      }
    }
  }

  lemma {:induction false} ParseIsGood(text: string)
    ensures GoodEntries(Parse(text))
  {
    SplitPieces(text, '\n');
    ParsedAreGood(Split(text, '\n'));
  }

  /** What a printed value reads back as: itself, or with one more pair of quotes when it holds a line terminator. */
  function Reread(value: string): string {
    if Clean(value) then value else Quote(value)
  }

  lemma {:induction false} UnquoteQuote(value: string)
    ensures Unquote(Quote(value)) == Reread(value)
  {
  }

  lemma {:induction false} SplitSetting(key: string, rest: string)
    requires '=' !in key
    ensures Split(key + "=" + rest, '=') == [key] + Split(rest, '=')
  {
    var line := key + "=" + rest;
    assert line[|key|] == '=' && line[..|key|] == key && line[|key| + 1..] == rest;
    SplitAtFirst(line, |key|, '=');
  }

  lemma {:induction false} ParsePrinted(key: string, value: string)
    requires IsKey(key)
    ensures ParseLine(key + "=" + Quote(value)) == Some((key, Reread(value)))
  {
    var line := key + "=" + Quote(value);
    TrimTrims(line);
    TrimTrims(key);
    SplitSetting(key, Quote(value));
    assert Split(line, '=')[1..] == Split(Quote(value), '=');
    JoinSplit(Quote(value), '=');
    UnquoteQuote(value);
  }

  // ---------------------------------------------------------- printed blocks

  lemma {:induction false} PrintAllEndsLine(entries: seq<Entry>)
    ensures EndsLine(PrintAll(entries))
    ensures PrintAll(entries) == "" <==> entries == []
  {
  }

  lemma {:induction false} PrintNamesEndsLine(names: seq<string>)
    ensures EndsLine(PrintNames(names))
  {
  }

  lemma {:induction false} MapGetAppend(entries: seq<Entry>, e: Entry, key: string)
    ensures MapGet(entries + [e], key) == OrElse(MapGet(entries, key), if e.0 == key then Some(e.1) else None)
  {
    if entries == [] {
      assert entries + [e] == [e];
    } else {
      assert (entries + [e])[1..] == entries[1..] + [e];
      MapGetAppend(entries[1..], e, key);
    }
  }

  lemma {:induction false} MapGetIff(entries: seq<Entry>, key: string, value: string)
    requires DistinctKeys(entries)
    ensures MapGet(entries, key) == Some(value) <==> (key, value) in entries
  {
    if entries != [] {
      MapGetIff(entries[1..], key, value);
      assert entries == [entries[0]] + entries[1..];
    }
  }

  function RereadOption(value: Option<string>): Option<string> {
    match value
    case None => None
    case Some(v) => Some(Reread(v))
  }

  lemma {:induction false} LookupSetting(e: Entry, key: string)
    requires GoodEntry(e)
    ensures LookupText(Setting(e), key) == if key == e.0 then Some(Reread(e.1)) else None
  {
    var line := e.0 + "=" + Quote(e.1);
    assert Setting(e) == line + "\n";
    assert '\n' !in Quote(e.1);
    LookupLine(line, key);
    ParsePrinted(e.0, e.1);
  }

  /** Parsing printed settings gives for each key its reread value. */
  lemma {:induction false} LookupPrinted(entries: seq<Entry>, key: string)
    requires GoodEntries(entries)
    ensures LookupText(PrintAll(entries), key) == RereadOption(MapGet(entries, key))
  {
    if entries == [] {
      LookupNothing(key);
    } else {
      var front, e := Init(entries), Last(entries);
      assert entries == front + [e];
      LookupPrinted(front, key);
      PrintAllEndsLine(front);
      LookupConcat(PrintAll(front), Setting(e), key);
      LookupSetting(e, key);
      MapGetAppend(front, e, key);
      if key == e.0 {
        NotAmongFront(entries, key);
      }
    }
  }

  lemma {:induction false} NotAmongFront(entries: seq<Entry>, key: string)
    requires entries != [] && DistinctKeys(entries) && key == Last(entries).0
    ensures MapGet(Init(entries), key) == None
  {
    NoneIfAbsent(Init(entries), key);
  }

  lemma {:induction false} NoneIfAbsent(entries: seq<Entry>, key: string)
    requires forall e :: e in entries ==> e.0 != key
    ensures MapGet(entries, key) == None
  {
    if entries != [] {
      NoneIfAbsent(entries[1..], key);
    }
  }

  lemma {:induction false} CommentIsNone(line: string)
    requires line != "" && line[0] == '#'
    ensures ParseLine(line) == None
  {
    TrimEndKeepsFirst(line);
  }

  /** The names found in `worker-configuration.d.ts` are upper-case words; here it matters that each is on one line. */
  predicate IsName(name: string) {
    forall c :: c in name ==> c != '\n'
  }

  lemma {:induction false} LookupComment(line: string, key: string)
    requires line != "" && line[0] == '#' && '\n' !in line
    ensures LookupText(line + "\n", key) == None
  {
    LookupLine(line, key);
    CommentIsNone(line);
  }

  lemma {:induction false} LookupNames(names: seq<string>, key: string)
    requires forall n :: n in names ==> IsName(n)
    ensures LookupText(PrintNames(names), key) == None
  {
    if names == [] {
      LookupNothing(key);
    } else {
      var front, name := Init(names), Last(names);
      assert IsName(name);
      LookupNames(front, key);
      PrintNamesEndsLine(front);
      LookupConcat(PrintNames(front), Placeholder(name), key);
      var line := "#" + name + "=\"\"";
      assert Placeholder(name) == line + "\n";
      assert '\n' !in line;
      LookupComment(line, key);
    }
  }

  predicate IsComment(header: string) {
    header != "" && header[0] == '#' && '\n' !in header
  }

  lemma {:induction false} WorkerHeaderIsComment()
    ensures IsComment(WORKER_HEADER)
  {
  }

  lemma {:induction false} UnsetHeaderIsComment()
    ensures IsComment(UNSET_HEADER)
  {
    var a, b, c := "# Additional worker configuration ", "variables (uncomment and ", "set as needed)";
    assert '\n' !in a && '\n' !in b && '\n' !in c && a[0] == '#';
    assert UNSET_HEADER == a + b + c;
  }

  lemma {:induction false} PreservedHeaderIsComment()
    ensures IsComment(PRESERVED_HEADER)
  {
  }

  lemma {:induction false} LookupHeader(header: string, key: string)
    requires IsComment(header)
    ensures LookupText("\n" + header + "\n", key) == None
  {
    LookupLine("", key);
    assert "" + "\n" == "\n" && ParseLine("") == None;
    LookupComment(header, key);
    LookupConcat("\n", header + "\n", key);
    assert "\n" + header + "\n" == "\n" + (header + "\n");
  }

  lemma {:induction false} LookupBlock(header: string, body: string, key: string)
    requires IsComment(header)
    ensures LookupText(Block(header, body), key) == LookupText(body, key)
  {
    if body != "" {
      LookupHeader(header, key);
      LookupConcat("\n" + header + "\n", body, key);
    }
  }

  // ------------------------------------------------------------ regeneration

  lemma {:induction false} EndsLineConcat(a: string, b: string)
    requires EndsLine(b) && (b != "" || EndsLine(a))
    ensures EndsLine(a + b)
  {
  }

  lemma {:induction false} LinesEndLine(lines: seq<Line>)
    ensures EndsLine(PrintLines(lines))
  {
    if lines != [] {
      assert PrintLine(Last(lines)) != "" && EndsLine(PrintLine(Last(lines)));
      EndsLineConcat(PrintLines(Init(lines)), PrintLine(Last(lines)));
    }
  }

  lemma {:induction false} PreservedGet(existing: seq<Entry>, managed: seq<string>, key: string)
    ensures
      MapGet(Filter(existing, Unmanaged(managed)), key) ==
      if key !in managed && key !in SETUP_MANAGED then MapGet(existing, key) else None
  {
    if existing != [] {
      PreservedGet(existing[1..], managed, key);
      var rest := Filter(existing[1..], Unmanaged(managed));
      assert ([existing[0]] + rest)[1..] == rest;
      assert [] + rest == rest;
    }
  }

  lemma {:induction false} WorkerGet(managed: seq<string>, existing: seq<Entry>, key: string)
    ensures
      MapGet(FlatMap(managed, Carried(existing)), key) ==
      if key in managed && key !in SETUP_MANAGED then MapGet(existing, key) else None
  {
    if managed != [] {
      WorkerGet(managed[1..], existing, key);
      var first, rest := Carried(existing)(managed[0]), FlatMap(managed[1..], Carried(existing));
      if first == [] {
        assert first + rest == rest;
      } else {
        assert (first + rest)[1..] == rest;
      }
    }
  }

  lemma {:induction false} MapGetMember(existing: seq<Entry>, key: string)
    ensures MapGet(existing, key).Some? ==> (key, MapGet(existing, key).value) in existing
  {
    if existing != [] {
      MapGetMember(existing[1..], key);
    }
  }

  lemma {:induction false} WorkerIsGood(managed: seq<string>, existing: seq<Entry>)
    requires NoDuplicates(managed) && GoodEntries(existing)
    ensures GoodEntries(FlatMap(managed, Carried(existing)))
    ensures forall e :: e in FlatMap(managed, Carried(existing)) ==> e.0 in managed
  {
    if managed != [] {
      WorkerIsGood(managed[1..], existing);
      MapGetMember(existing, managed[0]);
      var first, rest := Carried(existing)(managed[0]), FlatMap(managed[1..], Carried(existing));
      assert managed[0] !in managed[1..];
      if first == [] {
        assert first + rest == rest;
      }
    }
  }

  lemma {:induction false} PrependGood(e: Entry, rest: seq<Entry>)
    requires GoodEntries(rest) && GoodEntry(e) && forall x :: x in rest ==> x.0 != e.0
    ensures GoodEntries([e] + rest)
  {
  }

  lemma {:induction false} TailIsGood(entries: seq<Entry>)
    requires entries != [] && GoodEntries(entries)
    ensures GoodEntries(entries[1..]) && GoodEntry(entries[0])
    ensures forall x :: x in entries[1..] ==> x.0 != entries[0].0
  {
  }

  lemma {:induction false} PreservedIsGood(existing: seq<Entry>, managed: seq<string>)
    requires GoodEntries(existing)
    ensures GoodEntries(Filter(existing, Unmanaged(managed)))
  {
    if existing != [] {
      TailIsGood(existing);
      PreservedIsGood(existing[1..], managed);
      var rest := Filter(existing[1..], Unmanaged(managed));
      PrependGood(existing[0], rest);
      assert [] + rest == rest;
    }
  }

  lemma {:induction false} KeysDistinctMultiset(a: seq<Entry>, b: seq<Entry>)
    requires multiset(a) == multiset(b) && DistinctKeys(a)
    ensures DistinctKeys(b)
  {
    SameElements(a, b);
    NoDuplicatesOfKeys(a);
    MultisetOfDistinct(a);
    DistinctFromMultiset(b);
    forall i, j | 0 <= i < j < |b| ensures b[i].0 != b[j].0 {
      assert b[i] in a && b[j] in a && b[i] != b[j];
      var x :| 0 <= x < |a| && a[x] == b[i];
      var y :| 0 <= y < |a| && a[y] == b[j];
      assert x != y;
    }
  }

  lemma {:induction false} NoDuplicatesOfKeys(a: seq<Entry>)
    requires DistinctKeys(a)
    ensures NoDuplicates(a)
  {
  }

  /** The order in which distinct keys are printed does not matter to the parser. */
  lemma {:induction false} SortedGet(entries: seq<Entry>, le: Order, key: string)
    requires GoodEntries(entries)
    ensures GoodEntries(StableSort(entries, ByKey(le)))
    ensures MapGet(StableSort(entries, ByKey(le)), key) == MapGet(entries, key)
  {
    var sorted := StableSort(entries, ByKey(le));
    KeysDistinctMultiset(entries, sorted);
    SameElements(entries, sorted);
    MapGetMember(entries, key);
    MapGetMember(sorted, key);
    if MapGet(entries, key).Some? {
      MapGetIff(sorted, key, MapGet(entries, key).value);
    } else if MapGet(sorted, key).Some? {
      MapGetIff(entries, key, MapGet(sorted, key).value);
    }
  }

  lemma {:induction false} LookupSortedBlock(header: string, entries: seq<Entry>, le: Order, key: string)
    requires IsComment(header) && GoodEntries(entries)
    ensures
      var block := Block(header, PrintAll(StableSort(entries, ByKey(le))));
      EndsLine(block) && LookupText(block, key) == RereadOption(MapGet(entries, key))
  {
    var sorted := StableSort(entries, ByKey(le));
    SortedGet(entries, le, key);
    LookupPrinted(sorted, key);
    PrintAllEndsLine(sorted);
    LookupBlock(header, PrintAll(sorted), key);
  }

  lemma {:induction false} LookupUnsetBlock(names: seq<string>, leUnits: Order, key: string)
    requires forall n :: n in names ==> IsName(n)
    ensures
      var block := Block(UNSET_HEADER, PrintNames(StableSort(names, leUnits)));
      EndsLine(block) && LookupText(block, key) == None
  {
    var sorted := StableSort(names, leUnits);
    SameElements(names, sorted);
    UnsetHeaderIsComment();
    LookupNames(sorted, key);
    PrintNamesEndsLine(sorted);
    LookupBlock(UNSET_HEADER, PrintNames(sorted), key);
  }

  lemma {:induction false} LookupThree(a: string, b: string, c: string, key: string)
    requires EndsLine(a) && EndsLine(b)
    ensures LookupText(a + b + c, key) == OrElse(LookupText(c, key), OrElse(LookupText(b, key), LookupText(a, key)))
  {
    EndsLineConcat(a, b);
    LookupConcat(a + b, c, key);
    LookupConcat(a, b, key);
  }

  /** One run of the setup: its configuration and the distinct names found in the worker configuration. */
  datatype Run = Run(config: Config, managed: seq<string>)

  ghost predicate GoodRun(run: Run) {
    NoDuplicates(run.managed) && forall n :: n in run.managed ==> IsName(n)
  }

  function Regenerate(text: string, run: Run, le: Order, leUnits: Order): string {
    Render(run.config, run.managed, Parse(text), le, leUnits)
  }

  lemma {:induction false} CarriedLookup(run: Run, existing: seq<Entry>, le: Order, leUnits: Order, key: string)
    requires GoodRun(run) && GoodEntries(existing)
    ensures
      LookupText(CarriedText(run.managed, existing, le, leUnits), key) ==
      RereadOption(if key in SETUP_MANAGED then None else MapGet(existing, key))
  {
    var worker, preserved := FlatMap(run.managed, Carried(existing)), Filter(existing, Unmanaged(run.managed));
    var unset := Filter(run.managed, IsUnset(existing));
    WorkerIsGood(run.managed, existing);
    PreservedIsGood(existing, run.managed);
    WorkerHeaderIsComment();
    PreservedHeaderIsComment();
    LookupSortedBlock(WORKER_HEADER, worker, le, key);
    LookupUnsetBlock(unset, leUnits, key);
    LookupSortedBlock(PRESERVED_HEADER, preserved, le, key);
    WorkerGet(run.managed, existing, key);
    PreservedGet(existing, run.managed, key);
    LookupThree(Block(WORKER_HEADER, PrintAll(StableSort(worker, ByKey(le)))),
                Block(UNSET_HEADER, PrintNames(StableSort(unset, leUnits))),
                Block(PRESERVED_HEADER, PrintAll(StableSort(preserved, ByKey(le)))), key);
  }

  lemma {:induction false} CarriedAfter(
    head: string, run: Run, existing: seq<Entry>, le: Order, leUnits: Order, key: string)
    requires EndsLine(head) && GoodRun(run) && GoodEntries(existing)
    requires key !in SETUP_MANAGED && MapGet(existing, key).Some?
    ensures
      LookupText(head + CarriedText(run.managed, existing, le, leUnits), key) ==
      Some(Reread(MapGet(existing, key).value))
  {
    CarriedLookup(run, existing, le, leUnits, key);
    LookupConcat(head, CarriedText(run.managed, existing, le, leUnits), key);
  }

  /** Every variable outside the setup's own parses back from the new file, with its value reread. */
  lemma {:induction false} CarriedOver(text: string, run: Run, le: Order, leUnits: Order, key: string)
    requires GoodRun(run) && key !in SETUP_MANAGED && LookupText(text, key).Some?
    ensures LookupText(Regenerate(text, run, le, leUnits), key) == Some(Reread(LookupText(text, key).value))
  {
    ParseIsGood(text);
    ParseGet(Split(text, '\n'), key);
    LinesEndLine(ConfigLines(run.config));
    CarriedAfter(ConfigText(run.config), run, Parse(text), le, leUnits, key);
  }

  /** What the setup manages is decided by the configuration alone: nothing of the old file shows through. */
  lemma {:induction false} ManagedIgnoresOldFile(text: string, run: Run, le: Order, leUnits: Order, key: string)
    requires GoodRun(run) && key in SETUP_MANAGED
    ensures LookupText(Regenerate(text, run, le, leUnits), key) == LookupText(ConfigText(run.config), key)
  {
    ParseIsGood(text);
    LinesEndLine(ConfigLines(run.config));
    ManagedAfter(ConfigText(run.config), run, Parse(text), le, leUnits, key);
  }

  lemma {:induction false} ManagedAfter(
    head: string, run: Run, existing: seq<Entry>, le: Order, leUnits: Order, key: string)
    requires EndsLine(head) && GoodRun(run) && GoodEntries(existing) && key in SETUP_MANAGED
    ensures LookupText(head + CarriedText(run.managed, existing, le, leUnits), key) == LookupText(head, key)
  {
    CarriedLookup(run, existing, le, leUnits, key);
    LookupConcat(head, CarriedText(run.managed, existing, le, leUnits), key);
  }

  /** For a variable the setup does not manage, an old value always wins over what the configuration prints. */
  lemma {:induction false} OldValueWins(text: string, run: Run, le: Order, leUnits: Order, key: string)
    requires GoodRun(run) && key !in SETUP_MANAGED
    ensures
      LookupText(Regenerate(text, run, le, leUnits), key) ==
      OrElse(RereadOption(LookupText(text, key)), LookupText(ConfigText(run.config), key))
  {
    ParseIsGood(text);
    ParseGet(Split(text, '\n'), key);
    LinesEndLine(ConfigLines(run.config));
    CarriedLookup(run, Parse(text), le, leUnits, key);
    LookupConcat(ConfigText(run.config), CarriedText(run.managed, Parse(text), le, leUnits), key);
  }

  /** A carried-over value survives the round trip exactly when it has no carriage return, U+2028 or U+2029. */
  lemma {:induction false} RoundTripIffClean(text: string, run: Run, le: Order, leUnits: Order, key: string)
    requires GoodRun(run) && key !in SETUP_MANAGED && LookupText(text, key).Some?
    ensures
      LookupText(Regenerate(text, run, le, leUnits), key) == LookupText(text, key) <==>
      Clean(LookupText(text, key).value)
  {
    CarriedOver(text, run, le, leUnits, key);
    var value := LookupText(text, key).value;
    assert |Quote(value)| == |value| + 2;
  }

  function Regenerations(text: string, runs: seq<Run>, le: Order, leUnits: Order): string {
    if runs == [] then text else Regenerate(Regenerations(text, Init(runs), le, leUnits), Last(runs), le, leUnits)
  }

  /** `n` pairs of quotes around the value. */
  function Layers(value: string, n: nat): string {
    if n == 0 then value else Quote(Layers(value, n - 1))
  }

  lemma {:induction false} LayersUnclean(value: string, n: nat)
    requires !Clean(value)
    ensures !Clean(Layers(value, n))
  {
    if n > 0 {
      LayersUnclean(value, n - 1);
      var c :| c in Layers(value, n - 1) && IsLineTerminator(c);
      assert c in Layers(value, n);
    }
  }

  /** After any number of regenerations a clean value is unchanged; any other has gained a pair of quotes each time. */
  lemma {:induction false} AfterRegenerations(text: string, runs: seq<Run>, le: Order, leUnits: Order, key: string)
    requires (forall run :: run in runs ==> GoodRun(run)) && key !in SETUP_MANAGED && LookupText(text, key).Some?
    ensures
      var value := LookupText(text, key).value;
      LookupText(Regenerations(text, runs, le, leUnits), key) ==
      Some(if Clean(value) then value else Layers(value, |runs|))
  {
    if runs != [] {
      AfterRegenerations(text, Init(runs), le, leUnits, key);
      CarriedOver(Regenerations(text, Init(runs), le, leUnits), Last(runs), le, leUnits, key);
      var value := LookupText(text, key).value;
      if !Clean(value) {
        LayersUnclean(value, |runs| - 1);
      }
    }
  }

  lemma {:induction false} CarriageReturnLine()
    ensures ParseLine("K=a\rb") == Some(("K", "a\rb"))
  {
    var line := "K=a\rb";
    TrimTrims(line);
    assert line[..1] == "K" && line[2..] == "a\rb";
    SplitAtFirst(line, 1, '=');
    SplitNoSeparator("a\rb", '=');
    TrimTrims("K");
    assert ["K", "a\rb"][1..] == ["a\rb"];
  }

  lemma {:induction false} CarriageReturnText()
    ensures LookupText("K=a\rb", "K") == Some("a\rb") && Reread("a\rb") == Quote("a\rb")
  {
    SplitNoSeparator("K=a\rb", '\n');
    LastValueOne("K=a\rb", "K");
    CarriageReturnLine();
    var value := "a\rb";
    assert value[1] in value && IsLineTerminator(value[1]);
    assert !Clean(value);
  }

  /** A value with a carriage return inside comes back in quotes. */
  lemma {:induction false} CarriageReturnGainsQuotes(text: string, run: Run, le: Order, leUnits: Order)
    requires GoodRun(run) && text == "K=a\rb"
    ensures LookupText(text, "K") == Some("a\rb")
    ensures LookupText(Regenerate(text, run, le, leUnits), "K") == Some(Quote("a\rb"))
  {
    CarriageReturnText();
    NotManaged();
    CarriedOver(text, run, le, leUnits, "K");
  }

  lemma {:induction false} NotManaged()
    ensures "K" !in SETUP_MANAGED
  {
  }
}
