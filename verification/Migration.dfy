/** The conversation migration: drop repeated messages, order by time, drop memos from long histories. */
module Migration {
  import opened Seqs
  import opened Sorting
  import opened Text

  /** `content` is the text, or the JSON dump of structured content. */
  datatype Message = Message(conversationId: Option<string>, role: Option<string>, content: string, structured: bool)

  const MIN_MESSAGES_FOR_CLEANUP := 25

  // --------------------------------------------------------------- timestamps

  /** The characters Python's `int` strips. */
  predicate IsPySpace(c: char) {
    var u := c as int;
    || 9 <= u <= 13 || 0x1C <= u <= 0x20 || u == 0x85 || u == 0xA0 || u == 0x1680 || 0x2000 <= u <= 0x200A
    || u == 0x2028 || u == 0x2029 || u == 0x202F || u == 0x205F || u == 0x3000
  }

  function StripStart(s: string): string {
    if s != [] && IsPySpace(s[0]) then StripStart(s[1..]) else s
  }

  function StripEnd(s: string): string {
    if s != [] && IsPySpace(s[|s| - 1]) then StripEnd(s[..|s| - 1]) else s
  }

  predicate AllDigits(s: string) {
    forall i :: 0 <= i < |s| ==> IsDigit(s[i])
  }

  /** `int(s)` for a string without a minus sign: a plus sign and single underscores between digits are allowed. */
  function PyInt(s: string): Option<nat> {
    var stripped := StripEnd(StripStart(s));
    var unsigned := if stripped != "" && stripped[0] == '+' then stripped[1..] else stripped;
    var groups := Split(unsigned, '_');
    var digits := Flatten(groups);
    if (forall g :: g in groups ==> g != "") && AllDigits(digits) then Some(Value(digits)) else None
  }

  /** The number in an id of the form `conv-{timestamp}-{random}`, zero for anything else. */
  function ExtractTimestamp(id: string): nat {
    if "conv-" <= id then
      var parts := Split(id, '-');
      if |parts| >= 2 then match PyInt(parts[1]) case None => 0 case Some(n) => n else 0
    else 0
  }

  lemma {:induction false} PyIntOfDecimal(n: nat)
    ensures PyInt(Decimal(n)) == Some(n)
  {
    var s := Decimal(n);
    assert forall c :: c in s ==> IsDigit(c);
    assert s[0] in s && s[|s| - 1] in s;
    assert StripStart(s) == s && StripEnd(s) == s;
    SplitNoSeparator(s, '_');
    var groups := [s];
    assert groups[1..] == [] && s + [] == s;
    assert Flatten(groups) == s;
    ValueOfDecimal(n);
  }

  /** Reading the timestamp of a generated id gives back the timestamp, whatever follows it. */
  lemma {:induction false} TimestampRoundTrip(n: nat, random: string)
    ensures ExtractTimestamp("conv-" + Decimal(n) + "-" + random) == n
  {
    var s := Decimal(n);
    var id := "conv-" + s + "-" + random;
    assert forall c :: c in s ==> IsDigit(c);
    assert id[4] == '-' && id[..4] == "conv" && id[5..] == s + "-" + random;
    SplitAtFirst(id, 4, '-');
    var rest := s + "-" + random;
    assert rest[|s|] == '-' && rest[..|s|] == s;
    SplitAtFirst(rest, |s|, '-');
    assert Split(id, '-')[1] == s;
    PyIntOfDecimal(n);
  }

  // --------------------------------------------------------- the specification

  predicate Contains(s: string, part: string) {
    part <= s || (s != "" && Contains(s[1..], part))
  }

  function IsMemo(): Message -> bool {
    (m: Message) => Contains(m.content, "**<Internal Memo>**") || Contains(m.content, "Project Updates:")
  }

  function IsReal(): Message -> bool {
    (m: Message) => !IsMemo()(m)
  }

  function IdOf(m: Message): string {
    if m.conversationId.Some? then m.conversationId.value else ""
  }

  /** The conversation id, or a key made of the role and the first hundred characters. */
  function Key(): Message -> string {
    (m: Message) =>
      if IdOf(m) != "" then IdOf(m)
      else
        (if m.role.Some? then m.role.value else "unknown") + "_" +
        (if |m.content| <= 100 then m.content else m.content[..100]) + "_0"
  }

  function TimeOf(m: Message): nat {
    ExtractTimestamp(IdOf(m))
  }

  function Earlier(): (Message, Message) -> bool {
    (a: Message, b: Message) => TimeOf(a) <= TimeOf(b)
  }

  /** The first message of each key. */
  function Unique(messages: seq<Message>): seq<Message> {
    DedupBy(messages, Key())
  }

  function WithoutMemos(messages: seq<Message>): seq<Message> {
    if |messages| > MIN_MESSAGES_FOR_CLEANUP then Filter(messages, IsReal()) else messages
  }

  function Migrate(messages: seq<Message>): seq<Message> {
    WithoutMemos(StableSort(Unique(messages), Earlier()))
  }

  datatype MigrationResult = MigrationResult(originalCount: nat, deduplicatedCount: nat, finalCount: nat,
                                             duplicatesRemoved: int, memosRemoved: nat, finalMessages: seq<Message>)

  /** The loop over `seen`. */
  method Deduplicate(messages: seq<Message>, key: Message -> string) returns (uniqueMessages: seq<Message>)
    ensures uniqueMessages == DedupBy(messages, key)
  {
    var seen: set<string> := {};
    uniqueMessages := [];
    for i := 0 to |messages|
      invariant uniqueMessages == DedupBy(messages[..i], key)
      invariant forall k :: k in seen <==> HasKey(messages[..i], key, k)
    {
      var message := messages[i];
      assert messages[..i + 1] == messages[..i] + [message];
      DedupByAppend(messages[..i], key, message);
      forall k ensures HasKey(messages[..i + 1], key, k) <==> HasKey(messages[..i], key, k) || key(message) == k {
        HasKeyAppend(messages[..i], key, message, k);
      }
      if key(message) !in seen {
        seen := seen + {key(message)};
        uniqueMessages := uniqueMessages + [message];
      }
    }
    assert messages[..|messages|] == messages;
  }

  /** The split into conversations and memos. */
  method SplitMemos(messages: seq<Message>, isReal: Message -> bool)
    returns (realConversations: seq<Message>, internalMemos: seq<Message>)
    ensures realConversations == Filter(messages, isReal)
    ensures |realConversations| + |internalMemos| == |messages|
  {
    realConversations, internalMemos := [], [];
    for i := 0 to |messages|
      invariant realConversations == Filter(messages[..i], isReal)
      invariant |realConversations| + |internalMemos| == i
    {
      assert messages[..i + 1] == messages[..i] + [messages[i]];
      FilterAppend(messages[..i], messages[i], isReal);
      if isReal(messages[i]) {
        realConversations := realConversations + [messages[i]];
      } else {
        internalMemos := internalMemos + [messages[i]];
      }
    }
    assert messages[..|messages|] == messages;
  }

  method ApplyMigrationAlgorithm(messages: seq<Message>) returns (r: MigrationResult)
    ensures r.finalMessages == Migrate(messages) && r.finalCount == |r.finalMessages|
    ensures r.originalCount == |messages| && r.deduplicatedCount == |Unique(messages)|
    ensures r.duplicatesRemoved >= 0
    ensures r.originalCount == r.finalCount + r.duplicatesRemoved + r.memosRemoved
  {
    var uniqueMessages := Deduplicate(messages, Key());
    DedupByKeys(messages, Key());
    var sorted := StableSort(uniqueMessages, Earlier());
    var finalMessages, memosRemoved := sorted, 0;
    if |sorted| > MIN_MESSAGES_FOR_CLEANUP {
      var realConversations, internalMemos := SplitMemos(sorted, IsReal());
      finalMessages, memosRemoved := realConversations, |internalMemos|;
    }
    r := MigrationResult(|messages|, |uniqueMessages|, |finalMessages|, |messages| - |uniqueMessages|, memosRemoved,
                         finalMessages);
  }

  // --------------------------------------------------------------------- laws

  lemma {:induction false} EarlierPreorder()
    ensures TotalPreorder(Earlier())
  {
  }

  /** The result is in time order and has no two messages with one key. */
  lemma {:induction false} MigrateSortedDistinct(messages: seq<Message>)
    ensures Sorted(Migrate(messages), Earlier()) && KeysDiffer(Migrate(messages), Key())
  {
    var unique := Unique(messages);
    var sorted := StableSort(unique, Earlier());
    DedupByKeys(messages, Key());
    EarlierPreorder();
    SortSorted(unique, Earlier());
    KeysDifferPermuted(unique, sorted, Key());
    FilterSorted(sorted, IsReal(), Earlier());
    KeysDifferFiltered(sorted, Key(), IsReal());
  }

  /** Migrating an already migrated history changes nothing. */
  lemma {:induction false} MigrateIdempotent(messages: seq<Message>)
    ensures Migrate(Migrate(messages)) == Migrate(messages)
  {
    var once := Migrate(messages);
    MigrateSortedDistinct(messages);
    DedupByDistinct(once, Key());
    EarlierPreorder();
    SortOfSorted(once, Earlier());
    if |StableSort(Unique(messages), Earlier())| > MIN_MESSAGES_FOR_CLEANUP {
      FilterAll(once, IsReal());
    }
  }

  /** A first occurrence is lost exactly when it is a memo of a long history; nothing else is kept. */
  lemma {:induction false} MigrateKeeps(messages: seq<Message>, m: Message)
    ensures
      m in Migrate(messages) <==>
      OccursFirst(messages, Key(), m) && (IsReal()(m) || |Unique(messages)| <= MIN_MESSAGES_FOR_CLEANUP)
  {
    DedupByIsFirsts(messages, Key(), m);
    SameElements(StableSort(Unique(messages), Earlier()), Unique(messages));
  }

  /** Messages of one time keep the order they came in, up to the memos that are dropped. */
  lemma {:induction false} MigrateStable(messages: seq<Message>, m: Message)
    ensures
      var ties := TiesWith(m, Earlier());
      Filter(Migrate(messages), ties) ==
      Filter(
        if |Unique(messages)| > MIN_MESSAGES_FOR_CLEANUP then Filter(Unique(messages), IsReal()) else Unique(messages),
        ties)
  {
    var ties := TiesWith(m, Earlier());
    var unique := Unique(messages);
    EarlierPreorder();
    SortStable(unique, m, Earlier());
    FilterCommutes(StableSort(unique, Earlier()), IsReal(), ties);
    FilterCommutes(unique, IsReal(), ties);
  }

  /** The part occurs somewhere in the text. */
  ghost predicate Occurs(s: string, part: string) {
    exists i :: 0 <= i <= |s| && part <= s[i..]
  }

  lemma {:induction false} ContainsIff(s: string, part: string)
    ensures Contains(s, part) <==> Occurs(s, part)
  {
    if part <= s {
      assert s[0..] == s;
    }
    if s != "" {
      ContainsIff(s[1..], part);
      if Contains(s[1..], part) {
        var i :| 0 <= i <= |s[1..]| && part <= s[1..][i..];
        assert s[1..][i..] == s[i + 1..];
      }
      if i :| 0 < i <= |s| && part <= s[i..] {
        assert s[1..][i - 1..] == s[i..];
      }
    }
  }

  /** Written out: a long history is one of more than 25 messages, and a memo carries one of two marks anywhere. */
  lemma {:induction false} MemosAreDropped(messages: seq<Message>, m: Message)
    ensures
      m in Migrate(messages) <==>
      && OccursFirst(messages, Key(), m)
      && (|Unique(messages)| <= 25 ||
          (!Occurs(m.content, "**<Internal Memo>**") && !Occurs(m.content, "Project Updates:")))
  {
    MigrateKeeps(messages, m);
    RealIff(m);
  }

  lemma {:induction false} RealIff(m: Message)
    ensures
      IsReal()(m) <==> !Occurs(m.content, "**<Internal Memo>**") && !Occurs(m.content, "Project Updates:")
  {
    ContainsIff(m.content, "**<Internal Memo>**");
    ContainsIff(m.content, "Project Updates:");
    assert IsMemo()(m) <==> Contains(m.content, "**<Internal Memo>**") || Contains(m.content, "Project Updates:");
  }

  predicate HasId(m: Message) {
    m.conversationId.Some? && m.conversationId.value != ""
  }

  /** Two messages with ids count as one exactly when the ids agree. */
  lemma {:induction false} IdsAreKeys(a: Message, b: Message)
    requires HasId(a) && HasId(b)
    ensures Key()(a) == Key()(b) <==> a.conversationId == b.conversationId
  {
  }

  /** Two messages of one role without ids count as one exactly when their first hundred characters agree. */
  lemma {:induction false} OpeningsAreKeys(a: Message, b: Message)
    requires !HasId(a) && !HasId(b) && a.role == b.role
    ensures
      var n, k := |a.content|, |b.content|;
      Key()(a) == Key()(b) <==>
      (if n <= 100 then a.content else a.content[..100]) == (if k <= 100 then b.content else b.content[..100])
  {
    var role := (if a.role.Some? then a.role.value else "unknown") + "_";
    var x := if |a.content| <= 100 then a.content else a.content[..100];
    var y := if |b.content| <= 100 then b.content else b.content[..100];
    if role + x + "_0" == role + y + "_0" {
      assert |role + x + "_0"| == |role| + |x| + 2 && |role + y + "_0"| == |role| + |y| + 2;
      assert (role + x + "_0")[|role|..|role| + |x|] == x;
      assert (role + y + "_0")[|role|..|role| + |y|] == y;
    }
  }

  /** The time of a message is the number between the first two dashes of a `conv-` id, zero if there is none. */
  lemma {:induction false} TimeIs(m: Message)
    ensures
      if HasId(m) && "conv-" <= m.conversationId.value then
        |Split(m.conversationId.value, '-')| >= 2 &&
        TimeOf(m) == (match PyInt(Split(m.conversationId.value, '-')[1]) case Some(n) => n case None => 0)
      else TimeOf(m) == 0
  {
    if HasId(m) && "conv-" <= m.conversationId.value {
      var id := m.conversationId.value;
      assert id[4] == '-' && id[..4] == "conv";
      SplitAtFirst(id, 4, '-');
    }
  }

  lemma {:induction false} StripPadding(a: string, s: string, b: string)
    requires (forall c :: c in a ==> IsPySpace(c)) && (forall c :: c in b ==> IsPySpace(c))
    requires s != "" && !IsPySpace(s[0]) && !IsPySpace(s[|s| - 1])
    ensures StripEnd(StripStart(a + s + b)) == s
  {
    if a == "" {
      assert a + s + b == s + b;
      StripTail(s, b);
    } else {
      assert (a + s + b)[1..] == a[1..] + s + b;
      StripPadding(a[1..], s, b);
    }
  }

  lemma {:induction false} StripTail(s: string, b: string)
    requires (forall c :: c in b ==> IsPySpace(c)) && s != "" && !IsPySpace(s[0]) && !IsPySpace(s[|s| - 1])
    ensures StripStart(s + b) == s + b && StripEnd(s + b) == s
  {
    if b == "" {
      assert s + b == s;
    } else {
      assert (s + b)[..|s + b| - 1] == s + b[..|b| - 1];
      StripTail(s, b[..|b| - 1]);
    }
  }

  lemma {:induction false} OneGroup(x: string)
    requires x != "" && AllDigits(x)
    ensures Split(x, '_') == [x] && Flatten([x]) == x
    ensures !IsPySpace(x[0]) && !IsPySpace(x[|x| - 1]) && x[0] != '+'
  {
    assert forall c :: c in x ==> IsDigit(c);
    assert x[0] in x && x[|x| - 1] in x;
    SplitNoSeparator(x, '_');
    assert [x][1..] == [] && x + [] == x;
  }

  lemma {:induction false} TwoGroups(x: string, y: string)
    requires x != "" && y != "" && AllDigits(x) && AllDigits(y)
    ensures Split(x + "_" + y, '_') == [x, y] && Flatten([x, y]) == x + y && AllDigits(x + y)
  {
    var joined := x + "_" + y;
    OneGroup(x);
    OneGroup(y);
    assert forall c :: c in x ==> IsDigit(c);
    assert joined[|x|] == '_' && joined[..|x|] == x && joined[|x| + 1..] == y;
    SplitAtFirst(joined, |x|, '_');
    assert [x] + [y] == [x, y] && [x, y][1..] == [y];
  }

  predicate IsPadding(s: string) {
    forall c :: c in s ==> IsPySpace(c)
  }

  /** White space around a numeral does not matter. */
  lemma {:induction false} PaddedReads(a: string, x: string, b: string)
    requires IsPadding(a) && IsPadding(b) && x != "" && AllDigits(x)
    ensures PyInt(a + x + b) == Some(Value(x))
  {
    OneGroup(x);
    StripPadding(a, x, b);
  }

  /** Nor does a plus sign before it. */
  lemma {:induction false} SignedReads(a: string, x: string, b: string)
    requires IsPadding(a) && IsPadding(b) && x != "" && AllDigits(x)
    ensures PyInt(a + ("+" + x) + b) == Some(Value(x))
  {
    OneGroup(x);
    var signed := "+" + x;
    assert signed[1..] == x && signed[|signed| - 1] == x[|x| - 1];
    StripPadding(a, signed, b);
  }

  /** Nor a single underscore between its digits. */
  lemma {:induction false} GroupedReads(a: string, x: string, y: string, b: string)
    requires IsPadding(a) && IsPadding(b) && x != "" && y != "" && AllDigits(x) && AllDigits(y)
    ensures PyInt(a + (x + "_" + y) + b) == Some(Value(x + y))
  {
    OneGroup(x);
    OneGroup(y);
    TwoGroups(x, y);
    var joined := x + "_" + y;
    assert joined[0] == x[0] && joined[|joined| - 1] == y[|y| - 1];
    StripPadding(a, joined, b);
  }

  /** Text that begins with a digit and ends in no white space has nothing to strip. */
  lemma {:induction false} NothingToStrip(s: string)
    requires s != "" && !IsPySpace(s[0]) && !IsPySpace(s[|s| - 1])
    ensures StripEnd(StripStart(s)) == s
  {
    StripPadding("", s, "");
    assert "" + s + "" == s;
  }

  lemma {:induction false} NoNumeral(s: string, k: nat)
    requires k < |s| && !IsDigit(s[k]) && s[0] != '+' && '_' !in s
    requires !IsPySpace(s[0]) && !IsPySpace(s[|s| - 1])
    ensures PyInt(s) == None
  {
    NothingToStrip(s);
    SplitNoSeparator(s, '_');
    assert [s][1..] == [] && s + [] == s && Flatten([s]) == s;
  }

  /** What is not of that form is no number: a letter anywhere spoils it. */
  lemma {:induction false} LetterSpoils(x: string, c: char, y: string)
    requires !IsDigit(c) && !IsPySpace(c) && c != '_' && c != '+'
    requires x != "" && AllDigits(x) && AllDigits(y)
    ensures PyInt(x + [c] + y) == None
  {
    var s := x + [c] + y;
    OneGroup(x);
    if y != "" {
      OneGroup(y);
    }
    assert forall d :: d in y ==> IsDigit(d);
    assert forall d :: d in x ==> IsDigit(d);
    assert s[0] == x[0] && s[|s| - 1] == (if y == "" then c else y[|y| - 1]) && s[|x|] == c;
    NoNumeral(s, |x|);
  }

  /** The white space Python strips begins with the tab and ends with the ideographic space. */
  lemma {:induction false} PySpaces()
    ensures
      IsPadding("\t\n\U{0b}\U{0c}\r\U{1c}\U{1d}\U{1e}\U{1f} \U{85}\U{a0}")
      && IsPadding("\U{1680}\U{2000}\U{200a}\U{2028}\U{2029}\U{202f}\U{205f}\U{3000}")
    ensures forall c :: '!' <= c <= '~' ==> !IsPySpace(c)
  {
  }
}
