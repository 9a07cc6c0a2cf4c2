/**
 The error table: occurrences of one error are folded into one row with a count. Every reachable table is exactly the
 tabulation of the occurrences stored since the last clear, so the summary's numbers count real occurrences.
 */
module ErrorStorage {
  import opened Seqs
  import opened Sorting
  import opened Text

  /** ISO timestamps compare as strings the way instants compare; they are instants here. */
  datatype SimpleError = SimpleError(timestamp: int, level: int, message: string, rawOutput: string)

  datatype Row = Row(id: nat, instanceId: string, processId: string, hash: string, timestamp: int, level: int,
                     message: string, rawOutput: string, count: nat, createdAt: int)

  /** One successful call of `storeError`, with the hash that identifies the error. */
  datatype Event = Event(instanceId: string, processId: string, hash: string, error: SimpleError)

  predicate SameKey(a: Row, b: Row) {
    a.instanceId == b.instanceId && a.hash == b.hash
  }

  function RowKey(instanceId: string, hash: string): Row -> bool {
    (r: Row) => r.instanceId == instanceId && r.hash == hash
  }

  function EventKey(instanceId: string, hash: string): Event -> bool {
    (e: Event) => e.instanceId == instanceId && e.hash == hash
  }

  // ------------------------------------------------------------- statements

  /** `WHERE error_hash = ? AND instance_id = ? ORDER BY timestamp DESC LIMIT 1`. */
  function Latest(rows: seq<Row>, instanceId: string, hash: string): (k: Option<nat>)
    ensures k.None? ==> forall r :: r in rows ==> !RowKey(instanceId, hash)(r)
    ensures k.Some? ==> k.value < |rows| && RowKey(instanceId, hash)(rows[k.value])
    ensures k.Some? ==> forall r :: r in rows && RowKey(instanceId, hash)(r) ==> r.timestamp <= rows[k.value].timestamp
  {
    if rows == [] then None
    else
      match Latest(rows[1..], instanceId, hash)
      case None => if RowKey(instanceId, hash)(rows[0]) then Some(0) else None
      case Some(k) =>
        if RowKey(instanceId, hash)(rows[0]) && rows[0].timestamp >= rows[k + 1].timestamp then Some(0) else Some(k + 1)
  }

  /** The update or insert of `storeError`. */
  function Store(rows: seq<Row>, e: Event, nextId: nat, now: int): seq<Row> {
    match Latest(rows, e.instanceId, e.hash)
    case Some(k) =>
      rows[k := rows[k].(count := rows[k].count + 1, timestamp := e.error.timestamp, rawOutput := e.error.rawOutput)]
    case None =>
      rows + [Row(nextId, e.instanceId, e.processId, e.hash, e.error.timestamp, e.error.level, e.error.message,
                  e.error.rawOutput, 1, now)]
  }

  function OfInstance(instanceId: string): Row -> bool {
    (r: Row) => r.instanceId == instanceId
  }

  function NotOfInstance(instanceId: string): Row -> bool {
    (r: Row) => r.instanceId != instanceId
  }

  function About(instanceId: string): Event -> bool {
    (e: Event) => e.instanceId == instanceId
  }

  function NotAbout(instanceId: string): Event -> bool {
    (e: Event) => e.instanceId != instanceId
  }

  // ------------------------------------------------------- what a table means

  ghost predicate KeysUnique(rows: seq<Row>) {
    forall i, j :: 0 <= i < j < |rows| ==> !SameKey(rows[i], rows[j])
  }

  /** The row folds exactly these occurrences: first one's identity, last one's time and output, as many as counted. */
  predicate Folds(r: Row, events: seq<Event>) {
    events != [] && r == Folded(r, events[0], Last(events).error, |events|)
  }

  function Folded(r: Row, first: Event, last: SimpleError, n: nat): Row {
    r.(count := n, processId := first.processId, level := first.error.level, message := first.error.message,
       timestamp := last.timestamp, rawOutput := last.rawOutput)
  }

  ghost predicate RowMeans(r: Row, history: seq<Event>) {
    Folds(r, Filter(history, EventKey(r.instanceId, r.hash)))
  }

  ghost predicate HasRow(rows: seq<Row>, e: Event) {
    exists r :: r in rows && RowKey(e.instanceId, e.hash)(r)
  }

  /** At most one row per instance and hash, each row folds its occurrences, and no occurrence is missing. */
  ghost predicate Tabulates(rows: seq<Row>, history: seq<Event>) {
    && KeysUnique(rows)
    && (forall r :: r in rows ==> RowMeans(r, history))
    && forall e :: e in history ==> HasRow(rows, e)
  }

  /** When keys are unique, "the latest" row of a key is the only one. */
  lemma {:induction false} LatestIsOnly(rows: seq<Row>, instanceId: string, hash: string, k: nat)
    requires KeysUnique(rows) && Latest(rows, instanceId, hash) == Some(k)
    ensures forall i :: 0 <= i < |rows| && RowKey(instanceId, hash)(rows[i]) ==> i == k
  {
  }

  lemma {:induction false} OtherRowKeeps(r: Row, history: seq<Event>, e: Event)
    requires RowMeans(r, history) && !RowKey(e.instanceId, e.hash)(r)
    ensures RowMeans(r, history + [e])
  {
    FilterAppend(history, e, EventKey(r.instanceId, r.hash));
    assert Filter(history, EventKey(r.instanceId, r.hash)) + [] == Filter(history, EventKey(r.instanceId, r.hash));
  }

  lemma {:induction false} UpdatedRow(r: Row, history: seq<Event>, e: Event)
    requires RowMeans(r, history) && RowKey(e.instanceId, e.hash)(r)
    ensures
      var updated := r.(count := r.count + 1, timestamp := e.error.timestamp, rawOutput := e.error.rawOutput);
      RowMeans(updated, history + [e])
  {
    FilterAppend(history, e, EventKey(r.instanceId, r.hash));
  }

  lemma {:induction false} StoreUpdates(rows: seq<Row>, history: seq<Event>, e: Event, k: nat, nextId: nat, now: int)
    requires Tabulates(rows, history) && Latest(rows, e.instanceId, e.hash) == Some(k)
    ensures Tabulates(Store(rows, e, nextId, now), history + [e])
  {
    var next := Store(rows, e, nextId, now);
    LatestIsOnly(rows, e.instanceId, e.hash, k);
    forall i | 0 <= i < |next| ensures RowMeans(next[i], history + [e]) {
      assert RowMeans(rows[i], history);
      if i == k {
        UpdatedRow(rows[k], history, e);
      } else {
        OtherRowKeeps(rows[i], history, e);
      }
    }
    forall i, j | 0 <= i < j < |next| ensures !SameKey(next[i], next[j]) {
      assert !SameKey(rows[i], rows[j]);
    }
    forall f | f in history + [e] ensures HasRow(next, f) {
      if f in history {
        assert HasRow(rows, f);
        var i :| 0 <= i < |rows| && RowKey(f.instanceId, f.hash)(rows[i]);
        assert next[i] in next;
      } else {
        assert next[k] in next;
      }
    }
  }

  lemma {:induction false} NewKey(rows: seq<Row>, history: seq<Event>, e: Event)
    requires Tabulates(rows, history) && Latest(rows, e.instanceId, e.hash) == None
    ensures Filter(history + [e], EventKey(e.instanceId, e.hash)) == [e]
  {
    forall f | f in history ensures !EventKey(e.instanceId, e.hash)(f) {
      assert HasRow(rows, f);
    }
    FilterNone(history, EventKey(e.instanceId, e.hash));
    FilterAppend(history, e, EventKey(e.instanceId, e.hash));
  }

  lemma {:induction false} AppendKeepsUnique(rows: seq<Row>, r: Row)
    requires KeysUnique(rows) && forall q :: q in rows ==> !SameKey(q, r)
    ensures KeysUnique(rows + [r])
  {
  }

  lemma {:induction false} StoreInserts(rows: seq<Row>, history: seq<Event>, e: Event, nextId: nat, now: int)
    requires Tabulates(rows, history) && Latest(rows, e.instanceId, e.hash) == None
    ensures Tabulates(Store(rows, e, nextId, now), history + [e])
  {
    var next := Store(rows, e, nextId, now);
    NewKey(rows, history, e);
    AppendKeepsUnique(rows, next[|rows|]);
    forall r | r in next ensures RowMeans(r, history + [e]) {
      if r in rows {
        OtherRowKeeps(r, history, e);
      }
    }
    forall f | f in history + [e] ensures HasRow(next, f) {
      if f in history {
        assert HasRow(rows, f);
        var r :| r in rows && RowKey(f.instanceId, f.hash)(r);
        assert r in next;
      } else {
        assert next[|rows|] in next;
      }
    }
  }

  lemma {:induction false} StoreTabulates(rows: seq<Row>, history: seq<Event>, e: Event, nextId: nat, now: int)
    requires Tabulates(rows, history)
    ensures Tabulates(Store(rows, e, nextId, now), history + [e])
  {
    match Latest(rows, e.instanceId, e.hash)
    case Some(k) => StoreUpdates(rows, history, e, k, nextId, now);
    case None => StoreInserts(rows, history, e, nextId, now);
  }

  lemma {:induction false} FilterKeepsUnique(rows: seq<Row>, p: Row -> bool)
    requires KeysUnique(rows)
    ensures KeysUnique(Filter(rows, p))
  {
    if rows != [] {
      FilterKeepsUnique(rows[1..], p);
      forall r | r in rows[1..] ensures !SameKey(rows[0], r) {
        var j :| 0 <= j < |rows[1..]| && rows[1..][j] == r;
        assert rows[j + 1] == r;
      }
    }
  }

  lemma {:induction false} ClearTabulates(rows: seq<Row>, history: seq<Event>, instanceId: string)
    requires Tabulates(rows, history)
    ensures Tabulates(Filter(rows, NotOfInstance(instanceId)), Filter(history, NotAbout(instanceId)))
  {
    var next, left := Filter(rows, NotOfInstance(instanceId)), Filter(history, NotAbout(instanceId));
    FilterKeepsUnique(rows, NotOfInstance(instanceId));
    forall r | r in next ensures RowMeans(r, left) {
      assert RowMeans(r, history);
      FilterTwice(history, NotAbout(instanceId), EventKey(r.instanceId, r.hash));
    }
    forall e | e in left ensures HasRow(next, e) {
      assert HasRow(rows, e);
      var r :| r in rows && RowKey(e.instanceId, e.hash)(r);
      assert r in next;
    }
  }

  // ------------------------------------------------------------ whole runs

  datatype Op =
    | StoreOp(event: Event, now: int, succeeds: bool)
    | ClearOp(instanceId: string)

  /** The table after the operations; a statement that throws changes nothing, and row ids only grow. */
  function Table(ops: seq<Op>): (seq<Row>, nat) {
    if ops == [] then ([], 1)
    else
      var (rows, nextId) := Table(Init(ops));
      match Last(ops)
      case StoreOp(e, now, ok) =>
        if !ok then (rows, nextId)
        else (Store(rows, e, nextId, now), if Latest(rows, e.instanceId, e.hash).None? then nextId + 1 else nextId)
      case ClearOp(i) => (Filter(rows, NotOfInstance(i)), nextId)
  }

  /** The successful stores that no clear has removed. */
  function History(ops: seq<Op>): seq<Event> {
    if ops == [] then []
    else
      match Last(ops)
      case StoreOp(e, _, ok) => if ok then History(Init(ops)) + [e] else History(Init(ops))
      case ClearOp(i) => Filter(History(Init(ops)), NotAbout(i))
  }

  /** After any run from an empty table, the rows tabulate the history. */
  lemma {:induction false} RunTabulates(ops: seq<Op>)
    ensures Tabulates(Table(ops).0, History(ops))
  {
    if ops != [] {
      RunTabulates(Init(ops));
      var (rows, nextId) := Table(Init(ops));
      match Last(ops) {
        case StoreOp(e, now, ok) => StoreTabulates(rows, History(Init(ops)), e, nextId, now);
        case ClearOp(i) => ClearTabulates(rows, History(Init(ops)), i);
      }
    }
  }

  // --------------------------------------------------- the grouping query

  function TotalCount(rows: seq<Row>): nat {
    if rows == [] then 0 else rows[0].count + TotalCount(rows[1..])
  }

  /** `e` is the GROUP BY row of `group`; SQL leaves open which row the bare columns come from. */
  ghost predicate Summarises(e: Row, group: seq<Row>) {
    && e.count == TotalCount(group)
    && (exists r :: r in group &&
          (r.instanceId, r.processId, r.level, r.message) == (e.instanceId, e.processId, e.level, e.message))
    && (exists r :: r in group && r.id == e.id) && (forall r :: r in group ==> r.id <= e.id)
    && (exists r :: r in group && r.timestamp == e.timestamp) && (forall r :: r in group ==> r.timestamp <= e.timestamp)
    && (exists r :: r in group && r.createdAt == e.createdAt) && (forall r :: r in group ==> e.createdAt <= r.createdAt)
    && (exists r :: r in group && r.rawOutput == e.rawOutput)
  }

  ghost predicate HashIn(answer: seq<Row>, hash: string) {
    exists e :: e in answer && e.hash == hash
  }

  /** Any answer the database may give to the deduplicating query: one row per hash, latest first. */
  ghost predicate IsAnswer(rows: seq<Row>, instanceId: string, answer: seq<Row>) {
    && (forall i, j :: 0 <= i < j < |answer| ==>
          answer[i].hash != answer[j].hash && answer[i].timestamp >= answer[j].timestamp)
    && (forall e :: e in answer ==> Summarises(e, Filter(rows, RowKey(instanceId, e.hash))))
    && forall r :: r in rows && r.instanceId == instanceId ==> HashIn(answer, r.hash)
  }

  ghost function Among(instanceId: string, answer: seq<Row>): Row -> bool {
    (r: Row) => r.instanceId == instanceId && HashIn(answer, r.hash)
  }

  lemma {:induction false} TotalSplit(s: seq<Row>, p: Row -> bool, q: Row -> bool, r: Row -> bool)
    requires forall x :: x in s ==> (p(x) <==> q(x) || r(x)) && !(q(x) && r(x))
    ensures TotalCount(Filter(s, p)) == TotalCount(Filter(s, q)) + TotalCount(Filter(s, r))
  {
    if s != [] {
      TotalSplit(s[1..], p, q, r);
      TotalFilterStep(s, p);
      TotalFilterStep(s, q);
      TotalFilterStep(s, r);
    }
  }

  lemma {:induction false} TotalFilterStep(s: seq<Row>, p: Row -> bool)
    requires s != []
    ensures TotalCount(Filter(s, p)) == (if p(s[0]) then s[0].count else 0) + TotalCount(Filter(s[1..], p))
  {
    var rest := Filter(s[1..], p);
    if p(s[0]) {
      assert ([s[0]] + rest)[1..] == rest;
    } else {
      assert [] + rest == rest;
    }
  }

  lemma {:induction false} AnswerTotals(rows: seq<Row>, instanceId: string, answer: seq<Row>)
    requires forall i, j :: 0 <= i < j < |answer| ==> answer[i].hash != answer[j].hash
    requires forall e :: e in answer ==> e.count == TotalCount(Filter(rows, RowKey(instanceId, e.hash)))
    ensures TotalCount(answer) == TotalCount(Filter(rows, Among(instanceId, answer)))
  {
    if answer == [] {
      FilterNone(rows, Among(instanceId, answer));
    } else {
      AnswerTotals(rows, instanceId, answer[1..]);
      var first := RowKey(instanceId, answer[0].hash);
      forall r | r in rows
        ensures (Among(instanceId, answer)(r) <==> first(r) || Among(instanceId, answer[1..])(r))
        ensures !(first(r) && Among(instanceId, answer[1..])(r))
      {
        assert answer == [answer[0]] + answer[1..];
      }
      TotalSplit(rows, Among(instanceId, answer), first, Among(instanceId, answer[1..]));
    }
  }

  /** Whatever the rows and whatever answer the database picks, grouping loses no occurrence. */
  lemma {:induction false} GroupingConserves(rows: seq<Row>, instanceId: string, answer: seq<Row>)
    requires IsAnswer(rows, instanceId, answer)
    ensures TotalCount(answer) == TotalCount(Filter(rows, OfInstance(instanceId)))
  {
    AnswerTotals(rows, instanceId, answer);
    FilterSame(rows, Among(instanceId, answer), OfInstance(instanceId));
  }

  lemma {:induction false} OnlyRow(rows: seq<Row>, k: nat)
    requires KeysUnique(rows) && k < |rows|
    ensures Filter(rows, RowKey(rows[k].instanceId, rows[k].hash)) == [rows[k]]
  {
    var p := RowKey(rows[k].instanceId, rows[k].hash);
    assert rows == rows[..k] + ([rows[k]] + rows[k + 1..]);
    forall r | r in rows[..k] ensures !p(r) {
      var i :| 0 <= i < k && rows[i] == r;
      assert !SameKey(rows[i], rows[k]);
    }
    forall r | r in rows[k + 1..] ensures !p(r) {
      var i :| 0 <= i < |rows| - k - 1 && rows[k + 1..][i] == r;
      assert !SameKey(rows[k], rows[k + 1 + i]);
    }
    FilterNone(rows[..k], p);
    FilterNone(rows[k + 1..], p);
    FilterConcat(rows[..k], [rows[k]] + rows[k + 1..], p);
    FilterConcat([rows[k]], rows[k + 1..], p);
    FilterAll([rows[k]], p);
  }

  lemma {:induction false} SummaryOfOne(e: Row, r: Row)
    requires Summarises(e, [r]) && e.hash == r.hash
    ensures e == r
  {
    var one := [r];
    assert one[1..] == [];
    assert TotalCount(one) == r.count;
    assert forall x :: x in one ==> x == r;
    assert e.processId == r.processId && e.level == r.level && e.message == r.message && e.instanceId == r.instanceId;
    assert e.id == r.id && e.timestamp == r.timestamp && e.createdAt == r.createdAt && e.rawOutput == r.rawOutput;
  }

  lemma {:induction false} AnswerRow(rows: seq<Row>, instanceId: string, answer: seq<Row>, e: Row)
    requires KeysUnique(rows) && IsAnswer(rows, instanceId, answer) && e in answer
    ensures e in rows && e.instanceId == instanceId
  {
    var group := Filter(rows, RowKey(instanceId, e.hash));
    var r :| r in group;
    var k :| 0 <= k < |rows| && rows[k] == r;
    OnlyRow(rows, k);
    SummaryOfOne(e, r);
  }

  lemma {:induction false} UniqueNoDuplicates(rows: seq<Row>)
    requires KeysUnique(rows)
    ensures NoDuplicates(rows)
  {
  }

  /** On a table with unique keys the grouping query only reorders the rows of the instance. */
  lemma {:induction false} GroupingIsIdentity(rows: seq<Row>, instanceId: string, answer: seq<Row>)
    requires KeysUnique(rows) && IsAnswer(rows, instanceId, answer)
    ensures multiset(answer) == multiset(Filter(rows, OfInstance(instanceId)))
  {
    var mine := Filter(rows, OfInstance(instanceId));
    FilterKeepsUnique(rows, OfInstance(instanceId));
    UniqueNoDuplicates(mine);
    forall r ensures r in answer <==> r in mine {
      if r in answer {
        AnswerRow(rows, instanceId, answer, r);
      }
      if r in mine {
        assert HashIn(answer, r.hash);
        var e :| e in answer && e.hash == r.hash;
        AnswerRow(rows, instanceId, answer, e);
        OneRowPerKey(rows, e, r);
      }
    }
    SameMembers(answer, mine);
  }

  lemma {:induction false} OneRowPerKey(rows: seq<Row>, a: Row, b: Row)
    requires KeysUnique(rows) && a in rows && b in rows && SameKey(a, b)
    ensures a == b
  {
  }

  function LatestFirst(): (Row, Row) -> bool {
    (a: Row, b: Row) => a.timestamp >= b.timestamp
  }

  lemma {:induction false} OneSummarisesItself(r: Row)
    ensures Summarises(r, [r])
  {
  }

  lemma {:induction false} RowsInOrder(rows: seq<Row>, answer: seq<Row>, instanceId: string)
    requires KeysUnique(rows) && NoDuplicates(answer) && Sorted(answer, LatestFirst())
    requires forall r :: r in answer ==> r in rows && r.instanceId == instanceId
    ensures forall i, j :: 0 <= i < j < |answer| ==>
              answer[i].hash != answer[j].hash && answer[i].timestamp >= answer[j].timestamp
  {
  }

  lemma {:induction false} AllSummarised(rows: seq<Row>, answer: seq<Row>, instanceId: string)
    requires KeysUnique(rows)
    requires forall r :: r in answer ==> r in rows && r.instanceId == instanceId
    ensures forall e :: e in answer ==> Summarises(e, Filter(rows, RowKey(instanceId, e.hash)))
  {
    forall e | e in answer ensures Summarises(e, Filter(rows, RowKey(instanceId, e.hash))) {
      var k :| 0 <= k < |rows| && rows[k] == e;
      OnlyRow(rows, k);
      OneSummarisesItself(e);
    }
  }

  /** Conversely, the rows of the instance sorted latest first are an answer. */
  lemma {:induction false} SortedRowsAnswer(rows: seq<Row>, instanceId: string)
    requires KeysUnique(rows)
    ensures IsAnswer(rows, instanceId, StableSort(Filter(rows, OfInstance(instanceId)), LatestFirst()))
  {
    var mine := Filter(rows, OfInstance(instanceId));
    FilterKeepsUnique(rows, OfInstance(instanceId));
    UniqueNoDuplicates(mine);
    SortNoDuplicates(mine, LatestFirst());
    SortSorted(mine, LatestFirst());
    OrderedRowsAnswer(rows, instanceId, StableSort(mine, LatestFirst()));
  }

  lemma {:induction false} OrderedRowsAnswer(rows: seq<Row>, instanceId: string, answer: seq<Row>)
    requires KeysUnique(rows) && NoDuplicates(answer) && Sorted(answer, LatestFirst())
    requires multiset(answer) == multiset(Filter(rows, OfInstance(instanceId)))
    ensures IsAnswer(rows, instanceId, answer)
  {
    SameElements(answer, Filter(rows, OfInstance(instanceId)));
    AllSummarised(rows, answer, instanceId);
    RowsInOrder(rows, answer, instanceId);
    forall r | r in rows && r.instanceId == instanceId ensures HashIn(answer, r.hash) {
      assert r in answer;
    }
  }

  // ----------------------------------------- counts are counts of occurrences

  ghost function KeyAmong(rows: seq<Row>): Event -> bool {
    (e: Event) => HasRow(rows, e)
  }

  lemma {:induction false} CountSplit<T>(s: seq<T>, p: T -> bool, q: T -> bool, r: T -> bool)
    requires forall x :: x in s ==> (p(x) <==> q(x) || r(x)) && !(q(x) && r(x))
    ensures |Filter(s, p)| == |Filter(s, q)| + |Filter(s, r)|
  {
    FilterSplit(s, p, q, r);
    assert |multiset(Filter(s, p))| == |Filter(s, p)|;
    assert |multiset(Filter(s, q)) + multiset(Filter(s, r))| == |Filter(s, q)| + |Filter(s, r)|;
  }

  lemma {:induction false} KeyAmongStep(rows: seq<Row>, e: Event)
    requires rows != [] && KeysUnique(rows)
    ensures HasRow(rows, e) <==> EventKey(rows[0].instanceId, rows[0].hash)(e) || HasRow(rows[1..], e)
    ensures !(EventKey(rows[0].instanceId, rows[0].hash)(e) && HasRow(rows[1..], e))
  {
    if HasRow(rows[1..], e) {
      var j :| 0 <= j < |rows[1..]| && RowKey(e.instanceId, e.hash)(rows[1..][j]);
      assert rows[j + 1] in rows;
      assert !SameKey(rows[0], rows[j + 1]);
    }
    if HasRow(rows, e) {
      var i :| 0 <= i < |rows| && RowKey(e.instanceId, e.hash)(rows[i]);
      assert i > 0 ==> rows[1..][i - 1] == rows[i];
    }
    if EventKey(rows[0].instanceId, rows[0].hash)(e) {
      assert rows[0] in rows;
    }
  }

  lemma {:induction false} CountsAreOccurrences(rows: seq<Row>, history: seq<Event>)
    requires KeysUnique(rows) && forall r :: r in rows ==> RowMeans(r, history)
    ensures TotalCount(rows) == |Filter(history, KeyAmong(rows))|
  {
    if rows == [] {
      FilterNone(history, KeyAmong(rows));
    } else {
      FilterKeepsUniqueTail(rows);
      CountsAreOccurrences(rows[1..], history);
      var first := EventKey(rows[0].instanceId, rows[0].hash);
      forall e | e in history
        ensures (KeyAmong(rows)(e) <==> first(e) || KeyAmong(rows[1..])(e)) && !(first(e) && KeyAmong(rows[1..])(e))
      {
        KeyAmongStep(rows, e);
      }
      CountSplit(history, KeyAmong(rows), first, KeyAmong(rows[1..]));
      assert RowMeans(rows[0], history);
    }
  }

  lemma {:induction false} FilterKeepsUniqueTail(rows: seq<Row>)
    requires rows != [] && KeysUnique(rows)
    ensures KeysUnique(rows[1..])
  {
  }

  /** The counts of an instance add up to the successful stores since its last clear. */
  lemma {:induction false} InstanceTotal(rows: seq<Row>, history: seq<Event>, instanceId: string)
    requires Tabulates(rows, history)
    ensures TotalCount(Filter(rows, OfInstance(instanceId))) == |Filter(history, About(instanceId))|
  {
    var mine := Filter(rows, OfInstance(instanceId));
    FilterKeepsUnique(rows, OfInstance(instanceId));
    CountsAreOccurrences(mine, history);
    forall e | e in history ensures KeyAmong(mine)(e) <==> About(instanceId)(e) {
      assert HasRow(rows, e);
      var r :| r in rows && RowKey(e.instanceId, e.hash)(r);
      if About(instanceId)(e) {
        assert r in mine;
      }
    }
    FilterSame(history, KeyAmong(mine), About(instanceId));
  }

  // ----------------------------------------------------------- the summary

  datatype Summary = Summary(totalErrors: nat, uniqueErrors: nat, repeatedErrors: int, errorsByLevel: map<int, nat>,
                             latestError: Option<int>, oldestError: Option<int>)

  function AtLevel(level: int): Row -> bool {
    (r: Row) => r.level == level
  }

  function HashesOf(rows: seq<Row>): set<string> {
    set r | r in rows :: r.hash
  }

  /** What `byLevel` holds for a level, where a missing key reads as zero. */
  function CountAt(byLevel: map<int, nat>, level: int): nat {
    if level in byLevel then byLevel[level] else 0
  }

  /** The sum of what the map holds for the listed levels. */
  function SumLevels(byLevel: map<int, nat>, levels: seq<int>): nat {
    if levels == [] then 0 else CountAt(byLevel, levels[0]) + SumLevels(byLevel, levels[1..])
  }

  function LevelIn(levels: seq<int>): Row -> bool {
    (r: Row) => r.level in levels
  }

  lemma {:induction false} LevelsAddUp(byLevel: map<int, nat>, rows: seq<Row>, levels: seq<int>)
    requires LevelsMatch(byLevel, rows) && NoDuplicates(levels)
    ensures SumLevels(byLevel, levels) == TotalCount(Filter(rows, LevelIn(levels)))
  {
    if levels == [] {
      FilterNone(rows, LevelIn(levels));
    } else {
      LevelsAddUp(byLevel, rows, levels[1..]);
      assert levels == [levels[0]] + levels[1..];
      TotalSplit(rows, LevelIn(levels), AtLevel(levels[0]), LevelIn(levels[1..]));
      assert CountAt(byLevel, levels[0]) == TotalCount(Filter(rows, AtLevel(levels[0])));
    }
  }

  /** `levels` lists the keys of the map, each once. */
  ghost predicate Lists(levels: seq<int>, byLevel: map<int, nat>) {
    NoDuplicates(levels) && forall level :: level in levels <==> level in byLevel
  }

  /** In whatever order the levels are listed, their counts add up to the total. */
  lemma {:induction false} LevelsSumToTotal(byLevel: map<int, nat>, rows: seq<Row>, levels: seq<int>)
    requires LevelsMatch(byLevel, rows) && Lists(levels, byLevel)
    requires forall r :: r in rows ==> r.level in byLevel
    ensures SumLevels(byLevel, levels) == TotalCount(rows)
  {
    LevelsAddUp(byLevel, rows, levels);
    FilterAll(rows, LevelIn(levels));
  }

  lemma {:induction false} TotalAppend(rows: seq<Row>, r: Row)
    ensures TotalCount(rows + [r]) == TotalCount(rows) + r.count
  {
    if rows == [] {
      assert rows + [r] == [r];
    } else {
      assert (rows + [r])[1..] == rows[1..] + [r];
      TotalAppend(rows[1..], r);
    }
  }

  lemma {:induction false} LevelAppend(rows: seq<Row>, r: Row, level: int)
    ensures
      TotalCount(Filter(rows + [r], AtLevel(level))) ==
      TotalCount(Filter(rows, AtLevel(level))) + if r.level == level then r.count else 0
  {
    FilterAppend(rows, r, AtLevel(level));
    var part := Filter(rows, AtLevel(level));
    if r.level == level {
      TotalAppend(part, r);
    } else {
      assert part + [] == part;
    }
  }

  ghost predicate LevelsMatch(byLevel: map<int, nat>, rows: seq<Row>) {
    forall level :: CountAt(byLevel, level) == TotalCount(Filter(rows, AtLevel(level)))
  }

  lemma {:induction false} LevelsMatchNext(byLevel: map<int, nat>, rows: seq<Row>, r: Row)
    requires LevelsMatch(byLevel, rows)
    ensures LevelsMatch(byLevel[r.level := CountAt(byLevel, r.level) + r.count], rows + [r])
  {
    var next := byLevel[r.level := CountAt(byLevel, r.level) + r.count];
    forall level ensures CountAt(next, level) == TotalCount(Filter(rows + [r], AtLevel(level))) {
      LevelAppend(rows, r, level);
      assert CountAt(byLevel, level) == TotalCount(Filter(rows, AtLevel(level)));
    }
  }

  /** The loop's variables after it has seen `rows`. */
  ghost predicate Tallied(total: nat, byLevel: map<int, nat>, hashes: set<string>, rows: seq<Row>) {
    && total == TotalCount(rows)
    && LevelsMatch(byLevel, rows) && (forall r :: r in rows ==> r.level in byLevel)
    && hashes == HashesOf(rows)
  }

  lemma {:induction false} TalliedNext(total: nat, byLevel: map<int, nat>, hashes: set<string>, rows: seq<Row>, r: Row)
    requires Tallied(total, byLevel, hashes, rows)
    ensures
      var more := byLevel[r.level := CountAt(byLevel, r.level) + r.count];
      Tallied(total + r.count, more, hashes + {r.hash}, rows + [r])
  {
    TotalAppend(rows, r);
    LevelsMatchNext(byLevel, rows, r);
  }

  /** The loop of `getErrorSummary` over the answer of the query. */
  method Summarise(errors: seq<Row>) returns (s: Summary)
    ensures Tallied(s.totalErrors, s.errorsByLevel, HashesOf(errors), errors)
    ensures forall levels :: Lists(levels, s.errorsByLevel) ==> SumLevels(s.errorsByLevel, levels) == s.totalErrors
    ensures s.uniqueErrors == |HashesOf(errors)| && s.repeatedErrors == s.totalErrors - |errors|
    ensures s.latestError == if errors == [] then None else Some(errors[0].timestamp)
    ensures s.oldestError == if errors == [] then None else Some(Last(errors).timestamp)
  {
    if |errors| == 0 {
      s := Summary(0, 0, 0, map[], None, None);
      forall levels | Lists(levels, s.errorsByLevel) ensures SumLevels(s.errorsByLevel, levels) == 0 {
        LevelsSumToTotal(s.errorsByLevel, errors, levels);
      }
      return;
    }
    var errorsByLevel: map<int, nat> := map[];
    var uniqueHashes: set<string> := {};
    var totalOccurrences: nat := 0;
    for i := 0 to |errors|
      invariant Tallied(totalOccurrences, errorsByLevel, uniqueHashes, errors[..i])
    {
      var error := errors[i];
      assert errors[..i + 1] == errors[..i] + [error];
      TalliedNext(totalOccurrences, errorsByLevel, uniqueHashes, errors[..i], error);
      errorsByLevel := errorsByLevel[error.level := CountAt(errorsByLevel, error.level) + error.count];
      uniqueHashes := uniqueHashes + {error.hash};
      totalOccurrences := totalOccurrences + error.count;
    }
    assert errors[..|errors|] == errors;
    forall levels | Lists(levels, errorsByLevel) ensures SumLevels(errorsByLevel, levels) == totalOccurrences {
      LevelsSumToTotal(errorsByLevel, errors, levels);
    }
    s := Summary(totalOccurrences, |uniqueHashes|, totalOccurrences - |errors|, errorsByLevel,
                 Some(errors[0].timestamp), Some(errors[|errors| - 1].timestamp));
  }

  // ------------------------------------------------------------- the store

  class Storage {
    var rows: seq<Row>
    var nextId: nat
    /** The successful stores that no clear has removed. */
    ghost var history: seq<Event>

    ghost predicate Valid()
      reads this
    {
      Tabulates(rows, history)
    }

    constructor ()
      ensures Valid() && rows == [] && history == []
    {
      rows, nextId, history := [], 1, [];
    }

    /** Looks the key up, then updates its row or inserts one. */
    method Write(e: Event, now: int)
      modifies `rows, `nextId
      ensures rows == Store(old(rows), e, old(nextId), now)
      ensures nextId == if |rows| > |old(rows)| then old(nextId) + 1 else old(nextId)
    {
      var existing := Latest(rows, e.instanceId, e.hash);
      match existing {
        case Some(k) =>
          rows := rows[k := rows[k].(count := rows[k].count + 1, timestamp := e.error.timestamp,
                                     rawOutput := e.error.rawOutput)];
        case None =>
          rows := rows + [Row(nextId, e.instanceId, e.processId, e.hash, e.error.timestamp, e.error.level,
                              e.error.message, e.error.rawOutput, 1, now)];
          nextId := nextId + 1;
      }
    }

    /** One attempt; `succeeds` says whether the statements run or throw. */
    method StoreOnce(e: Event, now: int, succeeds: bool) returns (ok: bool)
      requires Valid()
      modifies this
      ensures Valid() && ok == succeeds
      ensures history == if ok then old(history) + [e] else old(history)
      ensures rows == if ok then Store(old(rows), e, old(nextId), now) else old(rows)
      ensures !ok ==> nextId == old(nextId)
    {
      if !succeeds {
        return false;
      }
      StoreTabulates(rows, history, e, nextId, now);
      Write(e, now);
      history := history + [e];
      ok := true;
    }

    /** Up to three attempts, stopping at the first success: an occurrence is counted once or not at all. */
    method StoreError(e: Event, now: int, outcomes: nat -> bool) returns (ok: bool)
      requires Valid()
      modifies this
      ensures Valid()
      ensures ok <==> outcomes(0) || outcomes(1) || outcomes(2)
      ensures history == if ok then old(history) + [e] else old(history)
      ensures rows == if ok then Store(old(rows), e, old(nextId), now) else old(rows)
    {
      ghost var before, stored, more := rows, Store(rows, e, nextId, now), history + [e];
      var maxRetries, attempt := 3, 0;
      ok := StoreOnce(e, now, outcomes(0));
      while !ok && attempt < maxRetries - 1
        invariant 0 <= attempt <= 2 && Valid()
        invariant ok == outcomes(attempt)
        invariant (attempt > 0 ==> !outcomes(0)) && (attempt > 1 ==> !outcomes(1))
        invariant ok ==> history == more && rows == stored
        invariant !ok ==> history == old(history) && rows == before && nextId == old(nextId)
        decreases maxRetries - attempt
      {
        attempt := attempt + 1;
        ok := StoreOnce(e, now, outcomes(attempt));
      }
    }

    /** Clearing reports the number of rows it deletes and leaves the other instances alone. */
    method ClearErrors(instanceId: string) returns (clearedCount: nat)
      requires Valid()
      modifies this
      ensures Valid() && history == Filter(old(history), NotAbout(instanceId))
      ensures rows == Filter(old(rows), NotOfInstance(instanceId)) && nextId == old(nextId)
      ensures |rows| + clearedCount == |old(rows)|
    {
      clearedCount := |Filter(rows, OfInstance(instanceId))|;
      ClearTabulates(rows, history, instanceId);
      CountSplit(rows, (r: Row) => true, OfInstance(instanceId), NotOfInstance(instanceId));
      FilterAll(rows, (r: Row) => true);
      rows := Filter(rows, NotOfInstance(instanceId));
      history := Filter(history, NotAbout(instanceId));
    }

    /** The summary of an instance counts the successful stores since its last clear, each once. */
    method GetErrorSummary(instanceId: string, answer: seq<Row>) returns (s: Summary)
      requires Valid() && IsAnswer(rows, instanceId, answer)
      ensures s.totalErrors == |Filter(history, About(instanceId))|
      ensures forall levels :: Lists(levels, s.errorsByLevel) ==> SumLevels(s.errorsByLevel, levels) == s.totalErrors
      ensures forall level ::
                CountAt(s.errorsByLevel, level) == |Filter(history, FirstAt(history, instanceId, level))|
      ensures HashFixesLevel(Filter(history, About(instanceId))) ==>
                forall level :: CountAt(s.errorsByLevel, level) == |Filter(history, AboutAt(instanceId, level))|
      ensures s.uniqueErrors == |answer| == |Filter(rows, OfInstance(instanceId))|
      ensures s.repeatedErrors == s.totalErrors - s.uniqueErrors && s.repeatedErrors >= 0
    {
      s := Summarise(answer);
      AnswerCounts(rows, history, instanceId, answer);
      forall level
        ensures CountAt(s.errorsByLevel, level) == |Filter(history, FirstAt(history, instanceId, level))|
      {
        LevelCounts(rows, history, instanceId, answer, level);
      }
      if HashFixesLevel(Filter(history, About(instanceId))) {
        forall level ensures CountAt(s.errorsByLevel, level) == |Filter(history, AboutAt(instanceId, level))| {
          FirstIsOwn(history, instanceId, level);
        }
      }
    }
  }

  lemma {:induction false} AnswerCounts(rows: seq<Row>, history: seq<Event>, instanceId: string, answer: seq<Row>)
    requires Tabulates(rows, history) && IsAnswer(rows, instanceId, answer)
    ensures TotalCount(answer) == |Filter(history, About(instanceId))|
    ensures |HashesOf(answer)| == |answer| == |Filter(rows, OfInstance(instanceId))| <= TotalCount(answer)
  {
    GroupingConserves(rows, instanceId, answer);
    InstanceTotal(rows, history, instanceId);
    GroupingIsIdentity(rows, instanceId, answer);
    assert |multiset(answer)| == |answer|;
    assert |multiset(Filter(rows, OfInstance(instanceId)))| == |Filter(rows, OfInstance(instanceId))|;
    DistinctHashes(answer);
    forall r | r in answer ensures r.count >= 1 {
      AnswerRow(rows, instanceId, answer, r);
      assert RowMeans(r, history);
    }
    TotalAtLeast(answer);
  }

  /** The occurrences whose error first occurred at this level. */
  ghost function FirstAt(history: seq<Event>, instanceId: string, level: int): Event -> bool {
    (e: Event) =>
      var same := Filter(history, EventKey(e.instanceId, e.hash));
      e.instanceId == instanceId && same != [] && same[0].error.level == level
  }

  function AboutAt(instanceId: string, level: int): Event -> bool {
    (e: Event) => e.instanceId == instanceId && e.error.level == level
  }

  /** Occurrences with one hash have one level, as the level is hashed with the message. */
  ghost predicate HashFixesLevel(events: seq<Event>) {
    forall e, f :: e in events && f in events && e.hash == f.hash ==> e.error.level == f.error.level
  }

  lemma {:induction false} TotalMiddle(rows: seq<Row>, k: nat, p: Row -> bool)
    requires k < |rows|
    ensures
      TotalCount(Filter(rows, p)) ==
      TotalCount(Filter(rows[..k] + rows[k + 1..], p)) + if p(rows[k]) then rows[k].count else 0
  {
    var rest := rows[..k] + rows[k + 1..];
    TotalFilterStep(rows, p);
    if k == 0 {
      assert rest == rows[1..];
    } else {
      TotalMiddle(rows[1..], k - 1, p);
      TotalFilterStep(rest, p);
      assert rest[0] == rows[0] && rest[1..] == rows[1..][..k - 1] + rows[1..][k..];
    }
  }

  lemma {:induction false} TotalPermutation(a: seq<Row>, b: seq<Row>, p: Row -> bool)
    requires multiset(a) == multiset(b)
    ensures TotalCount(Filter(a, p)) == TotalCount(Filter(b, p))
  {
    assert |multiset(a)| == |a| && |multiset(b)| == |b|;
    if a != [] {
      assert a[0] in multiset(b);
      var k :| 0 <= k < |b| && b[k] == a[0];
      WithoutOne(a, b, k);
      TotalMiddle(b, k, p);
      TotalFilterStep(a, p);
      TotalPermutation(a[1..], b[..k] + b[k + 1..], p);
    }
  }

  /** The rows of one instance and level hold the occurrences of the errors that first occurred at that level. */
  lemma {:induction false} LevelRows(rows: seq<Row>, history: seq<Event>, instanceId: string, level: int)
    requires Tabulates(rows, history)
    ensures
      TotalCount(Filter(Filter(rows, OfInstance(instanceId)), AtLevel(level))) ==
      |Filter(history, FirstAt(history, instanceId, level))|
  {
    var mine := Filter(rows, OfInstance(instanceId));
    var part := Filter(mine, AtLevel(level));
    FilterKeepsUnique(rows, OfInstance(instanceId));
    FilterKeepsUnique(mine, AtLevel(level));
    CountsAreOccurrences(part, history);
    forall e | e in history ensures KeyAmong(part)(e) <==> FirstAt(history, instanceId, level)(e) {
      assert HasRow(rows, e);
      var r :| r in rows && RowKey(e.instanceId, e.hash)(r);
      assert RowMeans(r, history);
      LevelRow(part, history, level, e);
      if FirstAt(history, instanceId, level)(e) {
        assert r in mine && r in part;
      }
    }
    FilterSame(history, KeyAmong(part), FirstAt(history, instanceId, level));
  }

  lemma {:induction false} LevelRow(part: seq<Row>, history: seq<Event>, level: int, e: Event)
    requires forall r :: r in part ==> RowMeans(r, history) && r.level == level
    ensures KeyAmong(part)(e) ==> FirstAt(history, e.instanceId, level)(e)
  {
  }

  /** So each per-level count attributes an occurrence to the level its error had when it first occurred. */
  lemma {:induction false} LevelCounts(
    rows: seq<Row>, history: seq<Event>, instanceId: string, answer: seq<Row>, level: int)
    requires Tabulates(rows, history) && IsAnswer(rows, instanceId, answer)
    ensures TotalCount(Filter(answer, AtLevel(level))) == |Filter(history, FirstAt(history, instanceId, level))|
  {
    GroupingIsIdentity(rows, instanceId, answer);
    TotalPermutation(answer, Filter(rows, OfInstance(instanceId)), AtLevel(level));
    LevelRows(rows, history, instanceId, level);
  }

  /** Which is the level it was stored with, when a hash fixes the level. */
  lemma {:induction false} FirstIsOwn(history: seq<Event>, instanceId: string, level: int)
    requires HashFixesLevel(Filter(history, About(instanceId)))
    ensures Filter(history, FirstAt(history, instanceId, level)) == Filter(history, AboutAt(instanceId, level))
  {
    forall e | e in history ensures FirstAt(history, instanceId, level)(e) <==> AboutAt(instanceId, level)(e) {
      var same := Filter(history, EventKey(e.instanceId, e.hash));
      assert e in same;
      assert same[0] in same;
    }
    FilterSame(history, FirstAt(history, instanceId, level), AboutAt(instanceId, level));
  }

  lemma {:induction false} DistinctHashes(answer: seq<Row>)
    requires forall i, j :: 0 <= i < j < |answer| ==> answer[i].hash != answer[j].hash
    ensures |HashesOf(answer)| == |answer|
  {
    if answer != [] {
      DistinctHashes(answer[1..]);
      assert answer[0].hash !in HashesOf(answer[1..]);
      assert HashesOf(answer) == {answer[0].hash} + HashesOf(answer[1..]);
    }
  }

  lemma {:induction false} TotalAtLeast(rows: seq<Row>)
    requires forall r :: r in rows ==> r.count >= 1
    ensures TotalCount(rows) >= |rows|
  {
    if rows != [] {
      TotalAtLeast(rows[1..]);
    }
  }
}
