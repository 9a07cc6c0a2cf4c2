/**
 The process log table: sequence numbers from a counter that rollbacks do not rewind, batches in one transaction, and
 reads in pages.
 */
module LogStorage {
  import opened Seqs
  import opened Sorting

  datatype Log = Log(instanceId: string, processId: string, level: string, message: string, stream: string,
                     source: Option<string>, metadata: Option<string>)

  datatype Row = Row(log: Log, timestamp: int, sequence: nat)

  datatype Page = Page(logs: seq<Row>, lastSequence: nat, hasMore: bool, totalCount: nat)

  datatype LogError = InsertFailed | CommitFailed

  // ---------------------------------------------------------------- sequences

  ghost predicate Ascending(s: seq<nat>) {
    forall i, j :: 0 <= i < j < |s| ==> s[i] < s[j]
  }

  /** Rows lie in the order of their numbers, all of them below the counter. */
  ghost predicate Numbered(rows: seq<Row>, counter: nat) {
    && counter >= 1
    && (forall i, j :: 0 <= i < j < |rows| ==> rows[i].sequence < rows[j].sequence)
    && forall r :: r in rows ==> r.sequence < counter
  }

  predicate HasSequence(rows: seq<Row>, sequence: nat) {
    exists r :: r in rows && r.sequence == sequence
  }

  /** `SELECT MAX(sequence)`, zero for an empty table. */
  function MaxSequence(rows: seq<Row>): (m: nat)
    ensures forall r :: r in rows ==> r.sequence <= m
    ensures m > 0 ==> HasSequence(rows, m)
  {
    if rows == [] then 0
    else
      var m := MaxSequence(rows[1..]);
      if rows[0].sequence >= m then
        assert rows[0] in rows;
        rows[0].sequence
      else
        assert HasSequence(rows, m) by { var r :| r in rows[1..] && r.sequence == m; assert r in rows; }
        m
  }

  /** The rows a batch writes when it starts at `first`. */
  function Batch(logs: seq<Log>, now: int, first: nat): (rows: seq<Row>)
    ensures |rows| == |logs|
    ensures forall i :: 0 <= i < |logs| ==> rows[i] == Row(logs[i], now, first + i)
  {
    seq(|logs|, i requires 0 <= i < |logs| => Row(logs[i], now, first + i))
  }

  function Consecutive(first: nat, n: nat): seq<nat> {
    seq(n, i requires 0 <= i < n => first + i)
  }

  lemma {:induction false} BatchKeepsNumbering(rows: seq<Row>, counter: nat, logs: seq<Log>, now: int)
    requires Numbered(rows, counter)
    ensures Numbered(rows + Batch(logs, now, counter), counter + |logs|)
  {
  }

  lemma {:induction false} BatchGrows(logs: seq<Log>, k: nat, now: int, first: nat)
    requires k < |logs|
    ensures Batch(logs[..k + 1], now, first) == Batch(logs[..k], now, first) + [Row(logs[k], now, first + k)]
    ensures Consecutive(first, k + 1) == Consecutive(first, k) + [first + k]
  {
  }

  lemma {:induction false} FirstIsLeast(rows: seq<Row>, counter: nat)
    requires Numbered(rows, counter) && rows != []
    ensures forall r :: r in rows[1..] ==> rows[0].sequence < r.sequence
    ensures Numbered(rows[1..], counter)
  {
  }

  lemma {:induction false} PrependKeepsNumbering(r: Row, rest: seq<Row>, counter: nat)
    requires Numbered(rest, counter) && r.sequence < counter && forall q :: q in rest ==> r.sequence < q.sequence
    ensures Numbered([r] + rest, counter)
  {
  }

  lemma {:induction false} FilterKeepsNumbering(rows: seq<Row>, counter: nat, p: Row -> bool)
    requires Numbered(rows, counter)
    ensures Numbered(Filter(rows, p), counter)
  {
    if rows != [] {
      FirstIsLeast(rows, counter);
      FilterKeepsNumbering(rows[1..], counter, p);
      var rest := Filter(rows[1..], p);
      PrependKeepsNumbering(rows[0], rest, counter);
      assert [] + rest == rest;
    }
  }

  /** Reopening the database keeps the numbering sound. */
  lemma {:induction false} ReopenKeepsNumbering(rows: seq<Row>, counter: nat)
    requires Numbered(rows, counter)
    ensures Numbered(rows, MaxSequence(rows) + 1) && MaxSequence(rows) + 1 <= counter
  {
  }

  /** A reopened database gives out an already used number again exactly when the last number used is not stored. */
  lemma {:induction false} ReopenContinuesIff(rows: seq<Row>, counter: nat)
    requires Numbered(rows, counter)
    ensures MaxSequence(rows) + 1 == counter <==> counter == 1 || HasSequence(rows, counter - 1)
  {
  }

  // ------------------------------------------------- over several sessions

  /** The table, the counter, and every number ever returned to a caller, in order. */
  datatype Db = Db(rows: seq<Row>, counter: nat, returned: seq<nat>)

  /** An empty table, just opened. */
  const EMPTY := Db([], 1, [])

  /** Storing one log is a batch of one; a batch that fails has used up some numbers and returned none. */
  datatype Op =
    | Store(logs: seq<Log>, now: int, commits: bool, used: nat)
    | Clear(instanceId: string)
    | Cleanup(cutoff: int)
    | Reopen

  function NotOlder(cutoff: int): Row -> bool {
    (r: Row) => r.timestamp >= cutoff
  }

  function Apply(db: Db, op: Op): Db {
    match op
    case Store(logs, now, commits, used) =>
      if commits then
        Db(db.rows + Batch(logs, now, db.counter), db.counter + |logs|,
           db.returned + Consecutive(db.counter, |logs|))
      else db.(counter := db.counter + if used < |logs| then used else |logs|)
    case Clear(instanceId) => db.(rows := Filter(db.rows, NotOfInstance(instanceId)))
    case Cleanup(cutoff) => db.(rows := Filter(db.rows, NotOlder(cutoff)))
    case Reopen => db.(counter := MaxSequence(db.rows) + 1)
  }

  function Run(db: Db, ops: seq<Op>): Db {
    if ops == [] then db else Apply(Run(db, ops[..|ops| - 1]), ops[|ops| - 1])
  }

  /** Clearing takes out one instance and cleaning up what is older than the cutoff; both keep the rest in order. */
  lemma {:induction false} RemovalsKeepTheRest(db: Db, instanceId: string, cutoff: int)
    ensures
      var cleared, cleaned := Apply(db, Clear(instanceId)).rows, Apply(db, Cleanup(cutoff)).rows;
      && (forall r :: r in cleared <==> r in db.rows && r.log.instanceId != instanceId)
      && (forall r :: r in cleaned <==> r in db.rows && r.timestamp >= cutoff)
      && (Apply(db, Clear(instanceId)).counter, Apply(db, Cleanup(cutoff)).counter) == (db.counter, db.counter)
  {
  }

  /** Whatever is stored was returned to a caller, and numbers start at one. */
  ghost predicate Sound(db: Db) {
    && Numbered(db.rows, db.counter)
    && (forall r :: r in db.rows ==> r.sequence in db.returned)
    && forall n :: n in db.returned ==> n >= 1
  }

  lemma {:induction false} ApplySound(db: Db, op: Op)
    requires Sound(db)
    ensures Sound(Apply(db, op))
  {
    match op
    case Store(logs, now, commits, used) =>
      BatchKeepsNumbering(db.rows, db.counter, logs, now);
      if commits {
        StoredAreReturned(db, logs, now);
      }
    case Clear(instanceId) => FilterKeepsNumbering(db.rows, db.counter, NotOfInstance(instanceId));
    case Cleanup(cutoff) => FilterKeepsNumbering(db.rows, db.counter, NotOlder(cutoff));
    case Reopen => ReopenKeepsNumbering(db.rows, db.counter);
  }

  lemma {:induction false} StoredAreReturned(db: Db, logs: seq<Log>, now: int)
    requires Sound(db)
    ensures
      forall r :: r in db.rows + Batch(logs, now, db.counter) ==>
        r.sequence in db.returned + Consecutive(db.counter, |logs|)
  {
    var batch, numbers := Batch(logs, now, db.counter), Consecutive(db.counter, |logs|);
    forall r | r in batch ensures r.sequence in numbers {
      var i :| 0 <= i < |batch| && batch[i] == r;
      assert numbers[i] == r.sequence;
    }
  }

  lemma {:induction false} RunSound(ops: seq<Op>)
    ensures Sound(Run(EMPTY, ops))
  {
    if ops != [] {
      RunSound(ops[..|ops| - 1]);
      ApplySound(Run(EMPTY, ops[..|ops| - 1]), ops[|ops| - 1]);
    }
  }

  /** The largest number ever returned, zero if there is none. */
  function Largest(returned: seq<nat>): (m: nat)
    ensures forall n :: n in returned ==> n <= m
    ensures returned != [] ==> m in returned
  {
    if returned == [] then 0
    else
      var m := Largest(returned[1..]);
      assert returned == [returned[0]] + returned[1..];
      if returned[0] >= m then returned[0] else m
  }

  ghost predicate OneSession(ops: seq<Op>) {
    forall op :: op in ops ==> !op.Reopen?
  }

  /** The session returns a number that was already returned before it. */
  ghost predicate Repeats(db: Db, session: seq<Op>) {
    exists i :: |db.returned| <= i < |Run(db, session).returned| && Run(db, session).returned[i] in db.returned
  }

  /** Within a session numbers only go up. */
  lemma {:induction false} SessionGoesUp(db: Db, session: seq<Op>)
    requires OneSession(session)
    ensures
      var t := Run(db, session);
      && db.counter <= t.counter && db.returned <= t.returned
      && forall i :: |db.returned| <= i < |t.returned| ==> db.counter <= t.returned[i]
  {
    if session != [] {
      assert session[|session| - 1] in session;
      SessionGoesUp(db, session[..|session| - 1]);
    }
  }

  /** Enough logs return any number from the counter on. */
  lemma {:induction false} EnoughLogs(db: Db, n: nat, log: Log, now: int) returns (session: seq<Op>)
    requires db.counter <= n && n in db.returned
    ensures OneSession(session) && Repeats(db, session)
  {
    var logs := seq(n - db.counter + 1, i => log);
    session := [Store(logs, now, true, 0)];
    assert session[..0] == [];
    assert Run(db, []) == db;
    var t := Run(db, session);
    assert t == Apply(Run(db, session[..0]), session[0]);
    assert t.returned[|db.returned| + (n - db.counter)] == n;
  }

  /**
   Over any number of sessions: the one after a reopening can return a number that a caller already has if and only if
   the largest number ever returned is no longer stored.
   */
  lemma {:induction false} ReissueIff(ops: seq<Op>, log: Log, now: int)
    ensures
      var db := Run(EMPTY, ops + [Reopen]);
      (exists session :: OneSession(session) && Repeats(db, session)) <==>
      db.returned != [] && !HasSequence(db.rows, Largest(db.returned))
  {
    var db := Run(EMPTY, ops + [Reopen]);
    RunSound(ops + [Reopen]);
    assert (ops + [Reopen])[..|ops|] == ops;
    assert db.counter == MaxSequence(db.rows) + 1;
    if db.returned != [] && !HasSequence(db.rows, Largest(db.returned)) {
      MaxIsReturned(db);
      var session := EnoughLogs(db, Largest(db.returned), log, now);
    }
    forall session | OneSession(session) && Repeats(db, session)
      ensures db.returned != [] && !HasSequence(db.rows, Largest(db.returned))
    {
      SessionGoesUp(db, session);
      assert db.counter <= Largest(db.returned);
    }
  }

  lemma {:induction false} MaxIsReturned(db: Db)
    requires Sound(db) && db.returned != [] && !HasSequence(db.rows, Largest(db.returned))
    ensures MaxSequence(db.rows) + 1 <= Largest(db.returned)
  {
    if MaxSequence(db.rows) > 0 {
      var r :| r in db.rows && r.sequence == MaxSequence(db.rows);
      assert r.sequence in db.returned && r.sequence != Largest(db.returned);
    }
  }

  // --------------------------------------------------------------- the reads

  function OfInstance(instanceId: string): Row -> bool {
    (r: Row) => r.log.instanceId == instanceId
  }

  function NotOfInstance(instanceId: string): Row -> bool {
    (r: Row) => r.log.instanceId != instanceId
  }

  function NewestFirst(): (Row, Row) -> bool {
    (a: Row, b: Row) => a.sequence >= b.sequence
  }

  /** `WHERE instance_id = ? ORDER BY sequence DESC`. */
  function Selected(rows: seq<Row>, instanceId: string): seq<Row> {
    StableSort(Filter(rows, OfInstance(instanceId)), NewestFirst())
  }

  /** `LIMIT ? OFFSET ?`: SQLite reads a negative limit as none and a negative offset as zero. */
  function Window(rows: seq<Row>, limit: int, offset: int): seq<Row> {
    var from := if offset < 0 then 0 else if offset > |rows| then |rows| else offset;
    if limit < 0 || from + limit > |rows| then rows[from..] else rows[from..from + limit]
  }

  /** `limit || 100`: a missing and a zero limit both mean one hundred. */
  function EffectiveLimit(limit: Option<int>): int {
    match limit
    case None => 100
    case Some(n) => if n == 0 then 100 else n
  }

  function EffectiveOffset(offset: Option<int>): int {
    match offset
    case None => 0
    case Some(n) => n
  }

  function GetLogs(rows: seq<Row>, instanceId: Option<string>, limit: Option<int>, offset: Option<int>): Page {
    var instance := if instanceId.Some? then instanceId.value else "";
    var logs := Window(Selected(rows, instance), EffectiveLimit(limit), EffectiveOffset(offset));
    var totalCount := |Filter(rows, OfInstance(instance))|;
    Page(logs, MaxSequence(logs), EffectiveOffset(offset) + |logs| < totalCount, totalCount)
  }

  /** What a reader of one instance sees of the page at an offset: its rows and whether to go on. */
  function PageAt(rows: seq<Row>, instanceId: string, limit: Option<int>): nat -> (seq<Row>, bool) {
    (offset: nat) =>
      var page := GetLogs(rows, Some(instanceId), limit, Some(offset));
      (page.logs, page.hasMore)
  }

  /** The page is the slice of `all` at its offset, not empty unless at the end, and says whether anything follows. */
  predicate IsSlice(page: (seq<Row>, bool), all: seq<Row>, offset: nat) {
    var next := offset + |page.0|;
    next <= |all| && page.0 == all[offset..next] && page.1 == (next < |all|) && (offset < |all| ==> offset < next)
  }

  ghost predicate Pages(read: nat -> (seq<Row>, bool), all: seq<Row>) {
    forall offset: nat :: offset <= |all| ==> IsSlice(read(offset), all, offset)
  }

  /** The reader asks for the next page until `hasMore` is false, moving on by the length of each page. */
  ghost function Walk(read: nat -> (seq<Row>, bool), all: seq<Row>, offset: nat): seq<Row>
    requires Pages(read, all) && offset <= |all|
    decreases |all| - offset
  {
    assert IsSlice(read(offset), all, offset);
    var (logs, hasMore) := read(offset);
    if hasMore then logs + Walk(read, all, offset + |logs|) else logs
  }

  /** What is left to read from `offset` on. */
  lemma {:induction false} WalkFrom(read: nat -> (seq<Row>, bool), all: seq<Row>, offset: nat)
    requires Pages(read, all) && offset <= |all|
    ensures Walk(read, all, offset) == all[offset..]
    decreases |all| - offset
  {
    assert IsSlice(read(offset), all, offset);
    var next := offset + |read(offset).0|;
    assert all[offset..] == all[offset..next] + all[next..];
    if next < |all| {
      WalkFrom(read, all, next);
    }
  }

  lemma {:induction false} WindowIsSlice(all: seq<Row>, limit: int, offset: nat)
    requires limit != 0 && offset <= |all|
    ensures
      var window := Window(all, limit, offset);
      IsSlice((window, offset + |window| < |all|), all, offset)
  {
  }

  lemma {:induction false} GetLogsPages(rows: seq<Row>, instanceId: string, limit: Option<int>)
    ensures Pages(PageAt(rows, instanceId, limit), Selected(rows, instanceId))
  {
    var all := Selected(rows, instanceId);
    assert |all| == |Filter(rows, OfInstance(instanceId))|;
    forall offset: nat | offset <= |all| ensures IsSlice(PageAt(rows, instanceId, limit)(offset), all, offset) {
      WindowIsSlice(all, EffectiveLimit(limit), offset);
    }
  }

  lemma {:induction false} NewestFirstPreorder()
    ensures TotalPreorder(NewestFirst())
  {
  }

  lemma {:induction false} SelectedDescends(rows: seq<Row>, counter: nat, instanceId: string)
    requires Numbered(rows, counter)
    ensures
      var read := Selected(rows, instanceId);
      forall i, j :: 0 <= i < j < |read| ==> read[i].sequence > read[j].sequence
  {
    var mine, read := Filter(rows, OfInstance(instanceId)), Selected(rows, instanceId);
    FilterKeepsNumbering(rows, counter, OfInstance(instanceId));
    NewestFirstPreorder();
    SortSorted(mine, NewestFirst());
    SortNoDuplicates(mine, NewestFirst());
    SameElements(read, mine);
    forall i, j | 0 <= i < j < |read| ensures read[i].sequence > read[j].sequence {
      assert NewestFirst()(read[i], read[j]) && read[i] != read[j];
      SequenceIdentifies(mine, counter, read[i], read[j]);
    }
  }

  /** Walking the pages, whatever the page size, reads every row of the instance once, newest first. */
  lemma {:induction false} PagesCoverOnce(rows: seq<Row>, counter: nat, instanceId: string, limit: Option<int>)
    requires Numbered(rows, counter)
    ensures Pages(PageAt(rows, instanceId, limit), Selected(rows, instanceId))
    ensures
      var read := Walk(PageAt(rows, instanceId, limit), Selected(rows, instanceId), 0);
      && multiset(read) == multiset(Filter(rows, OfInstance(instanceId)))
      && forall i, j :: 0 <= i < j < |read| ==> read[i].sequence > read[j].sequence
  {
    var all := Selected(rows, instanceId);
    GetLogsPages(rows, instanceId, limit);
    WalkFrom(PageAt(rows, instanceId, limit), all, 0);
    assert all[0..] == all;
    SelectedDescends(rows, counter, instanceId);
  }

  /**
   One page: from its offset on, a hundred rows by default, no limit when it is negative; the first row carries the
   number reported as last, zero for an empty page; and the count is that of the instance. A negative offset reads from
   the start, but still counts when the page is asked whether there is more.
   */
  lemma {:induction false} PageIs(
    rows: seq<Row>, counter: nat, instanceId: string, limit: Option<int>, offset: int)
    requires Numbered(rows, counter)
    ensures
      var page, all := GetLogs(rows, Some(instanceId), limit, Some(offset)), Selected(rows, instanceId);
      var size := if limit.None? || limit.value == 0 then 100 else limit.value;
      && page.logs == Slice(all, size, if offset < 0 then 0 else offset)
      && page.lastSequence == (if page.logs == [] then 0 else page.logs[0].sequence)
      && page.hasMore == (offset + |page.logs| < |all|) && page.totalCount == |all|
  {
    var size := if limit.None? || limit.value == 0 then 100 else limit.value;
    var from := if offset < 0 then 0 else offset;
    GetLogsIs(rows, instanceId, limit, offset, size);
    WindowIs(Selected(rows, instanceId), size, offset);
    LastOfPage(rows, counter, instanceId, size, from);
  }

  lemma {:induction false} LastOfPage(rows: seq<Row>, counter: nat, instanceId: string, size: int, offset: nat)
    requires Numbered(rows, counter) && size != 0
    ensures
      var logs := Slice(Selected(rows, instanceId), size, offset);
      MaxSequence(logs) == if logs == [] then 0 else logs[0].sequence
  {
    SelectedDescends(rows, counter, instanceId);
    SliceIsPart(Selected(rows, instanceId), size, offset);
    LastIsFirst(Selected(rows, instanceId), Slice(Selected(rows, instanceId), size, offset), offset);
  }

  lemma {:induction false} GetLogsIs(
    rows: seq<Row>, instanceId: string, limit: Option<int>, offset: int, size: int)
    requires size == if limit.None? || limit.value == 0 then 100 else limit.value
    ensures
      var page, all := GetLogs(rows, Some(instanceId), limit, Some(offset)), Selected(rows, instanceId);
      && page.logs == Window(all, size, offset) && page.lastSequence == MaxSequence(page.logs)
      && page.hasMore == (offset + |page.logs| < |all|) && page.totalCount == |all|
  {
    assert |Selected(rows, instanceId)| == |Filter(rows, OfInstance(instanceId))|;
  }

  /** At most `size` rows from the offset on, all of them for a negative size. */
  function Slice(all: seq<Row>, size: int, offset: nat): seq<Row> {
    var rest := if offset <= |all| then all[offset..] else [];
    if size < 0 || |rest| <= size then rest else rest[..size]
  }

  lemma {:induction false} WindowIs(all: seq<Row>, size: int, offset: int)
    requires size != 0
    ensures Window(all, size, offset) == Slice(all, size, if offset < 0 then 0 else offset)
  {
  }

  lemma {:induction false} SliceIsPart(all: seq<Row>, size: int, offset: nat)
    ensures
      var part := Slice(all, size, offset);
      part != [] ==> offset + |part| <= |all| && part == all[offset..offset + |part|]
  {
  }

  /** What a reader of one instance is shown are the rows of that instance. */
  lemma {:induction false} SelectedIs(rows: seq<Row>, instanceId: string, r: Row)
    ensures r in Selected(rows, instanceId) <==> r in rows && r.log.instanceId == instanceId
  {
    SameElements(Filter(rows, OfInstance(instanceId)), Selected(rows, instanceId));
  }

  /** A call without instance and offset reads the empty instance from the start. */
  lemma {:induction false} PageDefaults(rows: seq<Row>, limit: Option<int>)
    ensures GetLogs(rows, None, limit, None) == GetLogs(rows, Some(""), limit, Some(0))
  {
  }

  lemma {:induction false} LastIsFirst(all: seq<Row>, logs: seq<Row>, offset: nat)
    requires forall i, j :: 0 <= i < j < |all| ==> all[i].sequence > all[j].sequence
    requires logs != [] ==> offset + |logs| <= |all| && logs == all[offset..offset + |logs|]
    ensures MaxSequence(logs) == if logs == [] then 0 else logs[0].sequence
  {
    if logs != [] {
      forall r | r in logs ensures r.sequence <= logs[0].sequence {
        var i :| 0 <= i < |logs| && logs[i] == r;
        assert logs[i] == all[offset + i] && logs[0] == all[offset];
      }
      assert logs[0] in logs;
    }
  }

  lemma {:induction false} SequenceIdentifies(rows: seq<Row>, counter: nat, a: Row, b: Row)
    requires Numbered(rows, counter) && a in rows && b in rows && a != b
    ensures a.sequence != b.sequence
  {
  }

  // ------------------------------------------------------------- the writer

  class LogStore {
    var rows: seq<Row>
    var sequenceCounter: nat
    /** The numbers returned to callers since the database was opened, in order. */
    ghost var issued: seq<nat>

    ghost predicate Valid()
      reads this
    {
      Numbered(rows, sequenceCounter) && Ascending(issued) && forall n :: n in issued ==> n < sequenceCounter
    }

    ghost function View(): Db
      reads this
    {
      Db(rows, sequenceCounter, issued)
    }

    /** Opening reads the largest stored number. */
    constructor (stored: seq<Row>, ghost counter: nat)
      requires Numbered(stored, counter)
      ensures Valid() && View() == Apply(Db(stored, counter, []), Reopen)
    {
      ReopenKeepsNumbering(stored, counter);
      rows, sequenceCounter, issued := stored, MaxSequence(stored) + 1, [];
    }

    /** The number is used up whether or not the row gets in; the UNIQUE constraint never fires. */
    method StoreLog(log: Log, now: int, succeeds: bool) returns (r: Result<nat, LogError>)
      requires Numbered(rows, sequenceCounter)
      modifies `rows, `sequenceCounter
      ensures Numbered(rows, sequenceCounter) && sequenceCounter == old(sequenceCounter) + 1
      ensures r == if succeeds then Ok(old(sequenceCounter)) else Err(InsertFailed)
      ensures rows == old(rows) + if succeeds then Batch([log], now, old(sequenceCounter)) else []
      ensures
        var more := if r.Ok? then [r.data] else [];
        View().(returned := issued + more) == Apply(old(View()), Store([log], now, r.Ok?, 1))
    {
      var sequence := sequenceCounter;
      sequenceCounter := sequenceCounter + 1;
      assert !HasSequence(rows, sequence);
      BatchKeepsNumbering(rows, sequence, [log], now);
      if !succeeds || HasSequence(rows, sequence) {
        return Err(InsertFailed);
      }
      rows := rows + [Row(log, now, sequence)];
      assert Batch([log], now, sequence) == [Row(log, now, sequence)];
      return Ok(sequence);
    }

    /** The body of the transaction: inserts the logs in turn until one fails. */
    method InsertAll(logs: seq<Log>, now: int, succeeds: nat -> bool) returns (ok: bool, sequences: seq<nat>)
      requires Numbered(rows, sequenceCounter)
      modifies `rows, `sequenceCounter
      ensures Numbered(rows, sequenceCounter)
      ensures ok <==> forall i :: 0 <= i < |logs| ==> succeeds(i)
      ensures ok ==> sequences == Consecutive(old(sequenceCounter), |logs|)
      ensures ok ==> rows == old(rows) + Batch(logs, now, old(sequenceCounter))
      ensures ok ==> sequenceCounter == old(sequenceCounter) + |logs|
      ensures old(sequenceCounter) <= sequenceCounter <= old(sequenceCounter) + |logs|
    {
      ghost var first, before := sequenceCounter, rows;
      sequences := [];
      for k := 0 to |logs|
        invariant Numbered(rows, sequenceCounter) && sequenceCounter == first + k
        invariant sequences == Consecutive(first, k)
        invariant rows == before + Batch(logs[..k], now, first)
        invariant forall i :: 0 <= i < k ==> succeeds(i)
      {
        BatchGrows(logs, k, now, first);
        var result := StoreLog(logs[k], now, succeeds(k));
        if result.Err? {
          return false, sequences;
        }
        assert Batch([logs[k]], now, first + k) == [Row(logs[k], now, first + k)];
        sequences := sequences + [result.data];
      }
      assert logs[..|logs|] == logs;
      ok := true;
    }

    /** All rows or none; the counter keeps what a failed batch used. */
    method StoreLogs(logs: seq<Log>, now: int, succeeds: nat -> bool, commits: bool)
      returns (r: Result<seq<nat>, LogError>)
      requires Valid()
      modifies this
      ensures Valid()
      ensures r.Ok? <==> commits && forall i :: 0 <= i < |logs| ==> succeeds(i)
      ensures r.Ok? ==> r.data == Consecutive(old(sequenceCounter), |logs|)
      ensures r.Ok? ==> rows == old(rows) + Batch(logs, now, old(sequenceCounter))
      ensures r.Ok? ==> sequenceCounter == old(sequenceCounter) + |logs| && issued == old(issued) + r.data
      ensures r.Err? ==> rows == old(rows) && issued == old(issued)
      ensures old(sequenceCounter) <= sequenceCounter <= old(sequenceCounter) + |logs|
      ensures View() == Apply(old(View()), Store(logs, now, r.Ok?, sequenceCounter - old(sequenceCounter)))
    {
      ghost var first := sequenceCounter;
      var savepoint := rows;
      var ok, sequences := InsertAll(logs, now, succeeds);
      if !ok || !commits {
        rows := savepoint;
        return Err(if ok then CommitFailed else InsertFailed);
      }
      IssuedGrows(issued, first, |logs|);
      issued := issued + sequences;
      return Ok(sequences);
    }

    method ClearLogs(instanceId: string) returns (clearedCount: nat)
      requires Valid()
      modifies `rows
      ensures Valid() && View() == Apply(old(View()), Clear(instanceId))
      ensures clearedCount == |Filter(old(rows), OfInstance(instanceId))|
    {
      clearedCount := |Filter(rows, OfInstance(instanceId))|;
      FilterKeepsNumbering(rows, sequenceCounter, NotOfInstance(instanceId));
      rows := Filter(rows, NotOfInstance(instanceId));
    }

    /** The hourly cleanup deletes what is older than `cutoff`. */
    method CleanupOldLogs(cutoff: int) returns (changes: nat)
      requires Valid()
      modifies `rows
      ensures Valid() && View() == Apply(old(View()), Cleanup(cutoff))
      ensures changes == |old(rows)| - |rows|
    {
      var kept := Filter(rows, NotOlder(cutoff));
      changes := |rows| - |kept|;
      FilterKeepsNumbering(rows, sequenceCounter, NotOlder(cutoff));
      rows := kept;
    }
  }

  lemma {:induction false} IssuedGrows(issued: seq<nat>, first: nat, n: nat)
    requires Ascending(issued) && forall m :: m in issued ==> m < first
    ensures Ascending(issued + Consecutive(first, n))
    ensures forall m :: m in issued + Consecutive(first, n) ==> m < first + n
  {
    var next := issued + Consecutive(first, n);
    forall i, j | 0 <= i < j < |next| ensures next[i] < next[j] {
      if i < |issued| && j >= |issued| {
        assert issued[i] in issued;
      }
    }
  }
}
