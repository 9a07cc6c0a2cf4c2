/** The fixed-capacity log buffer of the process monitor, refined to "the last `capacity` items". */
module RingBuffer {
  import opened Seqs

  /** An index of the ring that has run past the end at most once, brought back by the source's `%`. */
  lemma {:induction false} Wrapped(x: nat, n: nat)
    requires 0 < n && x < 2 * n
    ensures x % n == Wrap(x, n)
  {
  }

  function Wrap(x: nat, n: nat): (k: nat)
    requires 0 < n && x < 2 * n
    ensures k < n
  {
    if x < n then x else x - n
  }

  /** The ring that starts at `head` of `buf` holds exactly `contents`, oldest first. */
  ghost predicate Holds<T>(buf: seq<Option<T>>, head: nat, contents: seq<T>) {
    && head < |buf| && |contents| <= |buf|
    && forall i :: 0 <= i < |contents| ==> buf[Wrap(head + i, |buf|)] == Some(contents[i])
  }

  /** Writing at the tail appends, and overwrites the oldest element exactly when the ring is full. */
  lemma {:induction false} HoldsAfterPush<T>(buf: seq<Option<T>>, head: nat, contents: seq<T>, item: T)
    requires Holds(buf, head, contents)
    ensures
      var written := buf[Wrap(head + |contents|, |buf|) := Some(item)];
      if |contents| < |buf| then Holds(written, head, contents + [item])
      else Holds(written, Wrap(head + 1, |buf|), contents[1..] + [item])
  {
  }

  lemma {:induction false} LastNPush<T>(s: seq<T>, x: T, n: nat)
    requires n >= 1
    ensures LastN(s + [x], n) == (if |LastN(s, n)| < n then LastN(s, n) else LastN(s, n)[1..]) + [x]
  {
  }

  /** JavaScript's `s.slice(start)`: a negative start counts from the end. */
  function Slice<T>(s: seq<T>, start: int): seq<T> {
    if start >= |s| then []
    else if start >= 0 then s[start..]
    else if -start >= |s| then s
    else s[|s| + start..]
  }

  /** `slice(-limit)` is the last `limit` elements except for the corner case of `slice(-0)`. */
  lemma {:induction false} SliceFromEnd<T>(s: seq<T>, limit: nat)
    ensures Slice(s, 0 - limit) == LastN(s, limit) <==> limit >= 1 || s == []
    ensures limit == 0 ==> Slice(s, 0 - limit) == s
  {
  }

  class CircularBuffer<T> {
    const capacity: nat
    var buffer: array<Option<T>>
    var head: nat
    var tail: nat
    var size: nat
    /** Everything pushed since creation or the last clear. */
    ghost var history: seq<T>

    ghost predicate Valid()
      reads this, buffer
    {
      && 1 <= capacity == buffer.Length
      && head < capacity && size == |LastN(history, capacity)|
      && tail == Wrap(head + size, capacity)
      && Holds(buffer[..], head, LastN(history, capacity))
    }

    constructor (capacity: nat)
      requires capacity >= 1
      ensures Valid() && fresh(buffer)
      ensures this.capacity == capacity && history == []
    {
      this.capacity := capacity;
      buffer := new Option<T>[capacity](_ => None);
      head, tail, size := 0, 0, 0;
      history := [];
    }

    method Push(item: T)
      requires Valid()
      modifies this`tail, this`head, this`size, this`history, buffer
      ensures Valid() && buffer == old(buffer)
      ensures history == old(history) + [item]
    {
      HoldsAfterPush(buffer[..], head, LastN(history, capacity), item);
      LastNPush(history, item, capacity);
      Wrapped(tail + 1, capacity);
      Wrapped(head + 1, capacity);
      buffer[tail] := Some(item);
      tail := (tail + 1) % capacity;
      if size < capacity {
        size := size + 1;
      } else {
        head := (head + 1) % capacity;
      }
      history := history + [item];
    }

    method ToArray() returns (result: seq<T>)
      requires Valid()
      ensures result == LastN(history, capacity)
    {
      result := [];
      for i := 0 to size
        invariant result == LastN(history, capacity)[..i]
      {
        Wrapped(head + i, capacity);
        assert buffer[..][Wrap(head + i, capacity)] == Some(LastN(history, capacity)[i]);
        result := result + [buffer[(head + i) % capacity].value];
      }
    }

    method Clear()
      requires Valid()
      modifies this
      ensures Valid() && fresh(buffer)
      ensures history == []
    {
      head, tail, size := 0, 0, 0;
      buffer := new Option<T>[capacity](_ => None);
      history := [];
    }

    /** `getRecentLogs(limit)` of the monitor. */
    method Recent(limit: nat) returns (result: seq<T>)
      requires Valid()
      ensures limit >= 1 ==> result == LastN(history, if limit < capacity then limit else capacity)
      ensures limit == 0 ==> result == LastN(history, capacity)
    {
      var logs := ToArray();
      SliceFromEnd(logs, limit);
      LastNTwice(history, capacity, limit);
      result := Slice(logs, 0 - limit);
    }
  }
}
