/** Cutting decoded text into lines as it arrives, so that where the chunks were cut cannot be observed. */
module Framing {
  import opened Seqs
  import opened Text
  import opened RingBuffer

  // ---------------------------------------------------- the specification
  //
  // The process monitor splits each chunk and keeps the last piece; the NDJSON reader searches for one newline at a
  // time. Both refine this specification of the whole text.

  /** The trimmed lines that are not blank. */
  function Keep(lines: seq<string>): seq<string> {
    if lines == [] then [] else (if Trim(lines[0]) == "" then [] else [Trim(lines[0])]) + Keep(lines[1..])
  }

  /** The lines of a whole text. */
  function Pieces(text: string): seq<string> {
    Keep(Split(text, '\n'))
  }

  /** The lines of a text whose last, unterminated line is not counted yet. */
  function CompleteLines(text: string): seq<string> {
    Keep(Init(Split(text, '\n')))
  }

  function Unterminated(text: string): string {
    Last(Split(text, '\n'))
  }

  lemma {:induction false} KeepConcat(a: seq<string>, b: seq<string>)
    ensures Keep(a + b) == Keep(a) + Keep(b)
  {
    if a == [] {
      assert a + b == b;
    } else {
      assert (a + b)[1..] == a[1..] + b;
      KeepConcat(a[1..], b);
    }
  }

  /** Only the unterminated line of the past matters for the lines that more text completes. */
  lemma {:induction false} MoreText(past: string, more: string)
    ensures CompleteLines(past + more) == CompleteLines(past) + CompleteLines(Unterminated(past) + more)
    ensures Unterminated(past + more) == Unterminated(Unterminated(past) + more)
  {
    SplitMore(past, more, '\n');
    var before, after := Init(Split(past, '\n')), Split(Unterminated(past) + more, '\n');
    InitLastOfConcat(before, after);
    KeepConcat(before, Init(after));
  }

  /** A newline at the end completes the unterminated line: what flushing does. */
  lemma {:induction false} EndOfText(text: string)
    ensures CompleteLines(text + "\n") == Pieces(text) == CompleteLines(text) + Keep([Unterminated(text)])
    ensures Unterminated(text + "\n") == ""
  {
    SplitConcat(text, "\n", '\n');
    assert Split("\n", '\n') == ["", ""] by {
      assert Split("", '\n') == [""];
    }
    var pieces := Split(text, '\n');
    assert Last(pieces) + "" == Last(pieces);
    assert Split(text + "\n", '\n') == Init(pieces) + [Last(pieces)] + [""];
    assert Init(pieces) + [Last(pieces)] == pieces;
    assert Init(Split(text + "\n", '\n')) == pieces;
    KeepConcat(Init(pieces), [Last(pieces)]);
  }

  // ------------------------------------- the two streams of a monitored child

  datatype Stream = Stdout | Stderr

  datatype LogLine = LogLine(content: string, stream: Stream)

  datatype Framer = Framer(stdoutBuffer: string, stderrBuffer: string, log: seq<LogLine>) {
    function Buffer(s: Stream): string {
      if s == Stdout then stdoutBuffer else stderrBuffer
    }
  }

  function Tag(lines: seq<string>, s: Stream): (r: seq<LogLine>)
    ensures |r| == |lines|
  {
    if lines == [] then [] else [LogLine(lines[0], s)] + Tag(lines[1..], s)
  }

  /** The contents of the log lines that came from stream `s`. */
  function OnStream(log: seq<LogLine>, s: Stream): seq<string> {
    if log == [] then []
    else (if log[0].stream == s then [log[0].content] else []) + OnStream(log[1..], s)
  }

  lemma {:induction false} OnStreamConcat(a: seq<LogLine>, b: seq<LogLine>, s: Stream)
    ensures OnStream(a + b, s) == OnStream(a, s) + OnStream(b, s)
  {
    if a == [] {
      assert a + b == b;
    } else {
      assert (a + b)[1..] == a[1..] + b;
      OnStreamConcat(a[1..], b, s);
    }
  }

  lemma {:induction false} TagConcat(a: seq<string>, b: seq<string>, s: Stream)
    ensures Tag(a + b, s) == Tag(a, s) + Tag(b, s)
  {
    if a == [] {
      assert a + b == b;
    } else {
      assert (a + b)[1..] == a[1..] + b;
      TagConcat(a[1..], b, s);
    }
  }

  lemma {:induction false} TagOne(line: string, s: Stream)
    ensures Tag(Keep([line]), s) == if Trim(line) == "" then [] else [LogLine(Trim(line), s)]
  {
  }

  /** The log after the non-blank ones among `lines` have been logged. */
  function Logged(log: seq<LogLine>, lines: seq<string>, s: Stream): seq<LogLine> {
    log + Tag(Keep(lines), s)
  }

  lemma {:induction false} LoggedOne(log: seq<LogLine>, line: string, s: Stream)
    ensures Logged(log, [line], s) == if Trim(line) == "" then log else log + [LogLine(Trim(line), s)]
  {
    TagOne(line, s);
  }

  lemma {:induction false} LoggedNext(log: seq<LogLine>, lines: seq<string>, i: nat, s: Stream)
    requires i < |lines|
    ensures
      var before := Logged(log, lines[..i], s);
      Logged(log, lines[..i + 1], s) == if Trim(lines[i]) == "" then before else before + [LogLine(Trim(lines[i]), s)]
  {
    assert lines[..i + 1] == lines[..i] + [lines[i]];
    KeepConcat(lines[..i], [lines[i]]);
    TagConcat(Keep(lines[..i]), Keep([lines[i]]), s);
    TagOne(lines[i], s);
  }

  lemma {:induction false} OnStreamTag(lines: seq<string>, s: Stream, t: Stream)
    ensures OnStream(Tag(lines, s), t) == if s == t then lines else []
  {
    if lines != [] {
      OnStreamTag(lines[1..], s, t);
      assert lines == [lines[0]] + lines[1..];
    }
  }

  function Feed(f: Framer, data: string, s: Stream): Framer {
    var content := f.Buffer(s) + data;
    var log := Logged(f.log, Init(Split(content, '\n')), s);
    if s == Stdout then f.(stdoutBuffer := Unterminated(content), log := log)
    else f.(stderrBuffer := Unterminated(content), log := log)
  }

  function Flush(f: Framer): Framer {
    Framer("", "", Logged(Logged(f.log, [f.stdoutBuffer], Stdout), [f.stderrBuffer], Stderr))
  }

  datatype Input = Chunk(stream: Stream, data: string) | FlushBoth

  function Run(inputs: seq<Input>): Framer {
    if inputs == [] then Framer("", "", [])
    else
      var before := Run(inputs[..|inputs| - 1]);
      match inputs[|inputs| - 1]
      case Chunk(s, data) => Feed(before, data, s)
      case FlushBoth => Flush(before)
  }

  /** The text one stream delivered, a flush counting as the end of a line. */
  function Received(inputs: seq<Input>, s: Stream): string {
    if inputs == [] then ""
    else
      Received(inputs[..|inputs| - 1], s) +
      match inputs[|inputs| - 1]
      case Chunk(t, data) => if t == s then data else ""
      case FlushBoth => "\n"
  }

  /** In every run, the lines logged for a stream are the complete lines of its text, and its buffer the rest. */
  lemma {:induction false} LinesOfText(inputs: seq<Input>, s: Stream)
    ensures OnStream(Run(inputs).log, s) == CompleteLines(Received(inputs, s))
    ensures Run(inputs).Buffer(s) == Unterminated(Received(inputs, s))
  {
    if inputs == [] {
      assert Split("", '\n') == [""];
    } else {
      var prefix := inputs[..|inputs| - 1];
      LinesOfText(prefix, s);
      match inputs[|inputs| - 1]
      case Chunk(t, data) => FeedLines(Run(prefix), data, t, Received(prefix, s), s);
      case FlushBoth => FlushLines(Run(prefix), Received(prefix, s), s);
    }
  }

  lemma {:induction false} LoggedStream(log: seq<LogLine>, lines: seq<string>, t: Stream, s: Stream)
    ensures OnStream(Logged(log, lines, t), s) == if s == t then OnStream(log, s) + Keep(lines) else OnStream(log, s)
  {
    OnStreamConcat(log, Tag(Keep(lines), t), s);
    OnStreamTag(Keep(lines), t, s);
    assert OnStream(log, s) + [] == OnStream(log, s);
  }

  lemma {:induction false} FeedLines(f: Framer, data: string, t: Stream, text: string, s: Stream)
    requires OnStream(f.log, s) == CompleteLines(text) && f.Buffer(s) == Unterminated(text)
    ensures
      var g, more := Feed(f, data, t), if t == s then data else "";
      OnStream(g.log, s) == CompleteLines(text + more) && g.Buffer(s) == Unterminated(text + more)
  {
    var lines := Init(Split(f.Buffer(t) + data, '\n'));
    LoggedStream(f.log, lines, t, s);
    assert Feed(f, data, t).log == Logged(f.log, lines, t);
    if t == s {
      MoreText(text, data);
      assert Keep(lines) == CompleteLines(Unterminated(text) + data);
    } else {
      assert text + "" == text;
    }
  }

  lemma {:induction false} FlushLines(f: Framer, text: string, s: Stream)
    requires OnStream(f.log, s) == CompleteLines(text) && f.Buffer(s) == Unterminated(text)
    ensures
      var g := Flush(f);
      OnStream(g.log, s) == CompleteLines(text + "\n") && g.Buffer(s) == Unterminated(text + "\n")
  {
    LoggedStream(f.log, [f.stdoutBuffer], Stdout, s);
    LoggedStream(Logged(f.log, [f.stdoutBuffer], Stdout), [f.stderrBuffer], Stderr, s);
    EndOfText(text);
  }

  /** The chunks of one stream, glued together. */
  function TextOf(inputs: seq<Input>, s: Stream): string {
    if inputs == [] then ""
    else
      TextOf(inputs[..|inputs| - 1], s) +
      (if inputs[|inputs| - 1].Chunk? && inputs[|inputs| - 1].stream == s then inputs[|inputs| - 1].data else "")
  }

  lemma {:induction false} ReceivedIsText(inputs: seq<Input>, s: Stream)
    requires forall i :: i in inputs ==> i.Chunk?
    ensures Received(inputs, s) == TextOf(inputs, s)
  {
    if inputs != [] {
      ReceivedIsText(inputs[..|inputs| - 1], s);
      assert inputs[|inputs| - 1] in inputs;
    }
  }

  /**
   However the two streams were cut into chunks and interleaved, one final flush leaves for each stream
   exactly the lines of its whole text.
   */
  lemma {:induction false} ChunkingIsInvisible(chunks: seq<Input>, s: Stream)
    requires forall c :: c in chunks ==> c.Chunk?
    ensures OnStream(Run(chunks + [FlushBoth]).log, s) == Pieces(TextOf(chunks, s))
  {
    var all := chunks + [FlushBoth];
    assert all[..|all| - 1] == chunks;
    LinesOfText(all, s);
    ReceivedIsText(chunks, s);
    EndOfText(TextOf(chunks, s));
  }

  /**
   An exit that nobody asked for never flushes: the trailing line is then lost exactly when it is not blank.
   */
  lemma {:induction false} UnflushedLineIsLost(chunks: seq<Input>, s: Stream)
    requires forall c :: c in chunks ==> c.Chunk?
    ensures OnStream(Run(chunks).log, s) == Pieces(TextOf(chunks, s)) <==> Trim(Unterminated(TextOf(chunks, s))) == ""
  {
    LinesOfText(chunks, s);
    ReceivedIsText(chunks, s);
    EndOfText(TextOf(chunks, s));
  }

  lemma {:induction false} ReceivedMore(inputs: seq<Input>, i: Input, s: Stream)
    requires i.Chunk?
    ensures Received(inputs + [i], s) == Received(inputs, s) + if i.stream == s then i.data else ""
  {
    assert (inputs + [i])[..|inputs|] == inputs;
  }

  lemma {:induction false} Reassociate<T>(a: seq<T>, b: seq<T>, c: seq<T>)
    ensures a + (b + c) == (a + b) + c
  {
  }

  lemma {:induction false} ReceivedAtFlush(before: seq<Input>, s: Stream)
    requires forall i :: i in before ==> i.Chunk?
    ensures Received(before + [FlushBoth], s) == TextOf(before, s) + "\n"
  {
    ReceivedIsText(before, s);
    assert (before + [FlushBoth])[..|before|] == before;
  }

  lemma {:induction false} ReceivedAfterFlush(flushed: seq<Input>, text: string, after: seq<Input>, s: Stream)
    requires Received(flushed, s) == text && forall i :: i in after ==> i.Chunk?
    ensures Received(flushed + after, s) == text + TextOf(after, s)
  {
    if after == [] {
      assert flushed + after == flushed;
    } else {
      var front, last := after[..|after| - 1], after[|after| - 1];
      assert last in after && after == front + [last];
      ReceivedAfterFlush(flushed, text, front, s);
      ReceivedMore(flushed + front, last, s);
      Reassociate(flushed, front, [last]);
      Reassociate(text, TextOf(front, s), if last.stream == s then last.data else "");
    }
  }

  /**
   A requested stop flushes before it signals the child, which may still write: what comes after the flush is a text of
   its own, and its unterminated last line is lost, exactly when it is not blank, on a requested stop too.
   */
  lemma {:induction false} LineAfterFlushIsLost(before: seq<Input>, after: seq<Input>, s: Stream)
    requires (forall i :: i in before ==> i.Chunk?) && forall i :: i in after ==> i.Chunk?
    ensures
      var log := OnStream(Run(before + [FlushBoth] + after).log, s);
      && log == Pieces(TextOf(before, s)) + CompleteLines(TextOf(after, s))
      && (log == Pieces(TextOf(before, s)) + Pieces(TextOf(after, s)) <==>
           Trim(Unterminated(TextOf(after, s))) == "")
  {
    LinesOfText(before + [FlushBoth] + after, s);
    ReceivedAtFlush(before, s);
    ReceivedAfterFlush(before + [FlushBoth], TextOf(before, s) + "\n", after, s);
    EndOfText(TextOf(before, s));
    EndOfText(TextOf(after, s));
    MoreText(TextOf(before, s) + "\n", TextOf(after, s));
    assert "" + TextOf(after, s) == TextOf(after, s);
  }

  /** The stream side of the process monitor: line buffers, the log file and the in-memory ring. */
  class StreamMonitor {
    var stdoutBuffer: string
    var stderrBuffer: string
    /** Lines handed to the log file, in order. */
    var log: seq<LogLine>
    const logBuffer: CircularBuffer<LogLine>
    /** Length of the log when the child was last started. */
    ghost var started: nat

    ghost predicate Valid()
      reads this, logBuffer, logBuffer.buffer
    {
      && logBuffer.Valid()
      && started <= |log|
      && logBuffer.history == log[started..]
    }

    function State(): Framer
      reads this
    {
      Framer(stdoutBuffer, stderrBuffer, log)
    }

    constructor (errorBufferSize: nat)
      requires errorBufferSize >= 1
      ensures Valid() && fresh(logBuffer) && fresh(logBuffer.buffer)
      ensures State() == Run([]) && started == 0
    {
      stdoutBuffer, stderrBuffer, log := "", "", [];
      started := 0;
      logBuffer := new CircularBuffer<LogLine>(errorBufferSize);
    }

    /** What `start` does to the buffers. */
    method ResetForStart()
      requires Valid()
      modifies this, logBuffer
      ensures Valid() && fresh(logBuffer.buffer)
      ensures State() == Framer("", "", old(log)) && started == |log|
    {
      logBuffer.Clear();
      stdoutBuffer := "";
      stderrBuffer := "";
      started := |log|;
    }

    method ProcessStreamData(data: string, s: Stream)
      requires Valid()
      modifies this, logBuffer, logBuffer.buffer
      ensures Valid() && logBuffer.buffer == old(logBuffer.buffer) && started == old(started)
      ensures State() == Feed(old(State()), data, s)
    {
      var lines := Split((if s == Stdout then stdoutBuffer else stderrBuffer) + data, '\n');
      if s == Stdout {
        stdoutBuffer := Last(lines);
      } else {
        stderrBuffer := Last(lines);
      }
      LogLines(Init(lines), s);
    }

    /** The loop of `processStreamData` over the complete lines. */
    method LogLines(lines: seq<string>, s: Stream)
      requires Valid()
      modifies this`log, logBuffer, logBuffer.buffer
      ensures Valid() && logBuffer.buffer == old(logBuffer.buffer)
      ensures log == Logged(old(log), lines, s)
    {
      for i := 0 to |lines|
        invariant Valid() && logBuffer.buffer == old(logBuffer.buffer)
        invariant log == Logged(old(log), lines[..i], s)
      {
        LoggedNext(old(log), lines, i, s);
        var trimmedLine := Trim(lines[i]);
        if trimmedLine != "" {
          Append(trimmedLine, s);
        }
      }
      assert lines[..|lines|] == lines;
    }

    method FlushStreamBuffers()
      requires Valid()
      modifies this, logBuffer, logBuffer.buffer
      ensures Valid() && logBuffer.buffer == old(logBuffer.buffer) && started == old(started)
      ensures State() == Flush(old(State()))
    {
      LoggedOne(log, stdoutBuffer, Stdout);
      LoggedOne(Logged(log, [stdoutBuffer], Stdout), stderrBuffer, Stderr);
      if Trim(stdoutBuffer) != "" {
        Append(Trim(stdoutBuffer), Stdout);
      }
      assert log == Logged(old(log), [stdoutBuffer], Stdout) && stdoutBuffer == old(stdoutBuffer);
      if Trim(stderrBuffer) != "" {
        Append(Trim(stderrBuffer), Stderr);
      }
      stdoutBuffer := "";
      stderrBuffer := "";
    }

    method Append(content: string, s: Stream)
      requires Valid()
      modifies this`log, logBuffer, logBuffer.buffer
      ensures Valid() && logBuffer.buffer == old(logBuffer.buffer)
      ensures log == old(log) + [LogLine(content, s)]
    {
      log := log + [LogLine(content, s)];
      logBuffer.Push(LogLine(content, s));
    }

    /** Recent logs are the newest lines framed since the child was started. */
    method GetRecentLogs(limit: nat) returns (lines: seq<LogLine>)
      requires Valid()
      ensures limit >= 1 ==>
        lines == LastN(log[started..], if limit < logBuffer.capacity then limit else logBuffer.capacity)
      ensures limit == 0 ==> lines == LastN(log[started..], logBuffer.capacity)
    {
      lines := logBuffer.Recent(limit);
    }
  }

  // ------------------------------------------------------- the NDJSON reader

  /** What the generator yields before it ends or throws: parsed values up to the first piece that is not JSON. */
  datatype Yielded<J> = Yielded(values: seq<J>, threw: bool)

  function ParseAll<J>(pieces: seq<string>, parse: string -> Option<J>): Yielded<J> {
    if pieces == [] then Yielded([], false)
    else
      match parse(pieces[0])
      case None => Yielded([], true)
      case Some(v) =>
        var rest := ParseAll(pieces[1..], parse);
        Yielded([v] + rest.values, rest.threw)
  }

  /** Parsing goes on after a prefix only when the prefix parsed. */
  lemma {:induction false} ParseConcat<J>(a: seq<string>, b: seq<string>, parse: string -> Option<J>)
    ensures
      var pa, pb := ParseAll(a, parse), ParseAll(b, parse);
      ParseAll(a + b, parse) == if pa.threw then pa else Yielded(pa.values + pb.values, pb.threw)
  {
    if a == [] {
      assert a + b == b;
    } else {
      assert (a + b)[1..] == a[1..] + b;
      ParseConcat(a[1..], b, parse);
    }
  }

  /** The lines a buffer completes, peeled one at a time. */
  lemma {:induction false} PeelLine(buffer: string, i: nat)
    requires i < |buffer| && buffer[i] == '\n' && '\n' !in buffer[..i]
    ensures CompleteLines(buffer) == Keep([buffer[..i]]) + CompleteLines(buffer[i + 1..])
    ensures Unterminated(buffer) == Unterminated(buffer[i + 1..])
  {
    SplitAtFirst(buffer, i, '\n');
    var rest := Split(buffer[i + 1..], '\n');
    assert Init([buffer[..i]] + rest) == [buffer[..i]] + Init(rest);
    KeepConcat([buffer[..i]], Init(rest));
  }

  function After<J>(values: seq<J>, y: Yielded<J>): Yielded<J> {
    Yielded(values + y.values, y.threw)
  }

  lemma {:induction false} AfterAfter<J>(a: seq<J>, b: seq<J>, y: Yielded<J>)
    ensures After(a, After(b, y)) == After(a + b, y)
  {
  }

  lemma {:induction false} PeelParse<J>(buffer: string, i: nat, parse: string -> Option<J>)
    requires i < |buffer| && buffer[i] == '\n' && '\n' !in buffer[..i]
    ensures Unterminated(buffer) == Unterminated(buffer[i + 1..])
    ensures
      var line, rest := Trim(buffer[..i]), ParseAll(CompleteLines(buffer[i + 1..]), parse);
      ParseAll(CompleteLines(buffer), parse) ==
        if line == "" then rest
        else if parse(line).None? then Yielded([], true)
        else After([parse(line).value], rest)
  {
    PeelLine(buffer, i);
    ParseConcat(Keep([buffer[..i]]), CompleteLines(buffer[i + 1..]), parse);
  }

  lemma {:induction false} NoLine(buffer: string)
    requires '\n' !in buffer
    ensures CompleteLines(buffer) == [] && Unterminated(buffer) == buffer
  {
    SplitNoSeparator(buffer, '\n');
  }

  /** Once a piece fails to parse, nothing that arrives later can change what was yielded. */
  lemma {:induction false} StopsHere<J>(
    past: string, future: string, parsed: seq<string>, more: seq<string>, parse: string -> Option<J>)
    requires CompleteLines(past) == parsed + more
    requires ParseAll(parsed, parse).threw
    ensures ParseAll(Pieces(past + future), parse) == ParseAll(parsed, parse)
  {
    EndOfText(past + future);
    MoreText(past, future);
    var rest := CompleteLines(Unterminated(past) + future) + Keep([Unterminated(past + future)]);
    assert Pieces(past + future) == parsed + (more + rest);
    ParseConcat(parsed, more + rest, parse);
  }

  /**
   The inner loop of `parseNdjsonStream` on one chunk: yields the parses of the lines the buffer completes and
   keeps the rest, or stops at the first line that is not JSON.
   */
  method DrainLines<J>(buffer0: string, parse: string -> Option<J>) returns (out: Yielded<J>, buffer: string)
    ensures out == ParseAll(CompleteLines(buffer0), parse)
    ensures !out.threw ==> buffer == Unterminated(buffer0)
  {
    buffer := buffer0;
    var values: seq<J> := [];
    var newline := IndexOf(buffer, '\n');
    while newline.Some?
      invariant newline == IndexOf(buffer, '\n')
      invariant ParseAll(CompleteLines(buffer0), parse) == After(values, ParseAll(CompleteLines(buffer), parse))
      invariant Unterminated(buffer0) == Unterminated(buffer)
      decreases |buffer|
    {
      PeelParse(buffer, newline.value, parse);
      var line := Trim(buffer[..newline.value]);
      buffer := buffer[newline.value + 1..];
      newline := IndexOf(buffer, '\n');
      if line != "" {
        var v := parse(line);
        if v.None? {
          return Yielded(values, true), buffer;
        }
        AfterAfter(values, [v.value], ParseAll(CompleteLines(buffer), parse));
        values := values + [v.value];
      }
    }
    NoLine(buffer);
    out := Yielded(values, false);
  }

  /**
   `parseNdjsonStream`, with `parse` standing for `JSON.parse`. Whatever the chunks, it yields the parses of the
   very pieces the process monitor would log for the same text, and throws at the first piece that is not JSON.
   */
  method ParseNdjsonStream<J>(chunks: seq<string>, parse: string -> Option<J>) returns (out: Yielded<J>)
    ensures out == ParseAll(Pieces(Flatten(chunks)), parse)
  {
    var buffer := "";
    var values: seq<J> := [];
    NoLine("");
    for i := 0 to |chunks|
      invariant ParseAll(CompleteLines(Flatten(chunks[..i])), parse) == Yielded(values, false)
      invariant buffer == Unterminated(Flatten(chunks[..i]))
    {
      ghost var past := Flatten(chunks[..i]);
      FlattenNext(chunks, i);
      FlattenSplit(chunks, i + 1);
      MoreText(past, chunks[i]);
      ParseConcat(CompleteLines(past), CompleteLines(buffer + chunks[i]), parse);
      var got, rest := DrainLines(buffer + chunks[i], parse);
      values := values + got.values;
      if got.threw {
        ghost var lines := CompleteLines(past + chunks[i]);
        assert lines == lines + [];
        StopsHere(past + chunks[i], Flatten(chunks[i + 1..]), lines, [], parse);
        return Yielded(values, true);
      }
      buffer := rest;
    }
    assert chunks[..|chunks|] == chunks;
    EndOfText(Flatten(chunks));
    ParseConcat(CompleteLines(Flatten(chunks)), Keep([buffer]), parse);
    var tail := Trim(buffer);
    if tail != "" {
      assert Keep([buffer]) == [tail];
      var v := parse(tail);
      if v.None? {
        return Yielded(values, true);
      }
      values := values + [v.value];
    }
    return Yielded(values, false);
  }

  lemma {:induction false} FlattenNext(chunks: seq<string>, i: nat)
    requires i < |chunks|
    ensures Flatten(chunks[..i + 1]) == Flatten(chunks[..i]) + chunks[i]
  {
    FlattenConcat(chunks[..i], [chunks[i]]);
    FlattenOne(chunks[i]);
    assert chunks[..i + 1] == chunks[..i] + [chunks[i]];
  }

  lemma {:induction false} FlattenOne(chunk: string)
    ensures Flatten([chunk]) == chunk
  {
  }

  lemma {:induction false} FlattenSplit(chunks: seq<string>, i: nat)
    requires i <= |chunks|
    ensures Flatten(chunks) == Flatten(chunks[..i]) + Flatten(chunks[i..])
  {
    assert chunks == chunks[..i] + chunks[i..];
    FlattenConcat(chunks[..i], chunks[i..]);
  }
}
