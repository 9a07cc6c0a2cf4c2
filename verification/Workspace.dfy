/**
 The client's copy of the workspace: a map overwritten by snapshots and single-file events. After any messages it holds
 for each path the last content written since the last snapshot, and the change events account for every difference.
 */
module Workspace {
  import opened Seqs
  import opened Sorting
  import opened Text

  /** A file as it comes over the wire; `Malformed` is anything without a string path and string contents. */
  datatype FileOutput = FileOutput(filePath: string, fileContents: string) | Malformed

  /** `agent_connected` and `cf_agent_state` carry a snapshot, `file_generated` and `file_regenerated` one file. */
  datatype Message = Snapshot(generated: seq<FileOutput>) | FileEvent(file: FileOutput) | Unrelated

  datatype Change = Reset(count: nat) | Upsert(path: string)

  // ----------------------------------------------------- the specification

  function Lookup(files: map<string, string>, path: string): Option<string> {
    if path in files then Some(files[path]) else None
  }

  /** The last content given for the path, if any. */
  function LastIn(generated: seq<FileOutput>, path: string): Option<string> {
    if generated == [] then None
    else if Last(generated).FileOutput? && Last(generated).filePath == path then Some(Last(generated).fileContents)
    else LastIn(Init(generated), path)
  }

  /** The last content written for the path since the last snapshot. */
  function LastWrite(messages: seq<Message>, path: string): Option<string> {
    if messages == [] then None
    else
      match Last(messages)
      case Unrelated => LastWrite(Init(messages), path)
      case Snapshot(generated) => LastIn(generated, path)
      case FileEvent(file) =>
        if file.FileOutput? && file.filePath == path then Some(file.fileContents) else LastWrite(Init(messages), path)
  }

  /** The last file of a snapshot with this path decides. */
  lemma {:induction false} LastInIs(generated: seq<FileOutput>, path: string) returns (i: int)
    ensures -1 <= i < |generated|
    ensures forall j :: i < j < |generated| ==> generated[j].Malformed? || generated[j].filePath != path
    ensures
      if i == -1 then LastIn(generated, path) == None
      else generated[i].FileOutput? && generated[i].filePath == path &&
           LastIn(generated, path) == Some(generated[i].fileContents)
  {
    if generated == [] {
      i := -1;
    } else if Last(generated).FileOutput? && Last(generated).filePath == path {
      i := |generated| - 1;
    } else {
      i := LastInIs(Init(generated), path);
    }
  }

  /** The message settles what the path holds: a snapshot does for every path, a file event for its own. */
  predicate Settles(m: Message, path: string) {
    m.Snapshot? || (m.FileEvent? && m.file.FileOutput? && m.file.filePath == path)
  }

  /** The last message that settles the path decides. */
  lemma {:induction false} LastWriteIs(messages: seq<Message>, path: string) returns (i: int)
    ensures -1 <= i < |messages|
    ensures forall j :: i < j < |messages| ==> !Settles(messages[j], path)
    ensures
      if i == -1 then LastWrite(messages, path) == None
      else
        Settles(messages[i], path) &&
        LastWrite(messages, path) ==
          if messages[i].Snapshot? then LastIn(messages[i].generated, path) else Some(messages[i].file.fileContents)
  {
    if messages == [] {
      i := -1;
    } else if Settles(Last(messages), path) {
      i := |messages| - 1;
    } else {
      i := LastWriteIs(Init(messages), path);
    }
  }

  ghost predicate Holds(files: map<string, string>, messages: seq<Message>) {
    forall path :: Lookup(files, path) == LastWrite(messages, path)
  }

  /** What a message announces when the store ends up with `files`. */
  function Announced(m: Message, files: map<string, string>): seq<Change> {
    match m
    case Unrelated => []
    case Snapshot(_) => [Reset(|files|)]
    case FileEvent(file) => if file.FileOutput? then [Upsert(file.filePath)] else []
  }

  /** Nothing but the announced paths can differ between the two contents. */
  ghost predicate Accounted(before: map<string, string>, changes: seq<Change>, after: map<string, string>) {
    || (exists n :: Reset(n) in changes)
    || forall path :: Lookup(before, path) != Lookup(after, path) ==> Upsert(path) in changes
  }

  /** Announced changes add up over a run: whatever differs in the end was announced on the way. */
  lemma {:induction false} AccountedConcat(
      a: map<string, string>, x: seq<Change>, b: map<string, string>, y: seq<Change>, c: map<string, string>)
    requires Accounted(a, x, b) && Accounted(b, y, c)
    ensures Accounted(a, x + y, c)
  {
  }

  // --------------------------------------------------------------- the store

  class WorkspaceStore {
    var files: map<string, string>
    ghost var received: seq<Message>
    ghost var emitted: seq<Change>

    ghost predicate Valid()
      reads this
    {
      Holds(files, received)
    }

    constructor ()
      ensures Valid() && received == [] && emitted == []
    {
      files, received, emitted := map[], [], [];
    }

    /** The default sort; `le` is the order of strings by code units. */
    method Paths(le: (string, string) -> bool) returns (r: seq<string>)
      requires TotalPreorder(le)
      ensures Sorted(r, le) && NoDuplicates(r)
      ensures forall path :: path in r <==> path in files
    {
      var keys := [];
      var left := files.Keys;
      while left != {}
        invariant left <= files.Keys && NoDuplicates(keys)
        invariant forall path :: path in keys <==> path in files.Keys - left
        decreases left
      {
        var path :| path in left;
        assert path !in keys;
        left := left - {path};
        keys := keys + [path];
      }
      r := StableSort(keys, le);
      SortSorted(keys, le);
      SortNoDuplicates(keys, le);
      SameElements(r, keys);
    }

    /** A snapshot replaces everything; of two files with one path the later wins. */
    method ApplyStateSnapshot(generated: seq<FileOutput>)
      modifies `files, `emitted
      ensures forall path :: Lookup(files, path) == LastIn(generated, path)
      ensures emitted == old(emitted) + [Reset(|files|)]
    {
      files := map[];
      for i := 0 to |generated|
        invariant forall path :: Lookup(files, path) == LastIn(generated[..i], path)
        invariant emitted == old(emitted)
      {
        var f := generated[i];
        assert Init(generated[..i + 1]) == generated[..i] && Last(generated[..i + 1]) == f;
        if f.FileOutput? {
          files := files[f.filePath := f.fileContents];
        }
      }
      assert generated[..|generated|] == generated;
      emitted := emitted + [Reset(|files|)];
    }

    method ApplyFileUpsert(file: FileOutput)
      modifies `files, `emitted
      ensures files == if file.FileOutput? then old(files)[file.filePath := file.fileContents] else old(files)
      ensures emitted == old(emitted) + if file.FileOutput? then [Upsert(file.filePath)] else []
    {
      if file.Malformed? {
        return;
      }
      files := files[file.filePath := file.fileContents];
      emitted := emitted + [Upsert(file.filePath)];
    }

    /** Keeps the contents equal to the last writes, and announces every path that changes. */
    method ApplyWsMessage(m: Message)
      requires Valid()
      modifies this
      ensures Valid() && received == old(received) + [m]
      ensures emitted == old(emitted) + Announced(m, files)
      ensures Accounted(old(files), Announced(m, files), files)
    {
      received := received + [m];
      assert Init(received) == old(received) && Last(received) == m;
      match m {
        case Unrelated =>
        case Snapshot(generated) =>
          ApplyStateSnapshot(generated);
          assert Reset(|files|) in Announced(m, files);
        case FileEvent(file) =>
          ApplyFileUpsert(file);
      }
      assert Announced(m, files) == emitted[|old(emitted)|..];
      forall path ensures Lookup(files, path) == LastWrite(received, path) {
        assert Lookup(old(files), path) == LastWrite(old(received), path);
      }
    }
  }
}
