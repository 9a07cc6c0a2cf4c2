/**
 The file tree: paths are inserted one by one into a trie, which is then flattened in sorted order. The result is
 compared with a direct definition that groups the paths by their first segment.
 */
module FileTree {
  import opened Seqs
  import opened Sorting
  import opened Text

  datatype FileNode = FileNode(name: string, path: string)

  /** The trie: subdirectories and files in insertion order. */
  datatype Dir = Dir(name: string, path: string, dirs: seq<Dir>, files: seq<FileNode>)

  datatype Node = FileLeaf(name: string, path: string) | DirNode(name: string, path: string, children: seq<Node>)

  /** A path together with its segments below the directory at hand. */
  datatype Entry = Entry(segments: seq<string>, path: string)

  function NonEmpty(): string -> bool {
    s => s != ""
  }

  function Segments(p: string): seq<string> {
    Filter(Split(p, '/'), NonEmpty())
  }

  function JoinPath(dir: string, name: string): string {
    if dir != "" then dir + "/" + name else name
  }

  // ------------------------------------------------------------ the source

  /** `dirs.get(name)`: the position of the subdirectory, if there is one. */
  function FindDir(dirs: seq<Dir>, name: string): (r: Option<nat>)
    ensures r.Some? ==> r.value < |dirs| && dirs[r.value].name == name
    ensures r.None? ==> forall i :: 0 <= i < |dirs| ==> dirs[i].name != name
  {
    if dirs == [] then None
    else if dirs[0].name == name then Some(0)
    else match FindDir(dirs[1..], name) case None => None case Some(i) => Some(i + 1)
  }

  /** The inner loop: walk down the segments, creating directories, and add the file at the end. */
  function InsertPath(dir: Dir, segments: seq<string>, path: string): Dir
    decreases |segments|
  {
    if segments == [] then dir
    else if |segments| == 1 then dir.(files := dir.files + [FileNode(segments[0], path)])
    else
      var part := segments[0];
      match FindDir(dir.dirs, part)
      case Some(i) => dir.(dirs := dir.dirs[i := InsertPath(dir.dirs[i], segments[1..], path)])
      case None =>
        dir.(dirs := dir.dirs + [InsertPath(Dir(part, JoinPath(dir.path, part), [], []), segments[1..], path)])
  }

  type Order = (string, string) -> bool

  function ByDirName(le: Order): (Dir, Dir) -> bool {
    (a: Dir, b: Dir) => le(a.name, b.name)
  }

  function ByFileName(le: Order): (FileNode, FileNode) -> bool {
    (a: FileNode, b: FileNode) => le(a.name, b.name)
  }

  function Leaf(): FileNode -> Node {
    (f: FileNode) => FileLeaf(f.name, f.path)
  }

  /** `le(a, b)` stands for `a.localeCompare(b) <= 0`. */
  function ToNodes(dir: Dir, le: Order): seq<Node>
    decreases dir, 1
  {
    DirNodes(dir, le) + FileNodes(dir.files, le)
  }

  function DirNodes(dir: Dir, le: Order): (r: seq<Node>)
    ensures |r| == |dir.dirs|
    decreases dir, 0
  {
    var sorted := StableSort(dir.dirs, ByDirName(le));
    seq(|sorted|, i requires 0 <= i < |sorted| =>
      assert sorted[i] in multiset(sorted);
      assert sorted[i] in dir.dirs;
      DirNode(sorted[i].name, sorted[i].path, ToNodes(sorted[i], le)))
  }

  function FileNodes(files: seq<FileNode>, le: Order): seq<Node> {
    Map(StableSort(files, ByFileName(le)), Leaf())
  }

  const EMPTY_ROOT := Dir("", "", [], [])

  function EntryOf(): string -> Entry {
    p => Entry(Segments(p), p)
  }

  function Entries(paths: seq<string>): seq<Entry> {
    Map(paths, EntryOf())
  }

  function InsertAll(dir: Dir, entries: seq<Entry>): Dir {
    if entries == [] then dir
    else
      var last := entries[|entries| - 1];
      InsertPath(InsertAll(dir, entries[..|entries| - 1]), last.segments, last.path)
  }

  lemma {:induction false} InsertAllAppend(dir: Dir, entries: seq<Entry>, e: Entry)
    ensures InsertAll(dir, entries + [e]) == InsertPath(InsertAll(dir, entries), e.segments, e.path)
  {
  }

  method BuildFileTree(paths: seq<string>, le: Order) returns (nodes: seq<Node>)
    ensures nodes == Grouped(Entries(paths), "", le)
  {
    var root := EMPTY_ROOT;
    for i := 0 to |paths|
      invariant root == InsertAll(EMPTY_ROOT, Entries(paths[..i]))
    {
      EntriesNext(paths, i);
      var parts := Segments(paths[i]);
      root := InsertPath(root, parts, paths[i]);
    }
    assert paths[..|paths|] == paths;
    TrieRepresents(Entries(paths));
    NodesAreGrouped(root, Entries(paths), le);
    nodes := ToNodes(root, le);
  }

  lemma {:induction false} EntriesNext(paths: seq<string>, i: nat)
    requires i < |paths|
    ensures
      InsertAll(EMPTY_ROOT, Entries(paths[..i + 1])) ==
      InsertPath(InsertAll(EMPTY_ROOT, Entries(paths[..i])), Segments(paths[i]), paths[i])
  {
    assert paths[..i + 1] == paths[..i] + [paths[i]];
    MapConcat(paths[..i], [paths[i]], EntryOf());
    InsertAllAppend(EMPTY_ROOT, Entries(paths[..i]), EntryOf()(paths[i]));
  }

  // ------------------------------------------------- the direct definition

  /** The files directly in the directory. */
  function FileOf(): Entry -> seq<FileNode> {
    (e: Entry) => if |e.segments| == 1 then [FileNode(e.segments[0], e.path)] else []
  }

  function HeadOf(): Entry -> seq<string> {
    (e: Entry) => if |e.segments| >= 2 then [e.segments[0]] else []
  }

  /** What lies below the subdirectory `name`. */
  function Below(name: string): Entry -> seq<Entry> {
    (e: Entry) => if |e.segments| >= 2 && e.segments[0] == name then [Entry(e.segments[1..], e.path)] else []
  }

  function Files(entries: seq<Entry>): seq<FileNode> {
    FlatMap(entries, FileOf())
  }

  /** The names of the subdirectories, in the order in which they first occur. */
  function Heads(entries: seq<Entry>): seq<string> {
    Dedup(FlatMap(entries, HeadOf()))
  }

  function Children(entries: seq<Entry>, name: string): seq<Entry> {
    FlatMap(entries, Below(name))
  }

  function Depth(entries: seq<Entry>): nat {
    if entries == [] then 0
    else if |entries[0].segments| > Depth(entries[1..]) then |entries[0].segments|
    else Depth(entries[1..])
  }

  lemma {:induction false} DepthBounds(entries: seq<Entry>, e: Entry)
    requires e in entries
    ensures |e.segments| <= Depth(entries)
  {
    if e != entries[0] {
      DepthBounds(entries[1..], e);
    }
  }

  lemma {:induction false} ChildrenShallower(entries: seq<Entry>, name: string)
    ensures Depth(entries) > 0 ==> Depth(Children(entries, name)) < Depth(entries)
    ensures Depth(entries) == 0 ==> Children(entries, name) == []
  {
    if entries != [] {
      ChildrenShallower(entries[1..], name);
      var e := entries[0];
      if |e.segments| >= 2 && e.segments[0] == name {
        var c := Entry(e.segments[1..], e.path);
        assert Children(entries, name) == [c] + Children(entries[1..], name);
        assert ([c] + Children(entries[1..], name))[1..] == Children(entries[1..], name);
      } else {
        assert Children(entries, name) == Children(entries[1..], name);
      }
    }
  }

  lemma {:induction false} HeadsExist(entries: seq<Entry>, name: string)
    ensures name in Heads(entries) <==> exists e :: e in entries && |e.segments| >= 2 && e.segments[0] == name
    ensures name in Heads(entries) ==> Depth(entries) > 0
    ensures name !in Heads(entries) ==> Children(entries, name) == []
  {
    if name in FlatMap(entries, HeadOf()) {
      var e := FlatMapOrigin(entries, HeadOf(), name);
      DepthBounds(entries, e);
    }
    if e :| e in entries && |e.segments| >= 2 && e.segments[0] == name {
      FlatMapMember(entries, HeadOf(), e, name);
    }
    if Children(entries, name) != [] {
      var e := FlatMapOrigin(entries, Below(name), Children(entries, name)[0]);
      FlatMapMember(entries, HeadOf(), e, name);
    }
  }

  /** Subdirectories by sorted first segment, then files by sorted name. */
  function Grouped(entries: seq<Entry>, dirPath: string, le: Order): seq<Node>
    decreases Depth(entries), 2
  {
    GroupedDirs(entries, dirPath, le) + FileNodes(Files(entries), le)
  }

  function GroupedDirs(entries: seq<Entry>, dirPath: string, le: Order): (r: seq<Node>)
    ensures |r| == |Heads(entries)|
    decreases Depth(entries), 1
  {
    var names := StableSort(Heads(entries), le);
    seq(|names|, i requires 0 <= i < |names| => GroupedDir(entries, names[i], dirPath, le))
  }

  function GroupedDir(entries: seq<Entry>, name: string, dirPath: string, le: Order): Node
    decreases Depth(entries), 0
  {
    ChildrenShallower(entries, name);
    var path := JoinPath(dirPath, name);
    DirNode(name, path, if Depth(entries) == 0 then [] else Grouped(Children(entries, name), path, le))
  }

  // ------------------------------------- the trie computes the direct form

  /** The trie holds exactly `entries`: same files, same subdirectories in the same order, recursively. */
  ghost predicate Represents(d: Dir, entries: seq<Entry>)
    decreases d, 1
  {
    d.files == Files(entries) && DirsMatch(d.dirs, d.path, Heads(entries), entries)
  }

  /** The directories are the subdirectories of `entries` with the given names. */
  ghost predicate DirsMatch(dirs: seq<Dir>, path: string, heads: seq<string>, entries: seq<Entry>)
    decreases dirs, 0
  {
    && |dirs| == |heads|
    && forall i :: 0 <= i < |dirs| ==>
         IsSubdir(dirs[i], path, heads[i]) && Represents(dirs[i], Children(entries, heads[i]))
  }

  predicate IsSubdir(d: Dir, parentPath: string, name: string) {
    d.name == name && d.path == JoinPath(parentPath, name)
  }

  lemma {:induction false} AppendEntry(entries: seq<Entry>, e: Entry, name: string)
    ensures Files(entries + [e]) == Files(entries) + FileOf()(e)
    ensures Children(entries + [e], name) == Children(entries, name) + Below(name)(e)
    ensures Heads(entries + [e]) ==
      if |e.segments| >= 2 && e.segments[0] !in Heads(entries) then Heads(entries) + [e.segments[0]] else Heads(entries)
  {
    FlatMapAppend(entries, e, FileOf());
    FlatMapAppend(entries, e, Below(name));
    FlatMapAppend(entries, e, HeadOf());
    var heads := FlatMap(entries, HeadOf());
    if |e.segments| >= 2 {
      assert (heads + [e.segments[0]])[..|heads|] == heads;
    } else {
      assert heads + [] == heads;
    }
  }

  lemma {:induction false} InsertRepresents(d: Dir, entries: seq<Entry>, e: Entry)
    requires Represents(d, entries)
    ensures
      var r := InsertPath(d, e.segments, e.path);
      r.name == d.name && r.path == d.path && Represents(r, entries + [e])
    decreases |e.segments|
  {
    var r := InsertPath(d, e.segments, e.path);
    if |e.segments| < 2 {
      AppendEntry(entries, e, "");
      DirsMatchKeep(d.dirs, d.path, Heads(entries), entries, e);
    } else {
      InsertBelow(d, entries, e);
    }
  }

  lemma {:induction false} InsertBelow(d: Dir, entries: seq<Entry>, e: Entry)
    requires Represents(d, entries) && |e.segments| >= 2
    ensures
      var r := InsertPath(d, e.segments, e.path);
      r.name == d.name && r.path == d.path && Represents(r, entries + [e])
    decreases |e.segments|, 0
  {
    var part, sub := e.segments[0], Entry(e.segments[1..], e.path);
    match FindDir(d.dirs, part)
    case Some(k) =>
      assert d.dirs[k].name == Heads(entries)[k] == part;
      InsertRepresents(d.dirs[k], Children(entries, part), sub);
      ReplaceSubdir(d, entries, e, k, InsertPath(d.dirs[k], sub.segments, e.path));
    case None =>
      NewHead(d, entries, part);
      var empty := Dir(part, JoinPath(d.path, part), [], []);
      assert Represents(empty, []);
      InsertRepresents(empty, [], sub);
      assert [] + [sub] == [sub];
      AddSubdir(d, entries, e, InsertPath(empty, sub.segments, e.path));
  }

  lemma {:induction false} NewHead(d: Dir, entries: seq<Entry>, part: string)
    requires Represents(d, entries) && FindDir(d.dirs, part).None?
    ensures part !in Heads(entries) && Children(entries, part) == []
  {
    forall k | 0 <= k < |Heads(entries)| ensures Heads(entries)[k] != part {
      assert d.dirs[k].name == Heads(entries)[k];
    }
    HeadsExist(entries, part);
  }

  lemma {:induction false} OtherChildren(entries: seq<Entry>, e: Entry, name: string)
    requires |e.segments| < 2 || e.segments[0] != name
    ensures Children(entries + [e], name) == Children(entries, name)
  {
    AppendEntry(entries, e, name);
    assert Children(entries, name) + [] == Children(entries, name);
  }

  /** An entry below none of the directories leaves them as they are. */
  lemma {:induction false} DirsMatchKeep(
    dirs: seq<Dir>, path: string, heads: seq<string>, entries: seq<Entry>, e: Entry)
    requires DirsMatch(dirs, path, heads, entries)
    requires |e.segments| < 2 || e.segments[0] !in heads
    ensures DirsMatch(dirs, path, heads, entries + [e])
  {
    forall i | 0 <= i < |dirs| ensures Represents(dirs[i], Children(entries + [e], heads[i])) {
      OtherChildren(entries, e, heads[i]);
    }
  }

  lemma {:induction false} DirsMatchAdd(dirs: seq<Dir>, path: string, heads: seq<string>, entries: seq<Entry>,
                                        child: Dir, name: string)
    requires DirsMatch(dirs, path, heads, entries)
    requires IsSubdir(child, path, name) && Represents(child, Children(entries, name))
    ensures DirsMatch(dirs + [child], path, heads + [name], entries)
  {
    var all, names := dirs + [child], heads + [name];
    forall i | 0 <= i < |all|
      ensures IsSubdir(all[i], path, names[i]) && Represents(all[i], Children(entries, names[i]))
    {
      if i < |dirs| {
        assert all[i] == dirs[i] && names[i] == heads[i];
      }
    }
  }

  /** An entry below directory `k` changes that directory only. */
  lemma {:induction false} DirsMatchReplace(dirs: seq<Dir>, path: string, heads: seq<string>, entries: seq<Entry>,
                                            e: Entry, k: nat, child: Dir)
    requires DirsMatch(dirs, path, heads, entries) && NoDuplicates(heads)
    requires |e.segments| >= 2 && k < |heads| && heads[k] == e.segments[0]
    requires IsSubdir(child, path, heads[k]) && Represents(child, Children(entries + [e], heads[k]))
    ensures DirsMatch(dirs[k := child], path, heads, entries + [e])
  {
    var next := dirs[k := child];
    forall i | 0 <= i < |next|
      ensures IsSubdir(next[i], path, heads[i]) && Represents(next[i], Children(entries + [e], heads[i]))
    {
      if i != k {
        assert next[i] == dirs[i] && heads[i] != heads[k];
        OtherChildren(entries, e, heads[i]);
      }
    }
  }

  lemma {:induction false} ReplaceSubdir(d: Dir, entries: seq<Entry>, e: Entry, k: nat, child: Dir)
    requires Represents(d, entries) && |e.segments| >= 2 && k < |d.dirs| == |Heads(entries)|
    requires Heads(entries)[k] == e.segments[0]
    requires IsSubdir(child, d.path, e.segments[0])
    requires Represents(child, Children(entries, e.segments[0]) + [Entry(e.segments[1..], e.path)])
    ensures Represents(d.(dirs := d.dirs[k := child]), entries + [e])
  {
    AppendEntry(entries, e, e.segments[0]);
    assert d.files + [] == d.files;
    DirsMatchReplace(d.dirs, d.path, Heads(entries), entries, e, k, child);
  }

  lemma {:induction false} AddSubdir(d: Dir, entries: seq<Entry>, e: Entry, child: Dir)
    requires Represents(d, entries) && |e.segments| >= 2
    requires e.segments[0] !in Heads(entries) && Children(entries, e.segments[0]) == []
    requires IsSubdir(child, d.path, e.segments[0])
    requires Represents(child, [Entry(e.segments[1..], e.path)])
    ensures Represents(d.(dirs := d.dirs + [child]), entries + [e])
  {
    AppendEntry(entries, e, e.segments[0]);
    assert d.files + [] == d.files;
    assert [] + [Entry(e.segments[1..], e.path)] == [Entry(e.segments[1..], e.path)];
    DirsMatchKeep(d.dirs, d.path, Heads(entries), entries, e);
    DirsMatchAdd(d.dirs, d.path, Heads(entries), entries + [e], child, e.segments[0]);
  }

  lemma {:induction false} TrieRepresents(entries: seq<Entry>)
    ensures Represents(InsertAll(EMPTY_ROOT, entries), entries)
    ensures InsertAll(EMPTY_ROOT, entries).path == ""
  {
    if entries != [] {
      var front, e := entries[..|entries| - 1], entries[|entries| - 1];
      TrieRepresents(front);
      InsertRepresents(InsertAll(EMPTY_ROOT, front), front, e);
      assert front + [e] == entries;
    }
  }

  function NameOf(): Dir -> string {
    (d: Dir) => d.name
  }

  lemma {:induction false} InsertByName(d: Dir, dirs: seq<Dir>, le: Order)
    ensures Map(Insert(d, dirs, ByDirName(le)), NameOf()) == Insert(d.name, Map(dirs, NameOf()), le)
  {
    if dirs != [] && !le(d.name, dirs[0].name) {
      InsertByName(d, dirs[1..], le);
      assert Map(dirs, NameOf())[1..] == Map(dirs[1..], NameOf());
      var r := Insert(d, dirs[1..], ByDirName(le));
      assert ([dirs[0]] + r)[1..] == r;
    } else {
      assert ([d] + dirs)[1..] == dirs;
    }
  }

  /** Sorting directories by name and taking the names is sorting the names. */
  lemma {:induction false} SortByName(dirs: seq<Dir>, le: Order)
    ensures Map(StableSort(dirs, ByDirName(le)), NameOf()) == StableSort(Map(dirs, NameOf()), le)
  {
    if dirs != [] {
      SortByName(dirs[1..], le);
      InsertByName(dirs[0], StableSort(dirs[1..], ByDirName(le)), le);
      assert Map(dirs, NameOf())[1..] == Map(dirs[1..], NameOf());
    }
  }

  lemma {:induction false} NodesAreGrouped(d: Dir, entries: seq<Entry>, le: Order)
    requires Represents(d, entries)
    ensures ToNodes(d, le) == Grouped(entries, d.path, le)
    decreases d, 2
  {
    DirNodesAreGrouped(d, entries, le);
    assert d.files == Files(entries);
  }

  lemma {:induction false} DirNodesAreGrouped(d: Dir, entries: seq<Entry>, le: Order)
    requires Represents(d, entries)
    ensures DirNodes(d, le) == GroupedDirs(entries, d.path, le)
    decreases d, 1
  {
    var x, y := DirNodes(d, le), GroupedDirs(entries, d.path, le);
    assert |x| == |y|;
    forall k | 0 <= k < |x| ensures x[k] == y[k] {
      DirNodeIsGrouped(d, entries, k, le);
    }
  }

  lemma {:induction false} DirNodeIsGrouped(d: Dir, entries: seq<Entry>, k: nat, le: Order)
    requires Represents(d, entries) && k < |d.dirs| == |Heads(entries)|
    ensures DirNodes(d, le)[k] == GroupedDirs(entries, d.path, le)[k]
    decreases d, 0
  {
    var sorted := StableSort(d.dirs, ByDirName(le));
    SortedNames(d, entries, le);
    assert sorted[k] in multiset(sorted);
    SubdirOf(d, entries, sorted[k]);
    NodesAreGrouped(sorted[k], Children(entries, sorted[k].name), le);
    assert sorted[k].name == Map(sorted, NameOf())[k];
  }

  lemma {:induction false} SortedNames(d: Dir, entries: seq<Entry>, le: Order)
    requires Represents(d, entries)
    ensures Map(StableSort(d.dirs, ByDirName(le)), NameOf()) == StableSort(Heads(entries), le)
  {
    assert Map(d.dirs, NameOf()) == Heads(entries) by {
      forall i | 0 <= i < |d.dirs| ensures d.dirs[i].name == Heads(entries)[i] {
        assert IsSubdir(d.dirs[i], d.path, Heads(entries)[i]);
      }
    }
    SortByName(d.dirs, le);
  }

  lemma {:induction false} SubdirOf(d: Dir, entries: seq<Entry>, sub: Dir)
    requires Represents(d, entries) && sub in d.dirs
    ensures sub.path == JoinPath(d.path, sub.name) && Represents(sub, Children(entries, sub.name))
    ensures sub.name in Heads(entries) && Depth(entries) > 0
  {
    var i :| 0 <= i < |d.dirs| && d.dirs[i] == sub;
    assert IsSubdir(d.dirs[i], d.path, Heads(entries)[i]);
    HeadsExist(entries, sub.name);
  }
}
