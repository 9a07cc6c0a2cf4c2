/**
 What the file tree is for: it loses no path, its shape is canonical, and when it does not depend on input order. All
 laws are about the direct grouping of the entries by first segment, which the trie is proved to compute.
 */
module FileTreeLaws {
  import opened Seqs
  import opened Sorting
  import opened Text
  import opened FileTree

  // ---------------------------------------------------------------- leaves

  function Under(name: string): Entry -> Entry {
    (e: Entry) => Entry([name] + e.segments, e.path)
  }

  /** The leaves of a forest, each with the directory names along its route followed by its own name. */
  function Leaves(nodes: seq<Node>): seq<Entry> {
    if nodes == [] then [] else LeavesOf(nodes[0]) + Leaves(nodes[1..])
  }

  function LeavesOf(node: Node): seq<Entry> {
    match node
    case FileLeaf(name, path) => [Entry([name], path)]
    case DirNode(name, _, children) => Map(Leaves(children), Under(name))
  }

  function HasSegments(): Entry -> bool {
    (e: Entry) => e.segments != []
  }

  function IsFile(): Entry -> bool {
    (e: Entry) => |e.segments| == 1
  }

  function IsBelow(): Entry -> bool {
    (e: Entry) => |e.segments| >= 2
  }

  function HeadIs(name: string): Entry -> bool {
    (e: Entry) => |e.segments| >= 2 && e.segments[0] == name
  }

  function HeadIn(names: seq<string>): Entry -> bool {
    (e: Entry) => |e.segments| >= 2 && e.segments[0] in names
  }

  function FileEntry(): FileNode -> Entry {
    (f: FileNode) => Entry([f.name], f.path)
  }

  lemma {:induction false} LeavesConcat(a: seq<Node>, b: seq<Node>)
    ensures Leaves(a + b) == Leaves(a) + Leaves(b)
  {
    if a == [] {
      assert a + b == b;
    } else {
      assert (a + b)[1..] == a[1..] + b;
      LeavesConcat(a[1..], b);
    }
  }

  lemma {:induction false} LeavesOfFiles(files: seq<FileNode>)
    ensures Leaves(Map(files, Leaf())) == Map(files, FileEntry())
  {
    if files != [] {
      LeavesOfFiles(files[1..]);
      assert Map(files, Leaf())[1..] == Map(files[1..], Leaf());
    }
  }

  lemma {:induction false} FilesAreEntries(entries: seq<Entry>)
    ensures Map(Files(entries), FileEntry()) == Filter(entries, IsFile())
  {
    if entries != [] {
      FilesAreEntries(entries[1..]);
      var first := FileOf()(entries[0]);
      MapConcat(first, Files(entries[1..]), FileEntry());
      if |entries[0].segments| == 1 {
        assert [entries[0].segments[0]] == entries[0].segments;
      }
    }
  }

  /** Prefixing what lies below `name` with `name` gives the entries that start with it. */
  lemma {:induction false} ChildrenAreEntries(entries: seq<Entry>, name: string)
    ensures Map(Children(entries, name), Under(name)) == Filter(entries, HeadIs(name))
  {
    if entries != [] {
      ChildrenAreEntries(entries[1..], name);
      var first := Below(name)(entries[0]);
      MapConcat(first, Children(entries[1..], name), Under(name));
      if |entries[0].segments| >= 2 && entries[0].segments[0] == name {
        assert [name] + entries[0].segments[1..] == entries[0].segments;
      }
    }
  }

  lemma {:induction false} ChildrenHaveSegments(entries: seq<Entry>, name: string)
    ensures Filter(Children(entries, name), HasSegments()) == Children(entries, name)
  {
    forall c | c in Children(entries, name) ensures HasSegments()(c) {
      var e := FlatMapOrigin(entries, Below(name), c);
    }
    FilterAll(Children(entries, name), HasSegments());
  }

  /** The leaves below `node` are the entries whose first segment is `name`. */
  predicate HoldsHead(node: Node, name: string, entries: seq<Entry>) {
    multiset(LeavesOf(node)) == multiset(Filter(entries, HeadIs(name)))
  }

  lemma {:induction false} HeadInSplit(entries: seq<Entry>, names: seq<string>)
    requires names != [] && NoDuplicates(names)
    ensures
      multiset(Filter(entries, HeadIn(names))) ==
      multiset(Filter(entries, HeadIs(names[0]))) + multiset(Filter(entries, HeadIn(names[1..])))
  {
    assert names == [names[0]] + names[1..];
    assert names[0] !in names[1..];
    FilterSplit(entries, HeadIn(names), HeadIs(names[0]), HeadIn(names[1..]));
  }

  lemma {:induction false} LeavesOfDirs(nodes: seq<Node>, names: seq<string>, entries: seq<Entry>)
    requires |nodes| == |names| && NoDuplicates(names)
    requires forall i :: 0 <= i < |nodes| ==> HoldsHead(nodes[i], names[i], entries)
    ensures multiset(Leaves(nodes)) == multiset(Filter(entries, HeadIn(names)))
  {
    if nodes == [] {
      FilterNone(entries, HeadIn(names));
    } else {
      assert HoldsHead(nodes[0], names[0], entries);
      LeavesOfDirs(nodes[1..], names[1..], entries);
      HeadInSplit(entries, names);
    }
  }

  lemma {:induction false} FileLeaves(entries: seq<Entry>, le: Order)
    ensures multiset(Leaves(FileNodes(Files(entries), le))) == multiset(Filter(entries, IsFile()))
  {
    var sorted := StableSort(Files(entries), ByFileName(le));
    LeavesOfFiles(sorted);
    MapPermutation(sorted, Files(entries), FileEntry());
    FilesAreEntries(entries);
  }

  lemma {:induction false} DirLeaves(entries: seq<Entry>, dirPath: string, le: Order)
    ensures multiset(Leaves(GroupedDirs(entries, dirPath, le))) == multiset(Filter(entries, IsBelow()))
    decreases Depth(entries), 1
  {
    var names := StableSort(Heads(entries), le);
    SameElements(names, Heads(entries));
    SortNoDuplicates(Heads(entries), le);
    var nodes := GroupedDirs(entries, dirPath, le);
    forall i | 0 <= i < |nodes| ensures HoldsHead(nodes[i], names[i], entries) {
      DirAt(entries, dirPath, i, le);
      DirNodeLeaves(entries, names[i], dirPath, le);
    }
    LeavesOfDirs(nodes, names, entries);
    forall e | e in entries ensures HeadIn(names)(e) <==> IsBelow()(e) {
      if |e.segments| >= 2 {
        HeadsExist(entries, e.segments[0]);
      }
    }
    FilterSame(entries, HeadIn(names), IsBelow());
  }

  lemma {:induction false} DirNodeLeaves(entries: seq<Entry>, name: string, dirPath: string, le: Order)
    requires name in Heads(entries)
    ensures HoldsHead(GroupedDir(entries, name, dirPath, le), name, entries)
    decreases Depth(entries), 0
  {
    var below := Children(entries, name);
    HeadsExist(entries, name);
    ChildrenShallower(entries, name);
    var path := JoinPath(dirPath, name);
    LeavesAreTheEntries(below, path, le);
    ChildrenHaveSegments(entries, name);
    MapPermutation(Leaves(Grouped(below, path, le)), below, Under(name));
    ChildrenAreEntries(entries, name);
  }

  /** The tree loses nothing and adds nothing: its leaves, with their routes, are the entries that have a segment. */
  lemma {:induction false} LeavesAreTheEntries(entries: seq<Entry>, dirPath: string, le: Order)
    ensures multiset(Leaves(Grouped(entries, dirPath, le))) == multiset(Filter(entries, HasSegments()))
    decreases Depth(entries), 2
  {
    LeavesConcat(GroupedDirs(entries, dirPath, le), FileNodes(Files(entries), le));
    DirLeaves(entries, dirPath, le);
    FileLeaves(entries, le);
    FilterSplit(entries, HasSegments(), IsBelow(), IsFile());
  }

  // -------------------------------------------------------- canonical shape

  /** Directories come before files; sibling directories differ in name; both run in the order of their names. */
  predicate Before(a: Node, b: Node, le: Order) {
    match (a, b)
    case (DirNode(m, _, _), DirNode(n, _, _)) => m != n && le(m, n)
    case (DirNode(_, _, _), FileLeaf(_, _)) => true
    case (FileLeaf(_, _), DirNode(_, _, _)) => false
    case (FileLeaf(m, _), FileLeaf(n, _)) => le(m, n)
  }

  /** Each directory has children, and its path is its parent's path with its name added. */
  ghost predicate Canonical(nodes: seq<Node>, dirPath: string, le: Order) {
    && (forall i, j :: 0 <= i < j < |nodes| ==> Before(nodes[i], nodes[j], le))
    && forall i :: 0 <= i < |nodes| ==> CanonicalNode(nodes[i], dirPath, le)
  }

  ghost predicate CanonicalNode(node: Node, dirPath: string, le: Order) {
    node.DirNode? ==>
      && node.path == (if dirPath == "" then node.name else dirPath + "/" + node.name)
      && node.children != [] && Canonical(node.children, node.path, le)
  }

  lemma {:induction false} FileOrderPreorder(le: Order)
    requires TotalPreorder(le)
    ensures TotalPreorder(ByFileName(le))
  {
    var order := ByFileName(le);
    forall x: FileNode, y: FileNode ensures order(x, y) || order(y, x) {
      assert le(x.name, y.name) || le(y.name, x.name);
    }
    forall x: FileNode, y: FileNode, z: FileNode | order(x, y) && order(y, z) ensures order(x, z) {
      assert le(x.name, y.name) && le(y.name, z.name);
    }
  }

  ghost predicate InOrder(nodes: seq<Node>, le: Order) {
    forall i, j :: 0 <= i < j < |nodes| ==> Before(nodes[i], nodes[j], le)
  }

  lemma {:induction false} DirAt(entries: seq<Entry>, dirPath: string, k: nat, le: Order)
    requires k < |Heads(entries)|
    ensures
      var name := StableSort(Heads(entries), le)[k];
      && name in Heads(entries)
      && GroupedDirs(entries, dirPath, le)[k] == GroupedDir(entries, name, dirPath, le)
      && GroupedDirs(entries, dirPath, le)[k].DirNode?
      && GroupedDirs(entries, dirPath, le)[k].name == name
  {
    assert StableSort(Heads(entries), le)[k] in multiset(StableSort(Heads(entries), le));
  }

  lemma {:induction false} DirsInOrder(entries: seq<Entry>, dirPath: string, le: Order)
    requires TotalPreorder(le)
    ensures InOrder(GroupedDirs(entries, dirPath, le), le)
  {
    var names, dirs := StableSort(Heads(entries), le), GroupedDirs(entries, dirPath, le);
    SortSorted(Heads(entries), le);
    SortNoDuplicates(Heads(entries), le);
    forall i, j | 0 <= i < j < |dirs| ensures Before(dirs[i], dirs[j], le) {
      DirAt(entries, dirPath, i, le);
      DirAt(entries, dirPath, j, le);
      assert names[i] != names[j] && le(names[i], names[j]);
    }
  }

  lemma {:induction false} FilesInOrder(files: seq<FileNode>, le: Order)
    requires TotalPreorder(le)
    ensures InOrder(FileNodes(files, le), le)
  {
    var sorted := StableSort(files, ByFileName(le));
    FileOrderPreorder(le);
    SortSorted(files, ByFileName(le));
    forall i, j | 0 <= i < j < |sorted| ensures Before(Leaf()(sorted[i]), Leaf()(sorted[j]), le) {
      assert ByFileName(le)(sorted[i], sorted[j]);
    }
  }

  lemma {:induction false} CanonicalConcat(dirs: seq<Node>, files: seq<Node>, dirPath: string, le: Order)
    requires InOrder(dirs, le) && InOrder(files, le)
    requires forall i :: 0 <= i < |dirs| ==> dirs[i].DirNode? && CanonicalNode(dirs[i], dirPath, le)
    requires forall i :: 0 <= i < |files| ==> files[i].FileLeaf?
    ensures Canonical(dirs + files, dirPath, le)
  {
  }

  lemma {:induction false} GroupedIsCanonical(entries: seq<Entry>, dirPath: string, le: Order)
    requires TotalPreorder(le)
    ensures Canonical(Grouped(entries, dirPath, le), dirPath, le)
    decreases Depth(entries), 1
  {
    var dirs := GroupedDirs(entries, dirPath, le);
    forall i | 0 <= i < |dirs| ensures dirs[i].DirNode? && CanonicalNode(dirs[i], dirPath, le) {
      DirAt(entries, dirPath, i, le);
      DirIsCanonical(entries, StableSort(Heads(entries), le)[i], dirPath, le);
    }
    DirsInOrder(entries, dirPath, le);
    FilesInOrder(Files(entries), le);
    CanonicalConcat(dirs, FileNodes(Files(entries), le), dirPath, le);
  }

  lemma {:induction false} DirIsCanonical(entries: seq<Entry>, name: string, dirPath: string, le: Order)
    requires TotalPreorder(le) && name in Heads(entries)
    ensures CanonicalNode(GroupedDir(entries, name, dirPath, le), dirPath, le)
    decreases Depth(entries), 0
  {
    var below, path := Children(entries, name), JoinPath(dirPath, name);
    HeadsExist(entries, name);
    ChildrenShallower(entries, name);
    GroupedIsCanonical(below, path, le);
    LeavesAreTheEntries(below, path, le);
    ChildrenHaveSegments(entries, name);
    var e :| e in entries && |e.segments| >= 2 && e.segments[0] == name;
    FlatMapMember(entries, Below(name), e, Entry(e.segments[1..], e.path));
    assert Entry(e.segments[1..], e.path) in multiset(Leaves(Grouped(below, path, le)));
  }

  // ------------------------------------------------ the order of the paths

  /** Nowhere in the tree do two different sibling directories, or two different files of a directory, tie. */
  ghost predicate NoTies(entries: seq<Entry>, le: Order)
    decreases Depth(entries)
  {
    && AntisymmetricOn(le, Heads(entries))
    && AntisymmetricOn(ByFileName(le), Files(entries))
    && forall name :: name in Heads(entries) ==> ChildNoTies(entries, name, le)
  }

  ghost predicate ChildNoTies(entries: seq<Entry>, name: string, le: Order)
    requires name in Heads(entries)
    decreases Depth(entries), 0
  {
    HeadsExist(entries, name);
    ChildrenShallower(entries, name);
    NoTies(Children(entries, name), le)
  }

  lemma {:induction false} SameHeads(a: seq<Entry>, b: seq<Entry>)
    requires multiset(a) == multiset(b)
    ensures multiset(Heads(a)) == multiset(Heads(b))
  {
    SameElements(a, b);
    forall x ensures x in Heads(a) <==> x in Heads(b) {
      HeadsExist(a, x);
      HeadsExist(b, x);
    }
    SameMembers(Heads(a), Heads(b));
  }

  lemma {:induction false} SameFiles(a: seq<Entry>, b: seq<Entry>, le: Order)
    requires TotalPreorder(le) && multiset(a) == multiset(b) && AntisymmetricOn(ByFileName(le), Files(a))
    ensures FileNodes(Files(a), le) == FileNodes(Files(b), le)
  {
    FileOrderPreorder(le);
    FlatMapPermutation(a, b, FileOf());
    SortOrderIndependent(Files(a), Files(b), ByFileName(le));
  }

  lemma {:induction false} SameNames(a: seq<Entry>, b: seq<Entry>, le: Order)
    requires TotalPreorder(le) && multiset(a) == multiset(b) && AntisymmetricOn(le, Heads(a))
    ensures StableSort(Heads(a), le) == StableSort(Heads(b), le)
  {
    SameHeads(a, b);
    SortOrderIndependent(Heads(a), Heads(b), le);
  }

  lemma {:induction false} NoTiesSameTree(a: seq<Entry>, b: seq<Entry>, dirPath: string, le: Order)
    requires TotalPreorder(le) && NoTies(a, le) && multiset(a) == multiset(b)
    ensures Grouped(a, dirPath, le) == Grouped(b, dirPath, le)
    decreases Depth(a), 2
  {
    SameFiles(a, b, le);
    NoTiesSameDirs(a, b, dirPath, le);
  }

  lemma {:induction false} NoTiesSameDirs(a: seq<Entry>, b: seq<Entry>, dirPath: string, le: Order)
    requires TotalPreorder(le) && NoTies(a, le) && multiset(a) == multiset(b)
    ensures GroupedDirs(a, dirPath, le) == GroupedDirs(b, dirPath, le)
    decreases Depth(a), 1
  {
    SameNames(a, b, le);
    var names := StableSort(Heads(a), le);
    var x, y := GroupedDirs(a, dirPath, le), GroupedDirs(b, dirPath, le);
    assert |x| == |names| == |y|;
    forall k | 0 <= k < |x| ensures x[k] == y[k] {
      DirAt(a, dirPath, k, le);
      DirAt(b, dirPath, k, le);
      NoTiesSameDir(a, b, names[k], dirPath, le);
    }
  }

  lemma {:induction false} NoTiesSameDir(a: seq<Entry>, b: seq<Entry>, name: string, dirPath: string, le: Order)
    requires TotalPreorder(le) && NoTies(a, le) && multiset(a) == multiset(b) && name in Heads(a)
    ensures GroupedDir(a, name, dirPath, le) == GroupedDir(b, name, dirPath, le)
    decreases Depth(a), 0
  {
    SameHeads(a, b);
    SameElements(Heads(a), Heads(b));
    HeadsExist(a, name);
    HeadsExist(b, name);
    ChildrenShallower(a, name);
    FlatMapPermutation(a, b, Below(name));
    assert ChildNoTies(a, name, le);
    NoTiesSameTree(Children(a, name), Children(b, name), JoinPath(dirPath, name), le);
  }

  lemma {:induction false} ToFront<T>(s: seq<T>, x: T) returns (other: seq<T>)
    requires x in s
    ensures multiset(other) == multiset(s) && other != [] && other[0] == x
  {
    var k :| 0 <= k < |s| && s[k] == x;
    other := [x] + (s[..k] + s[k + 1..]);
    assert s == s[..k] + ([x] + s[k + 1..]);
  }

  lemma {:induction false} DedupFirst<T>(s: seq<T>)
    requires s != []
    ensures Dedup(s) != [] && Dedup(s)[0] == s[0]
  {
    if |s| > 1 {
      DedupFirst(s[..|s| - 1]);
    } else {
      assert s[..0] == [];
    }
  }

  /** Stability: of the elements tied with `t`, the first to come in is the first to come out. */
  lemma {:induction false} FirstTied<T(!new)>(s: seq<T>, t: T, le: (T, T) -> bool)
    requires TotalPreorder(le) && s != [] && TiesWith(t, le)(s[0])
    ensures Filter(StableSort(s, le), TiesWith(t, le)) != []
    ensures Filter(StableSort(s, le), TiesWith(t, le))[0] == s[0]
  {
    SortStable(s, t, le);
  }

  /** Equal trees over the same entries agree on the order of the directories and of the files. */
  lemma {:induction false} SameTreeSameNames(a: seq<Entry>, b: seq<Entry>, dirPath: string, le: Order)
    requires multiset(a) == multiset(b) && Grouped(a, dirPath, le) == Grouped(b, dirPath, le)
    ensures GroupedDirs(a, dirPath, le) == GroupedDirs(b, dirPath, le)
    ensures StableSort(Heads(a), le) == StableSort(Heads(b), le)
    ensures FileNodes(Files(a), le) == FileNodes(Files(b), le)
  {
    SameHeads(a, b);
    assert |Heads(a)| == |multiset(Heads(a))| == |Heads(b)|;
    var x, y := GroupedDirs(a, dirPath, le), GroupedDirs(b, dirPath, le);
    assert x == Grouped(a, dirPath, le)[..|x|] && y == Grouped(b, dirPath, le)[..|x|];
    assert FileNodes(Files(a), le) == Grouped(a, dirPath, le)[|x|..];
    assert FileNodes(Files(b), le) == Grouped(b, dirPath, le)[|x|..];
    var m, n := StableSort(Heads(a), le), StableSort(Heads(b), le);
    forall k | 0 <= k < |m| ensures m[k] == n[k] {
      DirAt(a, dirPath, k, le);
      DirAt(b, dirPath, k, le);
    }
  }

  lemma {:induction false} HeadFirst(entries: seq<Entry>)
    requires entries != [] && |entries[0].segments| >= 2
    ensures Heads(entries) != [] && Heads(entries)[0] == entries[0].segments[0]
  {
    DedupFirst(FlatMap(entries, HeadOf()));
  }

  lemma {:induction false} HeadTie(entries: seq<Entry>, dirPath: string, le: Order) returns (other: seq<Entry>)
    requires TotalPreorder(le) && !AntisymmetricOn(le, Heads(entries))
    ensures multiset(other) == multiset(entries) && Grouped(other, dirPath, le) != Grouped(entries, dirPath, le)
  {
    var m, n :| m in Heads(entries) && n in Heads(entries) && le(m, n) && le(n, m) && m != n;
    HeadsExist(entries, m);
    HeadsExist(entries, n);
    var e :| e in entries && |e.segments| >= 2 && e.segments[0] == m;
    var f :| f in entries && |f.segments| >= 2 && f.segments[0] == n;
    var a := ToFront(entries, e);
    var b := ToFront(entries, f);
    HeadFirst(a);
    HeadFirst(b);
    FirstTied(Heads(a), m, le);
    FirstTied(Heads(b), m, le);
    if Grouped(a, dirPath, le) == Grouped(entries, dirPath, le) {
      other := b;
      if Grouped(b, dirPath, le) == Grouped(a, dirPath, le) {
        SameTreeSameNames(a, b, dirPath, le);
        assert false;
      }
    } else {
      other := a;
    }
  }

  lemma {:induction false} LeafInjective(a: seq<FileNode>, b: seq<FileNode>)
    requires Map(a, Leaf()) == Map(b, Leaf())
    ensures a == b
  {
  }

  lemma {:induction false} FileTie(entries: seq<Entry>, dirPath: string, le: Order) returns (other: seq<Entry>)
    requires TotalPreorder(le) && !AntisymmetricOn(ByFileName(le), Files(entries))
    ensures multiset(other) == multiset(entries) && Grouped(other, dirPath, le) != Grouped(entries, dirPath, le)
  {
    var order := ByFileName(le);
    var x, y :| x in Files(entries) && y in Files(entries) && order(x, y) && order(y, x) && x != y;
    var e := FlatMapOrigin(entries, FileOf(), x);
    var f := FlatMapOrigin(entries, FileOf(), y);
    var a := ToFront(entries, e);
    var b := ToFront(entries, f);
    FileOrderPreorder(le);
    assert Files(a)[0] == x && Files(b)[0] == y;
    FirstTied(Files(a), x, order);
    FirstTied(Files(b), x, order);
    if Grouped(a, dirPath, le) == Grouped(entries, dirPath, le) {
      other := b;
      if Grouped(b, dirPath, le) == Grouped(a, dirPath, le) {
        SameTreeSameNames(a, b, dirPath, le);
        LeafInjective(StableSort(Files(a), order), StableSort(Files(b), order));
        assert false;
      }
    } else {
      other := a;
    }
  }

  function OtherHead(name: string): Entry -> bool {
    (e: Entry) => !HeadIs(name)(e)
  }

  function Anything(): Entry -> bool {
    (e: Entry) => true
  }

  /** The entries with those below `name` replaced by `below`. */
  function Rebuilt(entries: seq<Entry>, name: string, below: seq<Entry>): seq<Entry> {
    Map(below, Under(name)) + Filter(entries, OtherHead(name))
  }

  lemma {:induction false} ChildrenOfUnder(below: seq<Entry>, name: string)
    requires forall e :: e in below ==> e.segments != []
    ensures Children(Map(below, Under(name)), name) == below
  {
    if below != [] {
      ChildrenOfUnder(below[1..], name);
      assert Map(below, Under(name))[1..] == Map(below[1..], Under(name));
      assert ([name] + below[0].segments)[1..] == below[0].segments;
      assert below == [below[0]] + below[1..];
    }
  }

  lemma {:induction false} RebuiltPermutes(entries: seq<Entry>, name: string, below: seq<Entry>)
    requires multiset(below) == multiset(Children(entries, name))
    ensures multiset(Rebuilt(entries, name, below)) == multiset(entries)
    ensures Children(Rebuilt(entries, name, below), name) == below
  {
    MapPermutation(below, Children(entries, name), Under(name));
    ChildrenAreEntries(entries, name);
    FilterSplit(entries, Anything(), HeadIs(name), OtherHead(name));
    FilterAll(entries, Anything());
    ChildrenHaveSegments(entries, name);
    SameElements(below, Children(entries, name));
    ChildrenOfUnder(below, name);
    var rest := Filter(entries, OtherHead(name));
    if Children(rest, name) != [] {
      var e := FlatMapOrigin(rest, Below(name), Children(rest, name)[0]);
      assert false;
    }
    FlatMapConcat(Map(below, Under(name)), rest, Below(name));
  }

  lemma {:induction false} SameDirSameChildren(a: seq<Entry>, b: seq<Entry>, name: string, dirPath: string, le: Order)
    requires name in Heads(a) && name in Heads(b)
    requires GroupedDir(a, name, dirPath, le) == GroupedDir(b, name, dirPath, le)
    ensures
      Grouped(Children(a, name), JoinPath(dirPath, name), le) ==
      Grouped(Children(b, name), JoinPath(dirPath, name), le)
  {
    HeadsExist(a, name);
    HeadsExist(b, name);
  }

  lemma {:induction false} SortedIndex<T>(s: seq<T>, x: T, le: (T, T) -> bool) returns (k: nat)
    requires x in s
    ensures k < |s| && StableSort(s, le)[k] == x
  {
    assert x in multiset(StableSort(s, le));
    k :| k < |s| && StableSort(s, le)[k] == x;
  }

  lemma {:induction false} SameTreeSameChildren(a: seq<Entry>, b: seq<Entry>, name: string, dirPath: string, le: Order)
    requires multiset(a) == multiset(b) && Grouped(a, dirPath, le) == Grouped(b, dirPath, le) && name in Heads(a)
    ensures
      Grouped(Children(a, name), JoinPath(dirPath, name), le) ==
      Grouped(Children(b, name), JoinPath(dirPath, name), le)
  {
    SameTreeSameNames(a, b, dirPath, le);
    var k := SortedIndex(Heads(a), name, le);
    DirAt(a, dirPath, k, le);
    DirAt(b, dirPath, k, le);
    SameDirSameChildren(a, b, name, dirPath, le);
  }

  /** A tie anywhere in the tree can be turned into a different tree by reordering the entries. */
  lemma {:induction false} TieBreaks(entries: seq<Entry>, dirPath: string, le: Order) returns (other: seq<Entry>)
    requires TotalPreorder(le) && !NoTies(entries, le)
    ensures multiset(other) == multiset(entries) && Grouped(other, dirPath, le) != Grouped(entries, dirPath, le)
    decreases Depth(entries)
  {
    if !AntisymmetricOn(le, Heads(entries)) {
      other := HeadTie(entries, dirPath, le);
    } else if !AntisymmetricOn(ByFileName(le), Files(entries)) {
      other := FileTie(entries, dirPath, le);
    } else {
      var name :| name in Heads(entries) && !ChildNoTies(entries, name, le);
      HeadsExist(entries, name);
      ChildrenShallower(entries, name);
      var below := TieBreaks(Children(entries, name), JoinPath(dirPath, name), le);
      other := Rebuilt(entries, name, below);
      RebuiltPermutes(entries, name, below);
      if Grouped(entries, dirPath, le) == Grouped(other, dirPath, le) {
        SameTreeSameChildren(entries, other, name, dirPath, le);
        assert false;
      }
    }
  }

  function PathOf(): Entry -> string {
    (e: Entry) => e.path
  }

  lemma {:induction false} EntriesOfPaths(entries: seq<Entry>)
    requires forall k :: 0 <= k < |entries| ==> entries[k] == EntryOf()(entries[k].path)
    ensures Entries(Map(entries, PathOf())) == entries
  {
  }

  lemma {:induction false} PathsOfEntries(paths: seq<string>)
    ensures Map(Entries(paths), PathOf()) == paths
  {
  }

  lemma {:induction false} PermutedEntries(paths: seq<string>, entries: seq<Entry>)
    requires multiset(entries) == multiset(Entries(paths))
    ensures Entries(Map(entries, PathOf())) == entries
    ensures multiset(Map(entries, PathOf())) == multiset(paths)
  {
    forall i | 0 <= i < |entries| ensures entries[i] == EntryOf()(entries[i].path) {
      assert entries[i] in multiset(entries);
      var k :| 0 <= k < |Entries(paths)| && Entries(paths)[k] == entries[i];
      assert entries[i] == EntryOf()(paths[k]);
    }
    EntriesOfPaths(entries);
    MapPermutation(entries, Entries(paths), PathOf());
    PathsOfEntries(paths);
  }

  /** The tree ignores the order of the paths exactly when no two siblings of one kind tie. */
  lemma {:induction false} OrderIrrelevantIff(paths: seq<string>, le: Order)
    requires TotalPreorder(le)
    ensures
      NoTies(Entries(paths), le) <==>
      forall other :: multiset(other) == multiset(paths) ==>
        Grouped(Entries(other), "", le) == Grouped(Entries(paths), "", le)
  {
    if NoTies(Entries(paths), le) {
      forall other | multiset(other) == multiset(paths)
        ensures Grouped(Entries(other), "", le) == Grouped(Entries(paths), "", le)
      {
        MapPermutation(paths, other, EntryOf());
        NoTiesSameTree(Entries(paths), Entries(other), "", le);
      }
    } else {
      var entries := TieBreaks(Entries(paths), "", le);
      PermutedEntries(paths, entries);
      var other := Map(entries, PathOf());
      assert Grouped(Entries(other), "", le) != Grouped(Entries(paths), "", le);
    }
  }

  // ------------------------------------------------------ normalised paths

  function SegmentsOf(): Entry -> seq<string> {
    (e: Entry) => e.segments
  }

  /** Among the names that occur, the order ties only equal ones; and the segments of an entry determine its path. */
  ghost predicate Discerning(entries: seq<Entry>, le: Order, names: seq<string>) {
    && AntisymmetricOn(le, names)
    && (forall e, s :: e in entries && s in e.segments ==> s in names)
    && forall e, f :: e in entries && f in entries && e.segments == f.segments ==> e == f
  }

  lemma {:induction false} ChildrenDiscerning(entries: seq<Entry>, le: Order, names: seq<string>, name: string)
    requires Discerning(entries, le, names)
    ensures Discerning(Children(entries, name), le, names)
  {
    var below := Children(entries, name);
    forall c | c in below ensures Entry([name] + c.segments, c.path) in entries {
      var e := FlatMapOrigin(entries, Below(name), c);
      assert [name] + e.segments[1..] == e.segments;
    }
    forall c, s | c in below && s in c.segments ensures s in names {
      assert s in ([name] + c.segments);
    }
    forall c, d | c in below && d in below && c.segments == d.segments ensures c == d {
      assert Entry([name] + c.segments, c.path) == Entry([name] + d.segments, d.path);
    }
  }

  lemma {:induction false} DiscerningNoTies(entries: seq<Entry>, le: Order, names: seq<string>)
    requires Discerning(entries, le, names)
    ensures NoTies(entries, le)
    decreases Depth(entries)
  {
    forall n | n in Heads(entries) ensures n in names && ChildNoTies(entries, n, le) {
      HeadsExist(entries, n);
      ChildrenShallower(entries, n);
      ChildrenDiscerning(entries, le, names, n);
      DiscerningNoTies(Children(entries, n), le, names);
    }
    forall x | x in Files(entries) ensures Entry([x.name], x.path) in entries {
      var e := FlatMapOrigin(entries, FileOf(), x);
      assert [e.segments[0]] == e.segments;
    }
    forall x, y | x in Files(entries) && y in Files(entries) && ByFileName(le)(x, y) && ByFileName(le)(y, x)
      ensures x == y
    {
      assert x.name in Entry([x.name], x.path).segments && y.name in Entry([y.name], y.path).segments;
      assert Entry([x.name], x.path) == Entry([y.name], y.path);
    }
  }

  lemma {:induction false} PathsDiscerning(paths: seq<string>, le: Order)
    requires AntisymmetricOn(le, FlatMap(Entries(paths), SegmentsOf()))
    requires forall p :: p in paths ==> p == Join(Segments(p), "/")
    ensures Discerning(Entries(paths), le, FlatMap(Entries(paths), SegmentsOf()))
  {
    var entries, names := Entries(paths), FlatMap(Entries(paths), SegmentsOf());
    forall e, s | e in entries && s in e.segments ensures s in names {
      FlatMapMember(entries, SegmentsOf(), e, s);
    }
    forall e | e in entries ensures e.path == Join(e.segments, "/") {
      var k :| 0 <= k < |paths| && entries[k] == e;
    }
  }

  /** For normalised paths under an order that tells their segments apart, any reordering gives the same tree. */
  lemma {:induction false} NormalisedPathsOrderIrrelevant(paths: seq<string>, other: seq<string>, le: Order)
    requires TotalPreorder(le) && AntisymmetricOn(le, FlatMap(Entries(paths), SegmentsOf()))
    requires forall p :: p in paths ==> p == Join(Segments(p), "/")
    requires multiset(other) == multiset(paths)
    ensures Grouped(Entries(other), "", le) == Grouped(Entries(paths), "", le)
  {
    PathsDiscerning(paths, le);
    DiscerningNoTies(Entries(paths), le, FlatMap(Entries(paths), SegmentsOf()));
    MapPermutation(paths, other, EntryOf());
    NoTiesSameTree(Entries(paths), Entries(other), "", le);
  }

  lemma {:induction false} TopFileEntry(c: string)
    requires c != "" && '/' !in c
    ensures EntryOf()(c) == Entry([c], c)
  {
    SplitNoSeparator(c, '/');
    FilterAll([c], NonEmpty());
  }

  lemma {:induction false} TopFilesOnly(x: Entry, y: Entry)
    requires |x.segments| == 1 && |y.segments| == 1
    ensures Heads([x, y]) == []
    ensures Files([x, y]) == [FileNode(x.segments[0], x.path), FileNode(y.segments[0], y.path)]
  {
    assert [x, y] == [x] + [y];
    FlatMapConcat([x], [y], HeadOf());
    FlatMapConcat([x], [y], FileOf());
    FlatMapOne(x, HeadOf());
    FlatMapOne(y, HeadOf());
    FlatMapOne(x, FileOf());
    FlatMapOne(y, FileOf());
  }

  lemma {:induction false} TwoFileNodes(f: FileNode, g: FileNode, le: Order)
    requires le(f.name, g.name)
    ensures FileNodes([f, g], le) == [Leaf()(f), Leaf()(g)]
  {
  }

  lemma {:induction false} TwoTopFiles(c: string, d: string, le: Order)
    requires c != "" && d != "" && '/' !in c && '/' !in d && le(c, d)
    ensures Grouped(Entries([c, d]), "", le) == [FileLeaf(c, c), FileLeaf(d, d)]
  {
    TopFileEntry(c);
    TopFileEntry(d);
    var x, y := Entry([c], c), Entry([d], d);
    assert Entries([c, d]) == [x, y];
    TopFilesOnly(x, y);
    TwoFileNodes(FileNode(c, c), FileNode(d, d), le);
    assert GroupedDirs([x, y], "", le) == [];
  }

  /** Canonically equivalent spellings compare as equal, so two such names keep the order they came in. */
  lemma {:induction false} TiedNamesKeepInputOrder(le: Order)
    requires le("\U{e9}", "e\U{301}") && le("e\U{301}", "\U{e9}")
    ensures Grouped(Entries(["\U{e9}", "e\U{301}"]), "", le) != Grouped(Entries(["e\U{301}", "\U{e9}"]), "", le)
  {
    TwoTopFiles("\U{e9}", "e\U{301}", le);
    TwoTopFiles("e\U{301}", "\U{e9}", le);
  }
}
