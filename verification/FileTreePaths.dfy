/** Where the directories of the file tree are: which there are, and under which paths they can be found. */
module FileTreePaths {
  import opened Seqs
  import opened Sorting
  import opened Text
  import opened FileTree
  import opened FileTreeLaws

  /** A directory node with the names on the way to it, its own included. */
  datatype Directory = Directory(route: seq<string>, path: string)

  function Directories(nodes: seq<Node>, above: seq<string>): seq<Directory> {
    if nodes == [] then [] else DirectoriesOf(nodes[0], above) + Directories(nodes[1..], above)
  }

  function DirectoriesOf(node: Node, above: seq<string>): seq<Directory> {
    match node
    case FileLeaf(_, _) => []
    case DirNode(name, path, children) =>
      [Directory(above + [name], path)] + Directories(children, above + [name])
  }

  function RouteOf(): Directory -> seq<string> {
    (d: Directory) => d.route
  }

  /** Every name is a possible segment. */
  ghost predicate Spelled(segments: seq<string>) {
    forall s :: s in segments ==> s != "" && '/' !in s
  }

  ghost predicate LeavesSpelled(nodes: seq<Node>) {
    forall e :: e in Leaves(nodes) ==> e.segments != [] && Spelled(e.segments)
  }

  /** `route` is a proper part of the way to `segments`. */
  predicate LeadsTo(route: seq<string>, segments: seq<string>) {
    route < segments
  }

  // ------------------------------------------------------ joining and splitting

  lemma {:induction false} JoinAppend(parts: seq<string>, name: string)
    requires parts != []
    ensures Join(parts + [name], "/") == Join(parts, "/") + "/" + name
  {
    if |parts| == 1 {
      assert (parts + [name])[1..] == [name];
    } else {
      assert (parts + [name])[1..] == parts[1..] + [name];
      JoinAppend(parts[1..], name);
    }
  }

  /** Splitting what was joined gives the parts back. */
  lemma {:induction false} SplitJoin(parts: seq<string>)
    requires parts != [] && Spelled(parts)
    ensures Split(Join(parts, "/"), '/') == parts
  {
    assert parts[0] in parts;
    if |parts| == 1 {
      SplitNoSeparator(parts[0], '/');
    } else {
      var rest := Join(parts[1..], "/");
      var whole := parts[0] + "/" + rest;
      forall s | s in parts[1..] ensures s != "" && '/' !in s {
        assert s in parts;
      }
      SplitJoin(parts[1..]);
      assert whole[..|parts[0]|] == parts[0] && whole[|parts[0]| + 1..] == rest;
      SplitAtFirst(whole, |parts[0]|, '/');
    }
  }

  lemma {:induction false} SegmentsOfJoin(parts: seq<string>)
    requires parts != [] && Spelled(parts)
    ensures Segments(Join(parts, "/")) == parts
  {
    SplitJoin(parts);
    FilterAll(parts, NonEmpty());
  }

  lemma {:induction false} SegmentsSpelled(p: string)
    ensures Spelled(Segments(p))
  {
    SplitPieces(p, '/');
  }

  /** The joined front of a path, and a slash, begin the joined path. */
  lemma {:induction false} JoinPrefix(route: seq<string>, segments: seq<string>)
    requires route != [] && LeadsTo(route, segments)
    ensures Join(route, "/") + "/" <= Join(segments, "/")
  {
    if |route| == 1 {
      assert segments[0] == route[0];
    } else {
      JoinPrefix(route[1..], segments[1..]);
      assert Join(route, "/") + "/" == route[0] + "/" + (Join(route[1..], "/") + "/");
      assert Join(segments, "/") == route[0] + "/" + Join(segments[1..], "/");
    }
  }

  // -------------------------------------------------------- over the forest

  lemma {:induction false} CanonicalTail(nodes: seq<Node>, dirPath: string, le: Order)
    requires Canonical(nodes, dirPath, le) && nodes != []
    ensures Canonical(nodes[1..], dirPath, le)
  {
  }

  /** The leaves below a directory, seen from above. */
  lemma {:induction false} LeafBelow(node: Node, e: Entry)
    requires node.DirNode? && e in Leaves(node.children)
    ensures Under(node.name)(e) in LeavesOf(node)
  {
    var i :| 0 <= i < |Leaves(node.children)| && Leaves(node.children)[i] == e;
    assert LeavesOf(node)[i] == Under(node.name)(e);
  }

  lemma {:induction false} LeafOrigin(node: Node, e: Entry) returns (below: Entry)
    requires node.DirNode? && e in LeavesOf(node)
    ensures below in Leaves(node.children)
    ensures e.segments == [node.name] + below.segments && e.path == below.path
  {
    var i :| 0 <= i < |LeavesOf(node)| && LeavesOf(node)[i] == e;
    below := Leaves(node.children)[i];
    assert e == Under(node.name)(below);
  }

  lemma {:induction false} SpelledBelow(nodes: seq<Node>)
    requires LeavesSpelled(nodes) && nodes != []
    ensures LeavesSpelled(nodes[1..])
    ensures nodes[0].DirNode? && Leaves(nodes[0].children) != [] ==> nodes[0].name != "" && '/' !in nodes[0].name
    ensures nodes[0].DirNode? && NonEmptyLeaves(nodes[0].children) ==> LeavesSpelled(nodes[0].children)
  {
    if nodes[0].DirNode? {
      forall e | e in Leaves(nodes[0].children)
        ensures Spelled(e.segments) && nodes[0].name != "" && '/' !in nodes[0].name
      {
        LeafBelow(nodes[0], e);
        var whole := Under(nodes[0].name)(e);
        assert whole in Leaves(nodes);
        assert whole.segments[0] in whole.segments;
        forall s | s in e.segments ensures s in whole.segments {
        }
      }
      if Leaves(nodes[0].children) != [] {
        assert Leaves(nodes[0].children)[0] in Leaves(nodes[0].children);
      }
    }
  }

  /** Every leaf has a name. */
  ghost predicate NonEmptyLeaves(nodes: seq<Node>) {
    forall e :: e in Leaves(nodes) ==> e.segments != []
  }

  lemma {:induction false} LeavesNamed(nodes: seq<Node>)
    ensures NonEmptyLeaves(nodes)
  {
    if nodes != [] {
      LeavesNamed(nodes[1..]);
      if nodes[0].DirNode? {
        forall e | e in LeavesOf(nodes[0]) ensures e.segments != [] {
          var below := LeafOrigin(nodes[0], e);
        }
      }
    }
  }

  /** A canonical forest that is not empty has a leaf. */
  lemma {:induction false} SomeLeaf(nodes: seq<Node>, dirPath: string, le: Order) returns (e: Entry)
    requires Canonical(nodes, dirPath, le) && nodes != []
    ensures e in Leaves(nodes)
  {
    match nodes[0]
    case FileLeaf(name, path) => e := Entry([name], path);
    case DirNode(name, path, children) =>
      assert CanonicalNode(nodes[0], dirPath, le);
      var below := SomeLeaf(children, path, le);
      LeafBelow(nodes[0], below);
      e := Under(name)(below);
  }

  /** The path of the directory that holds the forest is the way to it, joined. */
  predicate Located(above: seq<string>, dirPath: string) {
    dirPath == Join(above, "/") && (above == [] <==> dirPath == "")
  }

  lemma {:induction false} LocatedBelow(above: seq<string>, dirPath: string, name: string, path: string)
    requires Located(above, dirPath) && name != ""
    requires path == if dirPath == "" then name else dirPath + "/" + name
    ensures Located(above + [name], path)
  {
    if above != [] {
      JoinAppend(above, name);
    } else {
      assert above + [name] == [name];
    }
  }

  /** Every directory's path is its route, joined, and the route leads to one of the leaves. */
  lemma {:induction false} DirectoryIsJoined(
    nodes: seq<Node>, above: seq<string>, dirPath: string, le: Order, d: Directory) returns (e: Entry)
    requires Canonical(nodes, dirPath, le) && LeavesSpelled(nodes) && Located(above, dirPath)
    requires d in Directories(nodes, above)
    ensures d.path == Join(d.route, "/") && above < d.route
    ensures e in Leaves(nodes) && LeadsTo(d.route, above + e.segments)
  {
    SpelledBelow(nodes);
    if d in DirectoriesOf(nodes[0], above) {
      assert CanonicalNode(nodes[0], dirPath, le);
      LeavesNamed(nodes[0].children);
      var any := SomeLeaf(nodes[0].children, nodes[0].path, le);
      e := OwnIsJoined(nodes[0], above, dirPath, le, d);
    } else {
      CanonicalTail(nodes, dirPath, le);
      e := DirectoryIsJoined(nodes[1..], above, dirPath, le, d);
    }
  }

  lemma {:induction false} OwnIsJoined(
    node: Node, above: seq<string>, dirPath: string, le: Order, d: Directory) returns (e: Entry)
    requires node.DirNode? && CanonicalNode(node, dirPath, le) && node.name != "" && LeavesSpelled(node.children)
    requires Located(above, dirPath) && d in DirectoriesOf(node, above)
    ensures d.path == Join(d.route, "/") && above < d.route
    ensures e in LeavesOf(node) && LeadsTo(d.route, above + e.segments)
  {
    var name, path, children := node.name, node.path, node.children;
    LocatedBelow(above, dirPath, name, path);
    var below := SomeLeaf(children, path, le);
    if d != Directory(above + [name], path) {
      below := DirectoryIsJoined(children, above + [name], path, le, d);
    }
    LeafBelow(node, below);
    SameWay(above, name, below.segments);
    e := Under(name)(below);
  }

  /** Every proper part of the way to a leaf is the route of a directory. */
  lemma {:induction false} WayIsDirectory(nodes: seq<Node>, above: seq<string>, e: Entry, k: nat)
    returns (d: Directory)
    requires e in Leaves(nodes) && 1 <= k < |e.segments|
    ensures d in Directories(nodes, above) && d.route == above + e.segments[..k]
  {
    if e in LeavesOf(nodes[0]) {
      d := WayBelow(nodes[0], above, e, k);
    } else {
      d := WayIsDirectory(nodes[1..], above, e, k);
    }
  }

  lemma {:induction false} WayBelow(node: Node, above: seq<string>, e: Entry, k: nat) returns (d: Directory)
    requires e in LeavesOf(node) && 1 <= k < |e.segments|
    ensures d in DirectoriesOf(node, above) && d.route == above + e.segments[..k]
  {
    var below := LeafOrigin(node, e);
    if k == 1 {
      d := Directory(above + [node.name], node.path);
      assert e.segments[..1] == [node.name];
    } else {
      d := WayIsDirectory(node.children, above + [node.name], below, k - 1);
      SameWay(above, node.name, below.segments[..k - 1]);
      assert e.segments[..k] == [node.name] + below.segments[..k - 1];
    }
  }

  lemma {:induction false} SameWay(above: seq<string>, name: string, rest: seq<string>)
    ensures above + [name] + rest == above + ([name] + rest)
  {
  }

  /** The route of a directory begins with the name of a directory node at the top. */
  lemma {:induction false} RouteBegins(nodes: seq<Node>, above: seq<string>, d: Directory) returns (i: nat)
    requires d in Directories(nodes, above)
    ensures i < |nodes| && nodes[i].DirNode? && above + [nodes[i].name] <= d.route
  {
    if d in DirectoriesOf(nodes[0], above) {
      i := 0;
      var name := nodes[0].name;
      if d != Directory(above + [name], nodes[0].path) {
        var j := RouteBegins(nodes[0].children, above + [name], d);
      }
    } else {
      var j := RouteBegins(nodes[1..], above, d);
      i := j + 1;
    }
  }

  lemma {:induction false} KeysDifferConcat(a: seq<Directory>, b: seq<Directory>)
    requires KeysDiffer(a, RouteOf()) && KeysDiffer(b, RouteOf())
    requires forall x, y :: x in a && y in b ==> x.route != y.route
    ensures KeysDiffer(a + b, RouteOf())
  {
  }

  /** No two directories have the same route. */
  lemma {:induction false} RoutesDiffer(nodes: seq<Node>, above: seq<string>, dirPath: string, le: Order)
    requires Canonical(nodes, dirPath, le)
    ensures KeysDiffer(Directories(nodes, above), RouteOf())
  {
    if nodes != [] {
      CanonicalTail(nodes, dirPath, le);
      RoutesDiffer(nodes[1..], above, dirPath, le);
      OwnRoutesDiffer(nodes[0], above, dirPath, le);
      forall x, y | x in DirectoriesOf(nodes[0], above) && y in Directories(nodes[1..], above)
        ensures x.route != y.route
      {
        var j := RouteBegins(nodes[1..], above, y);
        OwnRoute(nodes[0], above, x);
        assert Before(nodes[0], nodes[j + 1], le);
        assert x.route[|above|] == nodes[0].name != nodes[j + 1].name == y.route[|above|];
      }
      KeysDifferConcat(DirectoriesOf(nodes[0], above), Directories(nodes[1..], above));
    }
  }

  lemma {:induction false} OwnRoute(node: Node, above: seq<string>, d: Directory)
    requires d in DirectoriesOf(node, above)
    ensures node.DirNode? && above + [node.name] <= d.route
  {
    if d != Directory(above + [node.name], node.path) {
      var j := RouteBegins(node.children, above + [node.name], d);
    }
  }

  lemma {:induction false} OwnRoutesDiffer(node: Node, above: seq<string>, dirPath: string, le: Order)
    requires CanonicalNode(node, dirPath, le)
    ensures KeysDiffer(DirectoriesOf(node, above), RouteOf())
  {
    if node.DirNode? {
      var own := Directory(above + [node.name], node.path);
      RoutesDiffer(node.children, above + [node.name], node.path, le);
      forall y | y in Directories(node.children, above + [node.name]) ensures own.route != y.route {
        var j := RouteBegins(node.children, above + [node.name], y);
      }
      KeysDifferConcat([own], Directories(node.children, above + [node.name]));
    }
  }

  // ---------------------------------------------------------- for the source

  function Tree(paths: seq<string>, le: Order): seq<Node> {
    Grouped(Entries(paths), "", le)
  }

  lemma {:induction false} EntryIsPath(paths: seq<string>, e: Entry)
    ensures e in Entries(paths) <==> e.path in paths && e.segments == Segments(e.path)
  {
    if e.path in paths && e.segments == Segments(e.path) {
      var i :| 0 <= i < |paths| && paths[i] == e.path;
      assert Entries(paths)[i] == EntryOf()(paths[i]) == e;
    }
    if e in Entries(paths) {
      var i :| 0 <= i < |Entries(paths)| && Entries(paths)[i] == e;
      assert EntryOf()(paths[i]) == e;
    }
  }

  lemma {:induction false} SameMembersOf<T>(a: seq<T>, b: seq<T>, x: T)
    requires multiset(a) == multiset(b)
    ensures x in a <==> x in b
  {
    assert x in a <==> x in multiset(a);
    assert x in b <==> x in multiset(b);
  }

  /** The leaves of the tree are the given paths that have a segment, with their segments. */
  lemma {:induction false} LeafIsPath(paths: seq<string>, le: Order, e: Entry)
    ensures e in Leaves(Tree(paths, le)) <==> e.path in paths && e.segments == Segments(e.path) != []
  {
    LeavesAreTheEntries(Entries(paths), "", le);
    SameMembersOf(Leaves(Tree(paths, le)), Filter(Entries(paths), HasSegments()), e);
    EntryIsPath(paths, e);
  }

  lemma {:induction false} TreeSpelled(paths: seq<string>, le: Order)
    ensures LeavesSpelled(Tree(paths, le))
  {
    forall e | e in Leaves(Tree(paths, le)) ensures e.segments != [] && Spelled(e.segments) {
      LeafIsPath(paths, le, e);
      SegmentsSpelled(e.path);
    }
  }

  /**
   A directory's path is the names on the way to it joined by slashes, and splits back into them; the way is a proper
   part of one of the given paths; and in each given path that is normalised, it is what comes before that slash.
   */
  lemma {:induction false} DirectoryPath(paths: seq<string>, le: Order, d: Directory) returns (p: string)
    requires TotalPreorder(le) && d in Directories(Tree(paths, le), [])
    ensures d.route != [] && d.path == Join(d.route, "/") && Segments(d.path) == d.route
    ensures p in paths && LeadsTo(d.route, Segments(p))
    ensures forall q :: q in paths && q == Join(Segments(q), "/") && LeadsTo(d.route, Segments(q)) ==>
              d.path + "/" <= q
  {
    GroupedIsCanonical(Entries(paths), "", le);
    TreeSpelled(paths, le);
    var e := DirectoryIsJoined(Tree(paths, le), [], "", le, d);
    LeafIsPath(paths, le, e);
    assert [] + e.segments == e.segments;
    p := e.path;
    SegmentsSpelled(p);
    forall s | s in d.route ensures s in Segments(p) {
    }
    SegmentsOfJoin(d.route);
    forall q | q in paths && q == Join(Segments(q), "/") && LeadsTo(d.route, Segments(q)) ensures d.path + "/" <= q {
      JoinPrefix(d.route, Segments(q));
    }
  }

  /** Each proper part of the way to a path is the way to a directory. */
  lemma {:induction false} EveryWay(paths: seq<string>, le: Order, p: string, k: nat) returns (d: Directory)
    requires p in paths && 1 <= k < |Segments(p)|
    ensures d in Directories(Tree(paths, le), []) && d.route == Segments(p)[..k]
  {
    LeafIsPath(paths, le, Entry(Segments(p), p));
    d := WayIsDirectory(Tree(paths, le), [], Entry(Segments(p), p), k);
    assert [] + Segments(p)[..k] == Segments(p)[..k];
  }

  lemma {:induction false} PathsDiffer(paths: seq<string>, le: Order, a: Directory, b: Directory)
    requires TotalPreorder(le) && a.route != b.route
    requires a in Directories(Tree(paths, le), []) && b in Directories(Tree(paths, le), [])
    ensures a.path != b.path
  {
    var p := DirectoryPath(paths, le, a);
    var q := DirectoryPath(paths, le, b);
  }

  /** No two directories of the tree have one path. */
  ghost predicate OnePathEach(all: seq<Directory>) {
    forall i, j :: 0 <= i < j < |all| ==> all[i].path != all[j].path
  }

  /** Every proper part of the way to a path is the way to a directory. */
  ghost predicate HasEveryWay(paths: seq<string>, all: seq<Directory>) {
    forall p, k :: p in paths && 1 <= k < |Segments(p)| ==> HasRoute(all, Segments(p)[..k])
  }

  ghost predicate HasRoute(all: seq<Directory>, route: seq<string>) {
    exists d :: d in all && d.route == route
  }

  /** There is exactly one directory for each proper part of the way to a path, and different ones differ in path. */
  lemma {:induction false} DirectoriesAreTheWays(paths: seq<string>, le: Order)
    requires TotalPreorder(le)
    ensures OnePathEach(Directories(Tree(paths, le), []))
    ensures HasEveryWay(paths, Directories(Tree(paths, le), []))
  {
    var all := Directories(Tree(paths, le), []);
    GroupedIsCanonical(Entries(paths), "", le);
    RoutesDiffer(Tree(paths, le), [], "", le);
    forall i, j | 0 <= i < j < |all| ensures all[i].path != all[j].path {
      assert RouteOf()(all[i]) != RouteOf()(all[j]);
      PathsDiffer(paths, le, all[i], all[j]);
    }
    forall p, k | p in paths && 1 <= k < |Segments(p)| ensures HasRoute(all, Segments(p)[..k]) {
      var d := EveryWay(paths, le, p, k);
    }
  }
}
