/** The file tree index (src/store/useFileIndex.ts): slash-separated paths
    become a forest of folder and file nodes, one node per distinct
    cumulative path, linked to their parents and children. */
module FileIndex {
  import opened Common

  datatype FileKind = File | Folder

  /** An entry handed to `initializeIndex`: a path and its `type` text. */
  datatype FileEntry = FileEntry(path: string, kind: string)

  /** A node id, `btoa(path)`. The encoding is injective on the paths it
      accepts, so the id is modelled by the path it encodes. */
  datatype NodeId = NodeId(path: string)

  datatype FileNode = FileNode(
    id: NodeId,
    name: string,
    path: string,
    kind: FileKind,
    parentId: Option<NodeId>,
    children: seq<NodeId>)

  predicate NoSlash(s: string) {
    forall i :: 0 <= i < |s| ==> s[i] != '/'
  }

  /** `split('/')`. */
  function SplitSlash(s: string): (r: seq<string>)
    ensures |r| >= 1 && forall k :: 0 <= k < |r| ==> NoSlash(r[k])
  {
    if s == [] then [""]
    else if s[0] == '/' then [""] + SplitSlash(s[1..])
    else
      var rest := SplitSlash(s[1..]);
      [[s[0]] + rest[0]] + rest[1..]
  }

  /** `path.split('/').filter(Boolean)`. */
  function Segments(path: string): (r: seq<string>)
    ensures forall k :: 0 <= k < |r| ==> r[k] != "" && NoSlash(r[k])
  {
    var pieces := SplitSlash(path);
    var r := NonEmpty(pieces);
    assert forall k :: 0 <= k < |r| ==> r[k] in pieces;
    r
  }

  /** `currentPath` after the first `k` segments: '/' before each. */
  function CumPath(parts: seq<string>, k: nat): string
    requires k <= |parts|
  {
    if k == 0 then "" else CumPath(parts, k - 1) + "/" + parts[k - 1]
  }

  /** The same path built from the front. */
  function Join(parts: seq<string>): string {
    if parts == [] then "" else "/" + parts[0] + Join(parts[1..])
  }

  lemma {:induction false} JoinSnoc(parts: seq<string>, p: string)
    ensures Join(parts + [p]) == Join(parts) + "/" + p
  {
    if parts != [] {
      assert (parts + [p])[1..] == parts[1..] + [p];
      JoinSnoc(parts[1..], p);
    }
  }

  lemma {:induction false} CumPathJoin(parts: seq<string>, k: nat)
    requires k <= |parts|
    ensures CumPath(parts, k) == Join(parts[..k])
  {
    if k > 0 {
      CumPathJoin(parts, k - 1);
      assert parts[..k] == parts[..k - 1] + [parts[k - 1]];
      JoinSnoc(parts[..k - 1], parts[k - 1]);
    }
  }

  lemma {:induction false} SplitAfterPiece(p: string, t: string)
    requires NoSlash(p)
    ensures SplitSlash(p + "/" + t) == [p] + SplitSlash(t)
  {
    if p == [] {
      assert p + "/" + t == "/" + t;
      assert ("/" + t)[1..] == t;
    } else {
      assert (p + "/" + t)[0] == p[0];
      assert (p + "/" + t)[1..] == p[1..] + "/" + t;
      SplitAfterPiece(p[1..], t);
      assert [p[0]] + p[1..] == p;
    }
  }

  lemma {:induction false} SplitPiece(p: string)
    requires NoSlash(p)
    ensures SplitSlash(p) == [p]
  {
    if p != [] {
      SplitPiece(p[1..]);
      assert [p[0]] + p[1..] == p;
    }
  }

  predicate GoodParts(parts: seq<string>) {
    forall k :: 0 <= k < |parts| ==> parts[k] != "" && NoSlash(parts[k])
  }

  lemma {:induction false} SplitJoined(p: string, rest: seq<string>)
    requires NoSlash(p) && GoodParts(rest)
    ensures SplitSlash(p + Join(rest)) == [p] + rest
    decreases |rest|
  {
    if rest == [] {
      assert p + Join(rest) == p;
      SplitPiece(p);
    } else {
      assert p + Join(rest) == p + "/" + (rest[0] + Join(rest[1..]));
      SplitAfterPiece(p, rest[0] + Join(rest[1..]));
      SplitJoined(rest[0], rest[1..]);
      assert [rest[0]] + rest[1..] == rest;
    }
  }

  lemma SplitJoin(parts: seq<string>)
    requires GoodParts(parts)
    ensures SplitSlash(Join(parts)) == [""] + parts
  {
    if parts == [] {
      assert SplitSlash("") == [""];
    } else {
      var t := parts[0] + Join(parts[1..]);
      assert Join(parts) == "/" + t;
      assert ("/" + t)[1..] == t;
      SplitJoined(parts[0], parts[1..]);
      assert [parts[0]] + parts[1..] == parts;
    }
  }

  /** Splitting a node's path gives back its segments: the index's paths
      are the canonical form of the entries' paths. */
  lemma SegmentsOfPath(parts: seq<string>)
    requires GoodParts(parts)
    ensures Segments(CumPath(parts, |parts|)) == parts
  {
    CumPathJoin(parts, |parts|);
    assert parts[..|parts|] == parts;
    SplitJoin(parts);
    assert ([""] + parts)[1..] == parts;
    assert NonEmpty([""] + parts) == NonEmpty(parts);
  }

  /** Repeated and trailing slashes are dropped. */
  lemma SegmentsExample()
    ensures Segments("/a//b/") == ["a", "b"]
  {
    assert "/"[1..] == "";
    assert SplitSlash("/") == ["", ""];
    assert "b/"[1..] == "/";
    assert ['b'] + "" == "b";
    assert SplitSlash("b/") == ["b", ""];
    assert "/b/"[1..] == "b/";
    assert SplitSlash("/b/") == ["", "b", ""];
    assert "//b/"[1..] == "/b/";
    assert SplitSlash("//b/") == ["", "", "b", ""];
    assert "a//b/"[1..] == "//b/";
    assert ['a'] + "" == "a";
    assert SplitSlash("a//b/") == ["a", "", "b", ""];
    assert "/a//b/"[1..] == "a//b/";
    assert SplitSlash("/a//b/") == ["", "a", "", "b", ""];
  }

  /** `join('/')`. */
  function JoinSlash(ps: seq<string>): string
    requires ps != []
  {
    if |ps| == 1 then ps[0] else ps[0] + "/" + JoinSlash(ps[1..])
  }

  lemma JoinSlashEmptyFirst(ps: seq<string>)
    requires ps != []
    ensures JoinSlash([""] + ps) == "/" + JoinSlash(ps)
  {
    assert ([""] + ps)[1..] == ps;
  }

  lemma JoinSlashCons(c: char, ps: seq<string>)
    requires ps != []
    ensures JoinSlash([[c] + ps[0]] + ps[1..]) == [c] + JoinSlash(ps)
  {
    var h := [c] + ps[0];
    var r := [h] + ps[1..];
    assert |r| == |ps| && r[0] == h && r[1..] == ps[1..];
    if |ps| > 1 {
      var x := JoinSlash(ps[1..]);
      assert h + "/" + x == [c] + (ps[0] + "/" + x);
    }
  }

  /** `split('/')` loses nothing: joining the pieces with '/' gives back
      the text. */
  lemma {:induction false} SplitSlashJoin(s: string)
    ensures JoinSlash(SplitSlash(s)) == s
  {
    if s != [] {
      SplitSlashJoin(s[1..]);
      if s[0] == '/' {
        JoinSlashEmptyFirst(SplitSlash(s[1..]));
      } else {
        JoinSlashCons(s[0], SplitSlash(s[1..]));
      }
      assert [s[0]] + s[1..] == s;
    }
  }

  /** The text with every '/' removed. */
  function DropSlashes(s: string): (r: string)
    ensures NoSlash(r)
  {
    if s == [] then "" else if s[0] == '/' then DropSlashes(s[1..]) else [s[0]] + DropSlashes(s[1..])
  }

  lemma {:induction false} SplitSlashConcat(s: string)
    ensures Concat(SplitSlash(s)) == DropSlashes(s)
  {
    if s == [] {
    } else if s[0] == '/' {
      var rest := SplitSlash(s[1..]);
      SplitSlashConcat(s[1..]);
      assert ([""] + rest)[1..] == rest;
    } else {
      var rest := SplitSlash(s[1..]);
      SplitSlashConcat(s[1..]);
      var r := [[s[0]] + rest[0]] + rest[1..];
      assert r[1..] == rest[1..];
      assert Concat(rest) == rest[0] + Concat(rest[1..]);
      assert Concat(r) == [s[0]] + rest[0] + Concat(rest[1..]);
    }
  }

  /** The segments are the path's characters other than '/', in order,
      cut into non-empty slash-free pieces. */
  lemma SegmentsConcat(path: string)
    ensures Concat(Segments(path)) == DropSlashes(path)
  {
    NonEmptyConcat(SplitSlash(path));
    SplitSlashConcat(path);
  }

  /** Code points up to U+00FF, the only ones `btoa` accepts. */
  predicate Latin1(s: string) {
    forall i :: 0 <= i < |s| ==> s[i] <= 'ÿ'
  }

  lemma Latin1Step(cur: string, part: string)
    requires Latin1(cur)
    ensures Latin1(cur + "/" + part) <==> Latin1(part)
  {
    var s := cur + "/" + part;
    if Latin1(part) {
      forall i | 0 <= i < |s| ensures s[i] <= 'ÿ' {
        if i > |cur| {
          assert s[i] == part[i - |cur| - 1];
        }
      }
    } else {
      var i :| 0 <= i < |part| && part[i] > 'ÿ';
      assert s[|cur| + 1 + i] == part[i];
    }
  }

  /** Every segment of the entry's path can be encoded. */
  predicate EntryLatin1(f: FileEntry) {
    PartsLatin1(Segments(f.path))
  }

  predicate PartsLatin1(parts: seq<string>) {
    forall k :: 0 <= k < |parts| ==> Latin1(parts[k])
  }

  /** Every segment of every entry can be encoded. */
  predicate AllLatin1(files: seq<FileEntry>) {
    forall i :: 0 <= i < |files| ==> EntryLatin1(files[i])
  }

  lemma AllLatin1Step(files: seq<FileEntry>, i: nat)
    requires i < |files| && AllLatin1(files[..i]) && EntryLatin1(files[i])
    ensures AllLatin1(files[..i + 1])
  {
    assert forall k :: 0 <= k < i ==> files[..i + 1][k] == files[..i][k];
  }

  /** One step of the walk: the cumulative path reached, and whether it is
      the last segment of an entry of type 'file'. */
  datatype Visit = Visit(path: string, fileEnd: bool)

  /** Step `k` of walking the segments `parts`. */
  function PartVisit(parts: seq<string>, isFile: bool, k: nat): Visit
    requires k < |parts|
  {
    Visit(CumPath(parts, k + 1), k + 1 == |parts| && isFile)
  }

  /** The first `j` steps of walking the segments `parts`. */
  function PartVisits(parts: seq<string>, isFile: bool, j: nat): (r: seq<Visit>)
    requires j <= |parts|
    ensures |r| == j
  {
    if j == 0 then [] else PartVisits(parts, isFile, j - 1) + [PartVisit(parts, isFile, j - 1)]
  }

  lemma {:induction false} PartVisitsAt(parts: seq<string>, isFile: bool, j: nat)
    requires j <= |parts|
    ensures forall i :: 0 <= i < j ==> PartVisits(parts, isFile, j)[i] == PartVisit(parts, isFile, i)
  {
    if j > 0 {
      PartVisitsAt(parts, isFile, j - 1);
      var s := PartVisits(parts, isFile, j - 1);
      assert PartVisits(parts, isFile, j) == s + [PartVisit(parts, isFile, j - 1)];
      forall i | 0 <= i < j ensures PartVisits(parts, isFile, j)[i] == PartVisit(parts, isFile, i) {
        if i < j - 1 {
          assert PartVisits(parts, isFile, j)[i] == s[i];
        }
      }
    }
  }

  function VisitAt(f: FileEntry, k: nat): Visit
    requires k < |Segments(f.path)|
  {
    PartVisit(Segments(f.path), f.kind == "file", k)
  }

  /** The first `j` steps of walking one entry. */
  function EntryVisits(f: FileEntry, j: nat): seq<Visit>
    requires j <= |Segments(f.path)|
  {
    PartVisits(Segments(f.path), f.kind == "file", j)
  }

  /** The walk of an entry visits its cumulative prefixes in order. */
  lemma EntryVisitsAt(f: FileEntry, j: nat)
    requires j <= |Segments(f.path)|
    ensures |EntryVisits(f, j)| == j
    ensures forall i :: 0 <= i < j ==> EntryVisits(f, j)[i] == VisitAt(f, i)
  {
    PartVisitsAt(Segments(f.path), f.kind == "file", j);
  }

  /** Every step of walking the entries in order. */
  function Visits(files: seq<FileEntry>): seq<Visit> {
    if files == [] then []
    else
      var f := files[|files| - 1];
      Visits(files[..|files| - 1]) + EntryVisits(f, |Segments(f.path)|)
  }

  lemma VisitsStep(files: seq<FileEntry>, i: nat)
    requires i < |files|
    ensures Visits(files[..i + 1]) == Visits(files[..i]) + EntryVisits(files[i], |Segments(files[i].path)|)
  {
    assert files[..i + 1][..i] == files[..i];
  }

  predicate Visited(vs: seq<Visit>, p: string) {
    exists i :: 0 <= i < |vs| && vs[i].path == p
  }

  /** Whether the first step reaching `p` made a file: the first visit of a
      path creates its node and later ones leave it as it is. */
  function FirstIsFile(vs: seq<Visit>, p: string): bool {
    if vs == [] then false
    else
      var init := vs[..|vs| - 1];
      if Visited(init, p) then FirstIsFile(init, p) else vs[|vs| - 1].path == p && vs[|vs| - 1].fileEnd
  }

  lemma VisitAppend(vs: seq<Visit>, v: Visit, p: string)
    ensures Visited(vs + [v], p) <==> Visited(vs, p) || v.path == p
    ensures FirstIsFile(vs + [v], p) == if Visited(vs, p) then FirstIsFile(vs, p) else v.path == p && v.fileEnd
  {
    assert (vs + [v])[..|vs|] == vs;
    assert forall i :: 0 <= i < |vs| ==> (vs + [v])[i] == vs[i];
    assert (vs + [v])[|vs|] == v;
  }

  /** The path of the last node an entry's walk reaches. */
  function FullPath(f: FileEntry): string {
    CumPath(Segments(f.path), |Segments(f.path)|)
  }

  lemma {:induction false} FirstFileVisit(vs: seq<Visit>, p: string)
    requires FirstIsFile(vs, p)
    ensures exists i :: 0 <= i < |vs| && vs[i] == Visit(p, true)
  {
    var init := vs[..|vs| - 1];
    if Visited(init, p) {
      FirstFileVisit(init, p);
      var i :| 0 <= i < |init| && init[i] == Visit(p, true);
      assert vs[i] == init[i];
    } else {
      assert vs[|vs| - 1] == Visit(p, true);
    }
  }

  lemma {:induction false} VisitsFileEnds(files: seq<FileEntry>, i: int)
    requires 0 <= i < |Visits(files)| && Visits(files)[i].fileEnd
    ensures exists e :: 0 <= e < |files| && files[e].kind == "file" && Visits(files)[i].path == FullPath(files[e])
  {
    var f := files[|files| - 1];
    var init := files[..|files| - 1];
    var before := Visits(init);
    if i < |before| {
      assert Visits(files)[i] == before[i];
      VisitsFileEnds(init, i);
      var e :| 0 <= e < |init| && init[e].kind == "file" && before[i].path == FullPath(init[e]);
      assert files[e] == init[e];
    } else {
      var k := i - |before|;
      EntryVisitsAt(f, |Segments(f.path)|);
      assert Visits(files)[i] == VisitAt(f, k);
      assert files[|files| - 1] == f;
    }
  }

  /** A node is a file only when its first visit was the last segment of
      an entry of type 'file': its path is that entry's whole path. */
  lemma FileNodesEndFileEntries(files: seq<FileEntry>, p: string)
    requires FirstIsFile(Visits(files), p)
    ensures exists e :: 0 <= e < |files| && files[e].kind == "file" && p == FullPath(files[e])
  {
    FirstFileVisit(Visits(files), p);
    var i :| 0 <= i < |Visits(files)| && Visits(files)[i] == Visit(p, true);
    VisitsFileEnds(files, i);
  }

  /** Every segment prefix of every entry is visited. */
  lemma {:induction false} EveryPrefixVisited(files: seq<FileEntry>, e: int, k: int)
    requires 0 <= e < |files| && 1 <= k <= |Segments(files[e].path)|
    ensures Visited(Visits(files), CumPath(Segments(files[e].path), k))
  {
    var f := files[|files| - 1];
    var init := files[..|files| - 1];
    var before := Visits(init);
    var all := Visits(files);
    if e < |files| - 1 {
      assert files[e] == init[e];
      EveryPrefixVisited(init, e, k);
      var i :| 0 <= i < |before| && before[i].path == CumPath(Segments(files[e].path), k);
      assert all[i] == before[i];
    } else {
      EntryVisitsAt(f, |Segments(f.path)|);
      assert all[|before| + k - 1] == VisitAt(f, k - 1);
    }
  }

  predicate NoDup<T(==)>(s: seq<T>) {
    forall a, b :: 0 <= a < b < |s| ==> s[a] != s[b]
  }

  /** Every node sits under its own id, the encoding of its path, and has a
      non-empty name without '/'. */
  predicate Keyed(nodes: map<NodeId, FileNode>) {
    forall id :: id in nodes ==>
      nodes[id].id == id && id == NodeId(nodes[id].path) && nodes[id].name != "" && NoSlash(nodes[id].name)
  }

  /** A node's path extends its parent's by its name; a root's path is its
      name after '/'; a node is listed among its parent's children. */
  predicate ParentsLinked(nodes: map<NodeId, FileNode>) {
    forall id {:trigger nodes[id].parentId} :: id in nodes ==>
      match nodes[id].parentId
      case Some(p) => p in nodes && nodes[id].path == nodes[p].path + "/" + nodes[id].name && id in nodes[p].children
      case None => nodes[id].path == "/" + nodes[id].name
  }

  /** Children are nodes that name this node as parent, each listed once. */
  predicate ChildrenLinked(nodes: map<NodeId, FileNode>) {
    forall id {:trigger nodes[id].children} :: id in nodes ==>
      NoDup(nodes[id].children) &&
      forall k :: 0 <= k < |nodes[id].children| ==>
        nodes[id].children[k] in nodes && nodes[nodes[id].children[k]].parentId == Some(id)
  }

  /** The roots are exactly the nodes without a parent, each listed once. */
  ghost predicate RootsLinked(nodes: map<NodeId, FileNode>, roots: seq<NodeId>) {
    NoDup(roots) && forall id :: id in roots <==> id in nodes && nodes[id].parentId == None
  }

  ghost predicate WellFormed(nodes: map<NodeId, FileNode>, roots: seq<NodeId>) {
    Keyed(nodes) && ParentsLinked(nodes) && ChildrenLinked(nodes) && RootsLinked(nodes, roots)
  }

  /** Creating a root node keeps the forest well formed. */
  lemma AddRoot(nodes: map<NodeId, FileNode>, roots: seq<NodeId>, id: NodeId, name: string, kind: FileKind)
    requires WellFormed(nodes, roots) && id !in nodes
    requires name != "" && NoSlash(name) && id == NodeId("/" + name)
    ensures id !in roots
    ensures WellFormed(nodes[id := FileNode(id, name, "/" + name, kind, None, [])], roots + [id])
  {
    AddRootKeyed(nodes, id, name, kind);
    AddRootRoots(nodes, roots, id, name, kind);
    AddRootChildren(nodes, id, name, kind);
    AddRootParents(nodes, id, name, kind);
  }

  lemma AddRootParents(nodes: map<NodeId, FileNode>, id: NodeId, name: string, kind: FileKind)
    requires ParentsLinked(nodes) && id !in nodes
    ensures ParentsLinked(nodes[id := FileNode(id, name, "/" + name, kind, None, [])])
  {
    var n1 := nodes[id := FileNode(id, name, "/" + name, kind, None, [])];
    forall x | x in n1 && x != id ensures n1[x] == nodes[x] {
    }
  }

  lemma AddRootKeyed(nodes: map<NodeId, FileNode>, id: NodeId, name: string, kind: FileKind)
    requires Keyed(nodes) && name != "" && NoSlash(name) && id == NodeId("/" + name)
    ensures Keyed(nodes[id := FileNode(id, name, "/" + name, kind, None, [])])
  {
  }

  /** The new root is appended to the roots, once. */
  lemma AddRootRoots(nodes: map<NodeId, FileNode>, roots: seq<NodeId>, id: NodeId, name: string, kind: FileKind)
    requires RootsLinked(nodes, roots) && id !in nodes
    ensures id !in roots
    ensures RootsLinked(nodes[id := FileNode(id, name, "/" + name, kind, None, [])], roots + [id])
  {
    var r1 := roots + [id];
    assert forall x :: x in r1 <==> x in roots || x == id;
    forall a, b | 0 <= a < b < |r1| ensures r1[a] != r1[b] {
      if b == |roots| {
        assert r1[a] == roots[a];
      }
    }
  }

  lemma AddRootChildren(nodes: map<NodeId, FileNode>, id: NodeId, name: string, kind: FileKind)
    requires ChildrenLinked(nodes) && id !in nodes
    ensures ChildrenLinked(nodes[id := FileNode(id, name, "/" + name, kind, None, [])])
  {
    var n1 := nodes[id := FileNode(id, name, "/" + name, kind, None, [])];
    forall x | x in n1
      ensures forall k :: 0 <= k < |n1[x].children| ==> n1[x].children[k] in n1 && n1[n1[x].children[k]].parentId == Some(x)
    {
      if x != id {
        assert n1[x] == nodes[x];
      }
    }
  }

  /** The forest after creating node `id` under `p`, `p`'s children
      extended by it. */
  function WithChild(nodes: map<NodeId, FileNode>, id: NodeId, name: string, kind: FileKind, p: NodeId): map<NodeId, FileNode>
    requires p in nodes
  {
    var n1 := nodes[id := FileNode(id, name, nodes[p].path + "/" + name, kind, Some(p), [])];
    n1[p := n1[p].(children := n1[p].children + [id])]
  }

  lemma WithChildNodes(nodes: map<NodeId, FileNode>, id: NodeId, name: string, kind: FileKind, p: NodeId)
    requires id !in nodes && p in nodes
    ensures var n2 := WithChild(nodes, id, name, kind, p);
      && n2.Keys == nodes.Keys + {id}
      && n2[id] == FileNode(id, name, nodes[p].path + "/" + name, kind, Some(p), [])
      && n2[p] == nodes[p].(children := nodes[p].children + [id])
      && forall x :: x in nodes && x != p ==> n2[x] == nodes[x]
  {
  }

  lemma AddChildParents(nodes: map<NodeId, FileNode>, id: NodeId, name: string, kind: FileKind, p: NodeId)
    requires Keyed(nodes) && ParentsLinked(nodes) && id !in nodes && p in nodes
    ensures ParentsLinked(WithChild(nodes, id, name, kind, p))
  {
    var n2 := WithChild(nodes, id, name, kind, p);
    WithChildNodes(nodes, id, name, kind, p);
    forall x | x in n2
      ensures match n2[x].parentId
        case Some(q) => q in n2 && n2[x].path == n2[q].path + "/" + n2[x].name && x in n2[q].children
        case None => n2[x].path == "/" + n2[x].name
    {
      if x == id {
        assert id in n2[p].children by {
          assert n2[p].children[|n2[p].children| - 1] == id;
        }
      } else if nodes[x].parentId.Some? {
        var q := nodes[x].parentId.value;
        assert x in nodes[q].children;
        if q == p {
          assert x in nodes[p].children + [id];
        }
      }
    }
  }

  lemma AddChildChildren(nodes: map<NodeId, FileNode>, id: NodeId, name: string, kind: FileKind, p: NodeId)
    requires ChildrenLinked(nodes) && id !in nodes && p in nodes
    ensures ChildrenLinked(WithChild(nodes, id, name, kind, p))
  {
    var n2 := WithChild(nodes, id, name, kind, p);
    WithChildNodes(nodes, id, name, kind, p);
    var cs := nodes[p].children + [id];
    assert id !in nodes[p].children;
    forall x | x in n2
      ensures NoDup(n2[x].children)
      ensures forall k :: 0 <= k < |n2[x].children| ==> n2[x].children[k] in n2 && n2[n2[x].children[k]].parentId == Some(x)
    {
      if x == p {
        forall a, b | 0 <= a < b < |cs| ensures cs[a] != cs[b] {
          if b == |cs| - 1 {
            assert cs[a] == nodes[p].children[a];
          }
        }
        forall k | 0 <= k < |cs| ensures cs[k] in n2 && n2[cs[k]].parentId == Some(x) {
          if k < |cs| - 1 {
            assert cs[k] == nodes[p].children[k];
          }
        }
      }
    }
  }

  lemma AddChildKeyed(nodes: map<NodeId, FileNode>, id: NodeId, name: string, kind: FileKind, p: NodeId)
    requires Keyed(nodes) && id !in nodes && p in nodes
    requires name != "" && NoSlash(name) && id == NodeId(nodes[p].path + "/" + name)
    ensures Keyed(WithChild(nodes, id, name, kind, p))
  {
    WithChildNodes(nodes, id, name, kind, p);
  }

  /** The new child has a parent, so the roots stay as they are. */
  lemma AddChildRoots(nodes: map<NodeId, FileNode>, roots: seq<NodeId>, id: NodeId, name: string, kind: FileKind, p: NodeId)
    requires RootsLinked(nodes, roots) && id !in nodes && p in nodes
    ensures RootsLinked(WithChild(nodes, id, name, kind, p), roots)
  {
    WithChildNodes(nodes, id, name, kind, p);
  }

  /** Creating a child of an existing node, and appending it to the
      parent's children, keeps the forest well formed. */
  lemma AddChild(nodes: map<NodeId, FileNode>, roots: seq<NodeId>, id: NodeId, name: string, kind: FileKind, p: NodeId)
    requires WellFormed(nodes, roots) && id !in nodes && p in nodes
    requires name != "" && NoSlash(name) && id == NodeId(nodes[p].path + "/" + name)
    ensures WellFormed(WithChild(nodes, id, name, kind, p), roots)
  {
    AddChildKeyed(nodes, id, name, kind, p);
    AddChildRoots(nodes, roots, id, name, kind, p);
    AddChildParents(nodes, id, name, kind, p);
    AddChildChildren(nodes, id, name, kind, p);
  }

  function KindFor(fileEnd: bool): FileKind {
    if fileEnd then File else Folder
  }

  /** The nodes are exactly the paths visited so far, each of the kind its
      first visit gave it. */
  ghost predicate Covers(index: map<NodeId, FileNode>, seen: seq<Visit>) {
    && (forall id :: id in index <==> Visited(seen, id.path))
    && (forall id :: id in index ==> index[id].kind == KindFor(FirstIsFile(seen, id.path)))
  }

  /** A visit of a path that already has a node changes nothing. */
  lemma RevisitCovers(index: map<NodeId, FileNode>, seen: seq<Visit>, v: Visit)
    requires Covers(index, seen) && NodeId(v.path) in index
    ensures Covers(index, seen + [v])
  {
    VisitAppendAll(seen, v);
  }

  /** The first visit of a path creates its node, of the visit's kind. */
  lemma CreateCovers(index: map<NodeId, FileNode>, index': map<NodeId, FileNode>, seen: seq<Visit>, v: Visit)
    requires Covers(index, seen) && NodeId(v.path) !in index
    requires forall x :: x in index' <==> x in index || x == NodeId(v.path)
    requires forall x :: x in index ==> index'[x].kind == index[x].kind
    requires index'[NodeId(v.path)].kind == KindFor(v.fileEnd)
    ensures Covers(index', seen + [v])
  {
    VisitAppendAll(seen, v);
  }

  lemma ChildCovers(index: map<NodeId, FileNode>, seen: seq<Visit>, v: Visit, part: string, kind: FileKind, p: NodeId)
    requires Covers(index, seen) && NodeId(v.path) !in index && p in index && kind == KindFor(v.fileEnd)
    ensures Covers(WithChild(index, NodeId(v.path), part, kind, p), seen + [v])
  {
    WithChildNodes(index, NodeId(v.path), part, kind, p);
    CreateCovers(index, WithChild(index, NodeId(v.path), part, kind, p), seen, v);
  }

  lemma RootCovers(index: map<NodeId, FileNode>, seen: seq<Visit>, v: Visit, part: string, kind: FileKind)
    requires Covers(index, seen) && NodeId(v.path) !in index && kind == KindFor(v.fileEnd)
    ensures Covers(index[NodeId(v.path) := FileNode(NodeId(v.path), part, v.path, kind, None, [])], seen + [v])
  {
    CreateCovers(index, index[NodeId(v.path) := FileNode(NodeId(v.path), part, v.path, kind, None, [])], seen, v);
  }

  /** The body of the inner `forEach` once the id is computed: a path
      seen for the first time gets a node, linked under the previous
      segment's node or listed as a root. */
  method Place(index0: map<NodeId, FileNode>, roots0: seq<NodeId>, ghost seen: seq<Visit>, ghost v: Visit,
               currentPath: string, nodeId: NodeId, part: string, kind: FileKind, prevParentId: Option<NodeId>)
    returns (index: map<NodeId, FileNode>, roots: seq<NodeId>)
    requires WellFormed(index0, roots0) && Covers(index0, seen)
    requires part != "" && NoSlash(part) && v.path == currentPath && nodeId == NodeId(currentPath) && kind == KindFor(v.fileEnd)
    requires prevParentId.None? ==> v.path == "/" + part
    requires prevParentId.Some? ==> prevParentId.value in index0 && v.path == index0[prevParentId.value].path + "/" + part
    ensures WellFormed(index, roots) && Covers(index, seen + [v]) && nodeId in index
  {
    index, roots := index0, roots0;
    if nodeId !in index {
      if prevParentId.Some? {
        var p := prevParentId.value;
        AddChild(index, roots, nodeId, part, kind, p);
        ChildCovers(index, seen, v, part, kind, p);
        WithChildNodes(index, nodeId, part, kind, p);
        index := WithChild(index, nodeId, part, kind, p);
      } else {
        AddRoot(index, roots, nodeId, part, kind);
        RootCovers(index, seen, v, part, kind);
        index := index[nodeId := FileNode(nodeId, part, currentPath, kind, prevParentId, [])];
        if nodeId !in roots {
          roots := roots + [nodeId];
        }
      }
    } else {
      RevisitCovers(index, seen, v);
    }
  }

  /** What holds after the first `j` segments of `f` were walked. */
  ghost predicate Walked(f: FileEntry, j: nat, index: map<NodeId, FileNode>, roots: seq<NodeId>, seen0: seq<Visit>, seen: seq<Visit>,
                         currentPath: string, prevParentId: Option<NodeId>)
  {
    var parts := Segments(f.path);
    && j <= |parts|
    && seen == seen0 + EntryVisits(f, j)
    && currentPath == CumPath(parts, j) && Latin1(currentPath)
    && (forall k :: 0 <= k < j ==> Latin1(parts[k]))
    && (j == 0 ==> prevParentId == None)
    && (j > 0 ==> prevParentId == Some(NodeId(currentPath)))
  }

  lemma WalkedNext(f: FileEntry, parts: seq<string>, j: nat, index0: map<NodeId, FileNode>, roots0: seq<NodeId>,
                   seen0: seq<Visit>, seen1: seq<Visit>, path0: string, prev0: Option<NodeId>,
                   index: map<NodeId, FileNode>, roots: seq<NodeId>, v: Visit)
    requires parts == Segments(f.path) && j < |parts|
    requires Walked(f, j, index0, roots0, seen0, seen1, path0, prev0)
    requires Latin1(path0 + "/" + parts[j]) && v == VisitAt(f, j)
    ensures Walked(f, j + 1, index, roots, seen0, seen1 + [v], path0 + "/" + parts[j], Some(NodeId(path0 + "/" + parts[j])))
  {
    Latin1Step(path0, parts[j]);
    assert CumPath(parts, j + 1) == path0 + "/" + parts[j];
    assert seen0 + EntryVisits(f, j + 1) == seen1 + [v];
  }

  /** The node of the previous segment, if any, holds the path so far. */
  lemma PreviousNode(f: FileEntry, parts: seq<string>, j: nat, index0: map<NodeId, FileNode>, roots0: seq<NodeId>,
                     seen0: seq<Visit>, seen1: seq<Visit>, path0: string, prev0: Option<NodeId>)
    requires parts == Segments(f.path) && j < |parts|
    requires Walked(f, j, index0, roots0, seen0, seen1, path0, prev0) && Keyed(index0) && Covers(index0, seen1)
    ensures prev0.None? ==> path0 + "/" + parts[j] == "/" + parts[j]
    ensures prev0.Some? ==> prev0.value in index0 && index0[prev0.value].path == path0
    ensures VisitAt(f, j).path == path0 + "/" + parts[j]
    ensures parts[j] != "" && NoSlash(parts[j])
  {
    if j == 0 {
      assert path0 == "";
    } else {
      EntryVisitsAt(f, j);
      assert seen1[|seen0| + j - 1] == VisitAt(f, j - 1);
      assert Visited(seen1, path0);
    }
  }

  /** One iteration of the inner `forEach`: extend the path by the next
      segment, encode it (`ok` is false when `btoa` throws) and place it. */
  method WalkSegment(f: FileEntry, parts: seq<string>, j: nat, index0: map<NodeId, FileNode>, roots0: seq<NodeId>,
                     ghost seen0: seq<Visit>, ghost seen1: seq<Visit>, path0: string, prev0: Option<NodeId>)
    returns (ok: bool, index: map<NodeId, FileNode>, roots: seq<NodeId>, ghost seen: seq<Visit>,
             currentPath: string, prevParentId: Option<NodeId>)
    requires parts == Segments(f.path) && j < |parts|
    requires Walked(f, j, index0, roots0, seen0, seen1, path0, prev0)
    requires WellFormed(index0, roots0) && Covers(index0, seen1)
    ensures ok <==> Latin1(parts[j])
    ensures ok ==> Walked(f, j + 1, index, roots, seen0, seen, currentPath, prevParentId)
    ensures ok ==> WellFormed(index, roots) && Covers(index, seen)
  {
    var part := parts[j];
    Latin1Step(path0, part);
    currentPath := path0 + "/" + part;
    if !Latin1(currentPath) {
      return false, index0, roots0, seen1, currentPath, prev0;
    }
    var isLast := j == |parts| - 1;
    var nodeId := NodeId(currentPath);
    ghost var v := VisitAt(f, j);
    var kind := if isLast && f.kind == "file" then File else Folder;
    PreviousNode(f, parts, j, index0, roots0, seen0, seen1, path0, prev0);
    index, roots := Place(index0, roots0, seen1, v, currentPath, nodeId, part, kind, prev0);
    WalkedNext(f, parts, j, index0, roots0, seen0, seen1, path0, prev0, index, roots, v);
    seen := seen1 + [v];
    prevParentId := Some(nodeId);
    ok := true;
  }

  /** The inner `parts.forEach` of one entry: `ok` is false when `btoa`
      throws on one of its cumulative paths. */
  method WalkEntry(f: FileEntry, index0: map<NodeId, FileNode>, roots0: seq<NodeId>, ghost seen0: seq<Visit>)
    returns (ok: bool, index: map<NodeId, FileNode>, roots: seq<NodeId>, ghost seen: seq<Visit>)
    requires WellFormed(index0, roots0) && Covers(index0, seen0)
    ensures ok <==> EntryLatin1(f)
    ensures ok ==> WellFormed(index, roots) && Covers(index, seen) && seen == seen0 + EntryVisits(f, |Segments(f.path)|)
  {
    index, roots, seen := index0, roots0, seen0;
    var parts := Segments(f.path);
    var currentPath := "";
    var prevParentId: Option<NodeId> := None;
    var j := 0;
    while j < |parts|
      invariant 0 <= j <= |parts|
      invariant Walked(f, j, index, roots, seen0, seen, currentPath, prevParentId)
      invariant WellFormed(index, roots) && Covers(index, seen)
    {
      var stepOk;
      stepOk, index, roots, seen, currentPath, prevParentId := WalkSegment(f, parts, j, index, roots, seen0, seen, currentPath, prevParentId);
      if !stepOk {
        assert !Latin1(parts[j]);
        return false, index, roots, seen;
      }
      j := j + 1;
    }
    assert PartsLatin1(parts);
    ok := true;
  }

  class FileIndexStore {
    var nodes: map<NodeId, FileNode>
    var rootIds: seq<NodeId>
    var isLoading: bool

    ghost predicate Valid()
      reads this
    {
      WellFormed(nodes, rootIds)
    }

    constructor ()
      ensures nodes == map[] && rootIds == [] && !isLoading && Valid()
    {
      nodes, rootIds, isLoading := map[], [], false;
    }

    /** `initializeIndex`: rebuilds the forest from scratch. When `btoa`
        rejects a path, the walk stops with the store still loading and the
        old forest in place; `ok` says whether the walk completed. */
    method InitializeIndex(files: seq<FileEntry>) returns (ok: bool)
      modifies this
      ensures ok <==> AllLatin1(files)
      ensures !ok ==> isLoading && nodes == old(nodes) && rootIds == old(rootIds)
      ensures ok ==> !isLoading && Valid()
      ensures ok ==> forall id :: id in nodes <==> Visited(Visits(files), id.path)
      ensures ok ==> forall id :: id in nodes ==> nodes[id].kind == KindFor(FirstIsFile(Visits(files), id.path))
    {
      isLoading := true;
      var index: map<NodeId, FileNode> := map[];
      var roots: seq<NodeId> := [];
      ghost var seen: seq<Visit> := [];
      var i := 0;
      while i < |files|
        invariant 0 <= i <= |files|
        invariant WellFormed(index, roots) && Covers(index, seen)
        invariant seen == Visits(files[..i])
        invariant AllLatin1(files[..i])
        invariant isLoading && nodes == old(nodes) && rootIds == old(rootIds)
      {
        var entryOk;
        entryOk, index, roots, seen := WalkEntry(files[i], index, roots, seen);
        if !entryOk {
          return false;
        }
        VisitsStep(files, i);
        AllLatin1Step(files, i);
        i := i + 1;
      }
      assert files[..i] == files;
      nodes, rootIds, isLoading := index, roots, false;
      return true;
    }

    /** `getPathMap`: each node's path to its id. */
    method GetPathMap() returns (m: map<string, NodeId>)
      requires Valid()
      ensures forall p :: p in m <==> NodeId(p) in nodes
      ensures forall p :: p in m ==> m[p] == NodeId(p) && nodes[m[p]].path == p
    {
      m := map[];
      var rest := nodes.Keys;
      while rest != {}
        invariant rest <= nodes.Keys
        invariant forall p :: p in m <==> NodeId(p) in nodes && NodeId(p) !in rest
        invariant forall p :: p in m ==> m[p] == NodeId(p)
        decreases |rest|
      {
        var id :| id in rest;
        var node := nodes[id];
        m := m[node.path := node.id];
        rest := rest - {id};
      }
    }
  }

  /** The step facts for all paths at once. */
  lemma VisitAppendAll(vs: seq<Visit>, v: Visit)
    ensures forall p :: Visited(vs + [v], p) <==> Visited(vs, p) || v.path == p
    ensures forall p :: FirstIsFile(vs + [v], p) == if Visited(vs, p) then FirstIsFile(vs, p) else v.path == p && v.fileEnd
  {
    forall p
      ensures Visited(vs + [v], p) <==> Visited(vs, p) || v.path == p
      ensures FirstIsFile(vs + [v], p) == if Visited(vs, p) then FirstIsFile(vs, p) else v.path == p && v.fileEnd
    {
      VisitAppend(vs, v, p);
    }
  }
}
