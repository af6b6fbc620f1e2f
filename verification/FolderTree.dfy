/**
  The library's folder tree and breadcrumbs, from a table of parent links that may hold cycles
  (Sources/DebridStreamer/ViewModels/LibraryViewModel.swift). Siblings may come in any order: the
  comparison of names is the platform's.
 */
module FolderTree {
  import opened Wrappers

  datatype Folder = Folder(id: string, parentId: Option<string>, name: string, isSystem: bool)

  datatype Node = Node(folder: Folder, children: seq<Node>)

  // ---------------------------------------------------------------------------
  // The dictionaries

  function ChildrenOf(folders: seq<Folder>, parent: Option<string>): seq<Folder> {
    if folders == [] then []
    else
      var n := |folders| - 1;
      ChildrenOf(folders[..n], parent) + if folders[n].parentId == parent then [folders[n]] else []
  }

  /** The last folder with an id is the one the dictionary keeps. */
  function ById(folders: seq<Folder>): map<string, Folder> {
    if folders == [] then map[]
    else
      var n := |folders| - 1;
      ById(folders[..n])[folders[n].id := folders[n]]
  }

  type Groups = map<Option<string>, seq<Folder>>

  predicate IsTable(groups: Groups, folders: seq<Folder>) {
    && (forall k :: k in groups ==> groups[k] == ChildrenOf(folders, k))
    && (forall i :: 0 <= i < |folders| ==> folders[i].parentId in groups)
  }

  method Index(folders: seq<Folder>) returns (byId: map<string, Folder>, groups: Groups)
    ensures byId == ById(folders) && IsTable(groups, folders)
  {
    byId, groups := map[], map[];
    var i := 0;
    while i < |folders|
      invariant 0 <= i <= |folders|
      invariant byId == ById(folders[..i]) && IsTable(groups, folders[..i])
    {
      var folder := folders[i];
      assert folders[..i + 1] == folders[..i] + [folder] && folders[..i + 1][..i] == folders[..i];
      AbsentGroup(groups, folders[..i], folder.parentId);
      byId := byId[folder.id := folder];
      var siblings := if folder.parentId in groups then groups[folder.parentId] else [];
      groups := groups[folder.parentId := siblings + [folder]];
      i := i + 1;
    }
    assert folders[..i] == folders;
  }

  lemma AbsentGroup(groups: Groups, folders: seq<Folder>, k: Option<string>)
    requires IsTable(groups, folders)
    ensures k !in groups ==> ChildrenOf(folders, k) == []
  {
    if k !in groups { NoChildren(folders, k); }
  }

  lemma {:induction false} NoChildren(folders: seq<Folder>, k: Option<string>)
    requires forall i :: 0 <= i < |folders| ==> folders[i].parentId != k
    ensures ChildrenOf(folders, k) == []
  {
    if folders != [] { NoChildren(folders[..|folders| - 1], k); }
  }

  /** The groups after sorting: each in some order. */
  predicate IsArranged(groups: Groups, folders: seq<Folder>) {
    && (forall k :: k in groups ==> multiset(groups[k]) == multiset(ChildrenOf(folders, k)))
    && (forall i :: 0 <= i < |folders| ==> folders[i].parentId in groups)
  }

  predicate UniqueIds(folders: seq<Folder>) {
    forall i, j :: 0 <= i < j < |folders| ==> folders[i].id != folders[j].id
  }

  function Kids(groups: Groups, folder: Folder): seq<Folder> {
    if Some(folder.id) in groups then groups[Some(folder.id)] else []
  }

  lemma {:induction false} ChildrenExactly(folders: seq<Folder>, k: Option<string>)
    ensures forall f :: f in ChildrenOf(folders, k) <==> f in folders && f.parentId == k
  {
    if folders != [] {
      var n := |folders| - 1;
      ChildrenExactly(folders[..n], k);
      assert folders == folders[..n] + [folders[n]];
    }
  }

  lemma {:induction false} ChildrenDistinct(folders: seq<Folder>, k: Option<string>)
    requires UniqueIds(folders)
    ensures forall f :: multiset(ChildrenOf(folders, k))[f] <= 1
  {
    if folders != [] {
      var n := |folders| - 1;
      ChildrenDistinct(folders[..n], k);
      ChildrenExactly(folders[..n], k);
      assert folders[n] !in folders[..n];
    }
  }

  lemma CountTwice<T>(s: seq<T>, i: nat, j: nat)
    requires i < j < |s| && s[i] == s[j]
    ensures multiset(s)[s[i]] >= 2
  {
    assert s == s[..j] + s[j..];
    assert s[i] in s[..j] && s[j] in s[j..];
  }

  /** The children of a folder are the folders that name it, each once. */
  lemma KidsExactly(groups: Groups, folders: seq<Folder>, parent: Folder)
    requires IsArranged(groups, folders) && UniqueIds(folders)
    ensures forall f :: f in Kids(groups, parent) <==> f in folders && f.parentId == Some(parent.id)
    ensures forall i, j :: 0 <= i < j < |Kids(groups, parent)| ==> Kids(groups, parent)[i] != Kids(groups, parent)[j]
  {
    var k := Some(parent.id);
    ChildrenExactly(folders, k);
    ChildrenDistinct(folders, k);
    var kids := Kids(groups, parent);
    if k in groups {
      assert forall f :: f in kids <==> f in multiset(kids);
      assert forall f :: f in ChildrenOf(folders, k) <==> f in multiset(ChildrenOf(folders, k));
      forall i, j | 0 <= i < j < |kids| ensures kids[i] != kids[j] {
        if kids[i] == kids[j] { CountTwice(kids, i, j); }
      }
    }
  }

  // ---------------------------------------------------------------------------
  // Chains of parents

  /** A path down from the root, each folder naming the one before it. */
  predicate IsChain(folders: seq<Folder>, root: Folder, path: seq<Folder>) {
    && path != [] && path[0] == root
    && (forall i :: 0 <= i < |path| ==> path[i] in folders)
    && (forall i :: 0 < i < |path| ==> path[i].parentId == Some(path[i - 1].id))
  }

  function End(path: seq<Folder>): Folder
    requires path != []
  {
    path[|path| - 1]
  }

  /** The root is below itself. */
  ghost predicate Returns(folders: seq<Folder>, root: Folder) {
    exists path :: IsChain(folders, root, path) && |path| > 1 && End(path) == root
  }

  lemma ParentlessNeverReturns(folders: seq<Folder>, root: Folder)
    requires root.parentId.None?
    ensures !Returns(folders, root)
  {
    forall path: seq<Folder> | IsChain(folders, root, path) && |path| > 1 ensures End(path) != root {
      assert path[|path| - 1].parentId == Some(path[|path| - 2].id);
    }
  }

  lemma SameIdSameFolder(folders: seq<Folder>, f: Folder, g: Folder)
    requires UniqueIds(folders) && f in folders && g in folders && f.id == g.id
    ensures f == g
  {
    var i :| 0 <= i < |folders| && folders[i] == f;
    var j :| 0 <= j < |folders| && folders[j] == g;
    assert !(i < j) && !(j < i);
  }

  lemma ChainFront(folders: seq<Folder>, root: Folder, path: seq<Folder>, n: nat)
    requires IsChain(folders, root, path) && 0 < n <= |path|
    ensures IsChain(folders, root, path[..n])
  {
    assert forall i :: 0 <= i < n ==> path[..n][i] == path[i];
  }

  lemma LongEndsElsewhere(folders: seq<Folder>, root: Folder, path: seq<Folder>)
    requires !Returns(folders, root) && IsChain(folders, root, path) && |path| > 1
    ensures End(path) != root
  {
  }

  /** There is one way down to a folder. */
  lemma {:induction false} ChainUnique(folders: seq<Folder>, root: Folder, a: seq<Folder>, b: seq<Folder>)
    requires UniqueIds(folders) && !Returns(folders, root)
    requires IsChain(folders, root, a) && IsChain(folders, root, b) && End(a) == End(b)
    ensures a == b
    decreases |a|
  {
    if |a| > 1 { LongEndsElsewhere(folders, root, a); }
    if |b| > 1 { LongEndsElsewhere(folders, root, b); }
    if |a| > 1 && |b| > 1 {
      var m, n := |a| - 1, |b| - 1;
      assert a[m].parentId == Some(a[m - 1].id) && b[n].parentId == Some(b[n - 1].id);
      SameIdSameFolder(folders, a[m - 1], b[n - 1]);
      ChainFront(folders, root, a, m);
      ChainFront(folders, root, b, n);
      ChainUnique(folders, root, a[..m], b[..n]);
      assert a == a[..m] + [a[m]] && b == b[..n] + [b[n]];
    }
  }

  lemma ChainDistinct(folders: seq<Folder>, root: Folder, path: seq<Folder>, i: nat, j: nat)
    requires UniqueIds(folders) && !Returns(folders, root) && IsChain(folders, root, path) && i < j < |path|
    ensures path[i].id != path[j].id
  {
    ChainFront(folders, root, path, i + 1);
    ChainFront(folders, root, path, j + 1);
    assert |path[..i + 1]| != |path[..j + 1]|;
    if path[i].id == path[j].id {
      SameIdSameFolder(folders, path[i], path[j]);
      ChainUnique(folders, root, path[..i + 1], path[..j + 1]);
    }
  }

  lemma {:induction false} DistinctFits<T>(a: seq<T>, b: seq<T>)
    requires forall i, j :: 0 <= i < j < |a| ==> a[i] != a[j]
    requires forall i :: 0 <= i < |a| ==> a[i] in b
    ensures |a| <= |b|
  {
    if a != [] {
      var n := |a| - 1;
      var k :| 0 <= k < |b| && b[k] == a[n];
      var rest := b[..k] + b[k + 1..];
      forall i | 0 <= i < n ensures a[..n][i] in rest {
        var l :| 0 <= l < |b| && b[l] == a[i];
        if l < k { assert rest[l] == a[i]; } else { assert rest[l - 1] == a[i]; }
      }
      DistinctFits(a[..n], rest);
    }
  }

  lemma ChainFits(folders: seq<Folder>, root: Folder, path: seq<Folder>)
    requires UniqueIds(folders) && !Returns(folders, root) && IsChain(folders, root, path)
    ensures |path| <= |folders|
  {
    forall i, j | 0 <= i < j < |path| ensures path[i] != path[j] { ChainDistinct(folders, root, path, i, j); }
    DistinctFits(path, folders);
  }

  /** If the root is below itself there is a chain of every length: the recursion would not end. */
  lemma {:induction false} ReturningNeverEnds(folders: seq<Folder>, root: Folder, n: nat) returns (path: seq<Folder>)
    requires Returns(folders, root)
    ensures IsChain(folders, root, path) && End(path) == root && |path| > n
  {
    var loop: seq<Folder> :| IsChain(folders, root, loop) && |loop| > 1 && End(loop) == root;
    if n == 0 {
      path := loop;
    } else {
      var shorter := ReturningNeverEnds(folders, root, n - 1);
      path := shorter + loop[1..];
      assert forall i :: |shorter| <= i < |path| ==> path[i] == loop[i - |shorter| + 1];
    }
  }

  // ---------------------------------------------------------------------------
  // The tree

  ghost predicate Buildable(folders: seq<Folder>, groups: Groups, root: Folder, path: seq<Folder>) {
    UniqueIds(folders) && IsArranged(groups, folders) && !Returns(folders, root) && IsChain(folders, root, path)
  }

  lemma LongerChain(folders: seq<Folder>, root: Folder, path: seq<Folder>, kid: Folder)
    requires IsChain(folders, root, path) && kid in folders && kid.parentId == Some(End(path).id)
    ensures IsChain(folders, root, path + [kid])
  {
  }

  lemma ChildChain(folders: seq<Folder>, groups: Groups, root: Folder, path: seq<Folder>, i: nat)
    requires Buildable(folders, groups, root, path) && i < |Kids(groups, End(path))|
    ensures Buildable(folders, groups, root, path + [Kids(groups, End(path))[i]])
    ensures |path| < |folders|
  {
    var kid := Kids(groups, End(path))[i];
    assert kid in folders && kid.parentId == Some(End(path).id) by {
      KidsExactly(groups, folders, End(path));
      assert kid in Kids(groups, End(path));
    }
    LongerChain(folders, root, path, kid);
    ChainFits(folders, root, path + [kid]);
  }

  /** buildNode at the end of a path; that the recursion ends is part of the definition. */
  function Build(ghost folders: seq<Folder>, groups: Groups, ghost root: Folder, ghost path: seq<Folder>,
                 folder: Folder): Node
    requires Buildable(folders, groups, root, path) && folder == End(path)
    decreases |folders| - |path|
  {
    ChainFits(folders, root, path);
    var kids := Kids(groups, folder);
    Node(folder, seq(|kids|, i requires 0 <= i < |kids| =>
      ChildChain(folders, groups, root, path, i);
      Build(folders, groups, root, path + [kids[i]], kids[i])))
  }

  function Tree(ghost folders: seq<Folder>, groups: Groups, root: Folder): Node
    requires UniqueIds(folders) && IsArranged(groups, folders) && !Returns(folders, root) && root in folders
  {
    Build(folders, groups, root, [root], root)
  }

  function Count(node: Node, f: Folder): nat {
    (if node.folder == f then 1 else 0) + CountAll(node.children, f)
  }

  function CountAll(nodes: seq<Node>, f: Folder): nat {
    if nodes == [] then 0 else Count(nodes[0], f) + CountAll(nodes[1..], f)
  }

  /** The folder is reached by going on down from the path. */
  ghost predicate Below(folders: seq<Folder>, root: Folder, path: seq<Folder>, f: Folder) {
    exists q :: IsChain(folders, root, q) && End(q) == f && path <= q
  }

  /** The folder's chain of parents reaches the root. */
  ghost predicate Reaches(folders: seq<Folder>, root: Folder, f: Folder) {
    exists q :: IsChain(folders, root, q) && End(q) == f
  }

  lemma {:induction false} CountOne(nodes: seq<Node>, f: Folder, j: nat)
    requires j < |nodes| && forall i :: 0 <= i < |nodes| ==> Count(nodes[i], f) == if i == j then 1 else 0
    ensures CountAll(nodes, f) == 1
  {
    if j == 0 {
      CountNone(nodes[1..], f);
    } else {
      CountOne(nodes[1..], f, j - 1);
    }
  }

  lemma {:induction false} CountNone(nodes: seq<Node>, f: Folder)
    requires forall i :: 0 <= i < |nodes| ==> Count(nodes[i], f) == 0
    ensures CountAll(nodes, f) == 0
  {
    if nodes != [] { CountNone(nodes[1..], f); }
  }

  /** A chain that goes on from a path goes on to one of its end's children. */
  lemma NextKid(folders: seq<Folder>, groups: Groups, root: Folder, path: seq<Folder>, q: seq<Folder>) returns (j: nat)
    requires UniqueIds(folders) && IsArranged(groups, folders) && path != []
    requires IsChain(folders, root, q) && path <= q && |path| < |q|
    ensures j < |Kids(groups, End(path))| && Kids(groups, End(path))[j] == q[|path|]
    ensures forall i :: 0 <= i < |Kids(groups, End(path))| && Kids(groups, End(path))[i] == q[|path|] ==> i == j
    ensures path + [q[|path|]] <= q
  {
    hide UniqueIds, IsArranged, Kids;
    var kids := Kids(groups, End(path));
    KidsExactly(groups, folders, End(path));
    assert q[|path|].parentId == Some(q[|path| - 1].id);
    assert q[|path|] in kids;
    j :| 0 <= j < |kids| && kids[j] == q[|path|];
  }

  lemma BelowKid(folders: seq<Folder>, root: Folder, path: seq<Folder>, kid: Folder, q: seq<Folder>)
    requires UniqueIds(folders) && !Returns(folders, root) && IsChain(folders, root, q) && path <= q && |path| < |q|
    ensures Below(folders, root, path + [kid], End(q)) <==> kid == q[|path|]
  {
    if kid == q[|path|] { assert path + [kid] <= q; }
    if Below(folders, root, path + [kid], End(q)) {
      var p: seq<Folder> :| IsChain(folders, root, p) && End(p) == End(q) && path + [kid] <= p;
      ChainUnique(folders, root, p, q);
      assert (path + [kid])[|path|] == p[|path|];
    }
  }

  /** A folder strictly below is below exactly one child. */
  lemma BelowOneChild(folders: seq<Folder>, groups: Groups, root: Folder, path: seq<Folder>, f: Folder) returns (j: nat)
    requires Buildable(folders, groups, root, path) && Below(folders, root, path, f) && f != End(path)
    ensures j < |Kids(groups, End(path))|
    ensures forall i :: 0 <= i < |Kids(groups, End(path))| ==>
              (Below(folders, root, path + [Kids(groups, End(path))[i]], f) <==> i == j)
  {
    var q: seq<Folder> :| IsChain(folders, root, q) && End(q) == f && path <= q;
    assert |path| == |q| ==> path == q;
    j := NextKid(folders, groups, root, path, q);
    forall i | 0 <= i < |Kids(groups, End(path))|
      ensures Below(folders, root, path + [Kids(groups, End(path))[i]], f) <==> i == j
    {
      BelowKid(folders, root, path, Kids(groups, End(path))[i], q);
    }
  }

  /** What is below a child is below the folder, and is not the folder itself. */
  lemma BelowChild(folders: seq<Folder>, groups: Groups, root: Folder, path: seq<Folder>, f: Folder, i: nat)
    requires Buildable(folders, groups, root, path) && i < |Kids(groups, End(path))|
    ensures Below(folders, root, path + [Kids(groups, End(path))[i]], f) ==>
              Below(folders, root, path, f) && f != End(path)
  {
    var longer := path + [Kids(groups, End(path))[i]];
    if Below(folders, root, longer, f) {
      var q: seq<Folder> :| IsChain(folders, root, q) && End(q) == f && longer <= q;
      assert path <= q && |path| < |q|;
      if f == End(path) { ChainUnique(folders, root, path, q); }
    }
  }

  /** Once each child counts what is below it, all together count what is strictly below the folder. */
  lemma ChildrenCount(folders: seq<Folder>, groups: Groups, root: Folder, path: seq<Folder>, f: Folder,
                      children: seq<Node>)
    requires Buildable(folders, groups, root, path) && |children| == |Kids(groups, End(path))|
    requires forall i :: 0 <= i < |children| ==>
               Count(children[i], f) == if Below(folders, root, path + [Kids(groups, End(path))[i]], f) then 1 else 0
    ensures CountAll(children, f) == if f != End(path) && Below(folders, root, path, f) then 1 else 0
  {
    if f != End(path) && Below(folders, root, path, f) {
      var j := BelowOneChild(folders, groups, root, path, f);
      CountOne(children, f, j);
    } else {
      forall i | 0 <= i < |children| ensures Count(children[i], f) == 0 {
        BelowChild(folders, groups, root, path, f, i);
      }
      CountNone(children, f);
    }
  }

  lemma {:induction false} BuildCounts(folders: seq<Folder>, groups: Groups, root: Folder, path: seq<Folder>, f: Folder)
    requires Buildable(folders, groups, root, path)
    ensures Count(Build(folders, groups, root, path, End(path)), f) == if Below(folders, root, path, f) then 1 else 0
    decreases |folders| - |path|
  {
    var kids := Kids(groups, End(path));
    var node := Build(folders, groups, root, path, End(path));
    forall i | 0 <= i < |kids|
      ensures Count(node.children[i], f) == if Below(folders, root, path + [kids[i]], f) then 1 else 0
    {
      ChildChain(folders, groups, root, path, i);
      BuildCounts(folders, groups, root, path + [kids[i]], f);
    }
    ChildrenCount(folders, groups, root, path, f, node.children);
    if f == End(path) { assert path <= path; }
  }

  /** Each folder whose chain reaches the root is placed once, and no other folder is. */
  lemma PlacedExactlyOnce(folders: seq<Folder>, groups: Groups, root: Folder, f: Folder)
    requires UniqueIds(folders) && IsArranged(groups, folders) && !Returns(folders, root) && root in folders
    ensures Count(Tree(folders, groups, root), f) == if Reaches(folders, root, f) then 1 else 0
  {
    BuildCounts(folders, groups, root, [root], f);
    if Reaches(folders, root, f) {
      var q: seq<Folder> :| IsChain(folders, root, q) && End(q) == f;
      assert [root] <= q;
    }
  }

  /** With folder support the forest under the root is shown, which leaves out the root alone. */
  lemma ForestLeavesOutRoot(folders: seq<Folder>, groups: Groups, root: Folder, f: Folder)
    requires UniqueIds(folders) && IsArranged(groups, folders) && !Returns(folders, root) && root in folders
    ensures CountAll(Tree(folders, groups, root).children, f) == if Reaches(folders, root, f) && f != root then 1 else 0
  {
    PlacedExactlyOnce(folders, groups, root, f);
    assert IsChain(folders, root, [root]);
  }

  // ---------------------------------------------------------------------------
  // Breadcrumbs

  /** From a folder up: until there is no parent, it is missing, or it was visited. */
  function Trail(byId: map<string, Folder>, cursor: Option<Folder>, visited: set<string>): seq<Folder>
    requires cursor.Some? ==> cursor.value.id in byId
    requires forall id :: id in byId ==> byId[id].id == id
    decreases byId.Keys - visited
  {
    if cursor.None? || cursor.value.id in visited then []
    else
      var parent := cursor.value.parentId;
      [cursor.value]
      + Trail(byId, if parent.Some? && parent.value in byId then Some(byId[parent.value]) else None,
              visited + {cursor.value.id})
  }

  function Reversed(s: seq<Folder>): (r: seq<Folder>)
    ensures |r| == |s| && forall i :: 0 <= i < |s| ==> r[i] == s[|s| - 1 - i]
  {
    seq(|s|, i requires 0 <= i < |s| => s[|s| - 1 - i])
  }

  lemma {:induction false} ByIdExact(folders: seq<Folder>)
    ensures forall id :: id in ById(folders) ==> ById(folders)[id].id == id && ById(folders)[id] in folders
    ensures UniqueIds(folders) ==> forall f :: f in folders ==> f.id in ById(folders) && ById(folders)[f.id] == f
  {
    if folders != [] {
      var n := |folders| - 1;
      ByIdExact(folders[..n]);
      assert folders == folders[..n] + [folders[n]];
    }
  }

  function Lookup(byId: map<string, Folder>, id: string): Option<Folder> {
    if id in byId then Some(byId[id]) else None
  }

  lemma TrailEnds(byId: map<string, Folder>, cursor: Option<Folder>, visited: set<string>)
    requires forall id :: id in byId ==> byId[id].id == id
    requires cursor.Some? ==> cursor.value.id in byId && cursor.value.id in visited
    ensures Trail(byId, cursor, visited) == []
  {
  }

  lemma TrailFirst(byId: map<string, Folder>, folder: Folder, visited: set<string>)
    requires folder.id in byId && folder.id !in visited && forall id :: id in byId ==> byId[id].id == id
    ensures var next := if folder.parentId.Some? then Lookup(byId, folder.parentId.value) else None;
            && (next.Some? ==> next.value.id in byId)
            && Trail(byId, Some(folder), visited) == [folder] + Trail(byId, next, visited + {folder.id})
  {
  }

  /** The loop ends on every dictionary, and its result repeats no folder. */
  method BreadcrumbsFor(folderId: string, byId: map<string, Folder>) returns (result: seq<Folder>)
    requires forall id :: id in byId ==> byId[id].id == id
    ensures result == Reversed(Trail(byId, Lookup(byId, folderId), {}))
    ensures forall i, j :: 0 <= i < j < |result| ==> result[i].id != result[j].id
  {
    hide Trail;
    var trail: seq<Folder> := [];
    var cursor := Lookup(byId, folderId);
    var visited: set<string> := {};
    while cursor.Some? && cursor.value.id !in visited
      invariant cursor.Some? ==> cursor.value.id in byId
      invariant Trail(byId, Lookup(byId, folderId), {}) == trail + Trail(byId, cursor, visited)
      invariant forall i :: 0 <= i < |trail| ==> trail[i].id in visited
      invariant forall i, j :: 0 <= i < j < |trail| ==> trail[i].id != trail[j].id
      decreases byId.Keys - visited
    {
      var folder := cursor.value;
      TrailFirst(byId, folder, visited);
      visited := visited + {folder.id};
      trail := trail + [folder];
      cursor := if folder.parentId.Some? then Lookup(byId, folder.parentId.value) else None;
    }
    TrailEnds(byId, cursor, visited);
    result := Reversed(trail);
  }

  predicate Indexes(byId: map<string, Folder>, folders: seq<Folder>) {
    && (forall id :: id in byId ==> byId[id].id == id)
    && (forall f :: f in folders ==> f.id in byId && byId[f.id] == f)
  }

  lemma TrailStep(byId: map<string, Folder>, folders: seq<Folder>, path: seq<Folder>, visited: set<string>)
    requires Indexes(byId, folders) && path != [] && (forall i :: 0 <= i < |path| ==> path[i] in folders)
    requires End(path).id !in visited
    requires if |path| == 1 then path[0].parentId.None? else path[|path| - 1].parentId == Some(path[|path| - 2].id)
    ensures Trail(byId, Some(End(path)), visited) == [End(path)] +
              if |path| == 1 then [] else Trail(byId, Some(path[|path| - 2]), visited + {End(path).id})
  {
    if |path| > 1 { assert path[|path| - 2] in folders; }
  }

  lemma ReversedLast(path: seq<Folder>)
    requires path != []
    ensures Reversed(path) == [End(path)] + Reversed(path[..|path| - 1])
    ensures |path| == 1 ==> Reversed(path) == [End(path)]
  {
  }

  /** Walking up from the end of a chain retraces it. */
  lemma {:induction false} TrailRetraces(byId: map<string, Folder>, folders: seq<Folder>, root: Folder,
                                         path: seq<Folder>, visited: set<string>)
    requires Indexes(byId, folders) && IsChain(folders, root, path) && root.parentId.None?
    requires forall i, j :: 0 <= i < j < |path| ==> path[i].id != path[j].id
    requires forall i :: 0 <= i < |path| ==> path[i].id !in visited
    ensures Trail(byId, Some(End(path)), visited) == Reversed(path)
    decreases |path|
  {
    hide Trail, Reversed;
    TrailStep(byId, folders, path, visited);
    ReversedLast(path);
    if |path| > 1 {
      var n := |path| - 1;
      ChainFront(folders, root, path, n);
      TrailRetraces(byId, folders, root, path[..n], visited + {path[n].id});
    }
  }

  /** A path of tree nodes. */
  predicate IsTreePath(node: Node, path: seq<Folder>) {
    path != [] && path[0] == node.folder
    && (|path| == 1 || exists i :: 0 <= i < |node.children| && IsTreePath(node.children[i], path[1..]))
  }

  lemma {:induction false} ChainIsTreePath(folders: seq<Folder>, groups: Groups, root: Folder, path: seq<Folder>,
                                           q: seq<Folder>)
    requires Buildable(folders, groups, root, path) && IsChain(folders, root, q) && path <= q
    ensures IsTreePath(Build(folders, groups, root, path, End(path)), q[|path| - 1..])
    decreases |q| - |path|
  {
    if |path| < |q| {
      var i := NextKid(folders, groups, root, path, q);
      ChildChain(folders, groups, root, path, i);
      ChainIsTreePath(folders, groups, root, path + [q[|path|]], q);
      assert q[|path| - 1..][1..] == q[|path|..];
      assert IsTreePath(Build(folders, groups, root, path, End(path)).children[i], q[|path| - 1..][1..]);
    }
  }

  lemma CrumbsRetrace(folders: seq<Folder>, root: Folder, q: seq<Folder>)
    requires UniqueIds(folders) && root.parentId.None? && IsChain(folders, root, q)
    requires Indexes(ById(folders), folders)
    ensures Reversed(Trail(ById(folders), Lookup(ById(folders), End(q).id), {})) == q
  {
    ParentlessNeverReturns(folders, root);
    forall i, j | 0 <= i < j < |q| ensures q[i].id != q[j].id { ChainDistinct(folders, root, q, i, j); }
    TrailRetraces(ById(folders), folders, root, q, {});
    assert End(q) in folders;
    assert Reversed(Reversed(q)) == q;
  }

  lemma ChainInTree(folders: seq<Folder>, groups: Groups, root: Folder, q: seq<Folder>)
    requires UniqueIds(folders) && IsArranged(groups, folders) && !Returns(folders, root) && root in folders
    requires IsChain(folders, root, q)
    ensures IsTreePath(Tree(folders, groups, root), q)
  {
    assert [root] <= q && q[0..] == q;
    ChainIsTreePath(folders, groups, root, [root], q);
  }

  /** For a placed folder the breadcrumbs are the path to it in the tree, from the root. */
  lemma BreadcrumbsAreTheTreePath(folders: seq<Folder>, groups: Groups, root: Folder, f: Folder)
    requires UniqueIds(folders) && IsArranged(groups, folders) && root.parentId.None? && root in folders
    requires Reaches(folders, root, f)
    ensures Indexes(ById(folders), folders) && !Returns(folders, root)
    ensures var crumbs := Reversed(Trail(ById(folders), Lookup(ById(folders), f.id), {}));
            crumbs != [] && End(crumbs) == f && IsTreePath(Tree(folders, groups, root), crumbs)
  {
    ParentlessNeverReturns(folders, root);
    ByIdExact(folders);
    var q: seq<Folder> :| IsChain(folders, root, q) && End(q) == f;
    CrumbsRetrace(folders, root, q);
    ChainInTree(folders, groups, root, q);
  }
}
