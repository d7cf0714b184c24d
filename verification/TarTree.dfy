/** What an archive of a tree is: its paths, and what stands at each. */
module TarTree {
  import opened Basics
  import opened PathNames
  import opened TarPack
  import opened FileSystem

  /** What an entry restores: an inode at a path below the destination. */
  datatype Item = Item(path: Path, inode: Inode)

  function EntryOf(item: Item): Entry {
    match item.inode
    case Dir(perm, mtime) => Entry(DirEntry, Join(item.path) + "/", perm, mtime, [])
    case File(perm, mtime, content) => Entry(FileEntry, Join(item.path), perm, mtime, content)
  }

  function Entries(items: seq<Item>): (entries: seq<Entry>)
    ensures |entries| == |items|
  {
    if items == [] then [] else [EntryOf(items[0])] + Entries(items[1..])
  }

  lemma {:induction false} EntriesAppend(a: seq<Item>, b: seq<Item>)
    ensures Entries(a + b) == Entries(a) + Entries(b)
  {
    if a == [] {
      assert a + b == b;
    } else {
      assert (a + b)[1..] == a[1..] + b;
      EntriesAppend(a[1..], b);
    }
  }

  ghost predicate DistinctPaths(items: seq<Item>) {
    forall i, j {:trigger Differ(i, j)} ::
      Differ(i, j) && 0 <= i < |items| && 0 <= j < |items| ==> items[i].path != items[j].path
  }

  predicate ParentAt(items: seq<Item>, path: Path, j: nat)
    requires j < |items| && path != []
  {
    items[j].inode.Dir? && items[j].path == Parent(path)
  }

  /** The item lies directly in `prefix` or in a directory archived before it. */
  ghost predicate Parented(prefix: Path, items: seq<Item>, i: nat)
    requires i < |items|
  {
    && prefix < items[i].path && Segments(items[i].path)
    && (Parent(items[i].path) == prefix || exists j :: 0 <= j < i && ParentAt(items, items[i].path, j))
  }

  /** Different paths, parents before children. */
  ghost predicate TreeArchive(prefix: Path, items: seq<Item>) {
    DistinctPaths(items) && forall i :: 0 <= i < |items| ==> Parented(prefix, items, i)
  }

  lemma AppendTrees(prefix: Path, a: seq<Item>, b: seq<Item>)
    requires TreeArchive(prefix, a) && TreeArchive(prefix, b)
    requires forall x, y :: x in a && y in b ==> x.path != y.path
    ensures TreeArchive(prefix, a + b)
  {
    var s := a + b;
    forall i, j | Differ(i, j) && 0 <= i < |s| && 0 <= j < |s| ensures s[i].path != s[j].path {
      assert Differ(i - |a|, j - |a|);
      assert i < |a| ==> s[i] in a;
      assert i >= |a| ==> s[i] in b;
      assert j < |a| ==> s[j] in a;
      assert j >= |a| ==> s[j] in b;
    }
    forall i | 0 <= i < |s| ensures Parented(prefix, s, i) {
      if i < |a| {
        assert Parented(prefix, a, i);
        if j :| 0 <= j < i && ParentAt(a, a[i].path, j) { assert ParentAt(s, s[i].path, j); }
      } else {
        var k := i - |a|;
        assert Parented(prefix, b, k);
        if j :| 0 <= j < k && ParentAt(b, b[k].path, j) { assert ParentAt(s, s[i].path, j + |a|); }
      }
    }
  }

  lemma DirectoryTree(prefix: Path, name: string, d: Item, walk: seq<Item>)
    requires d.inode.Dir? && d.path == prefix + [name] && Segments(d.path)
    requires TreeArchive(d.path, walk)
    ensures TreeArchive(prefix, [d] + walk)
  {
    var s := [d] + walk;
    forall i, j | Differ(i, j) && 0 <= i < |s| && 0 <= j < |s| ensures s[i].path != s[j].path {
      assert Differ(i - 1, j - 1);
      assert i > 0 ==> Parented(d.path, walk, i - 1);
      assert j > 0 ==> Parented(d.path, walk, j - 1);
    }
    forall i | 0 <= i < |s| ensures Parented(prefix, s, i) {
      if i == 0 {
        assert Parent(prefix + [name]) == prefix;
      } else {
        assert Parented(d.path, walk, i - 1) && prefix < d.path;
        if Parent(s[i].path) == d.path {
          assert ParentAt(s, s[i].path, 0);
        } else {
          var j :| 0 <= j < i - 1 && ParentAt(walk, s[i].path, j);
          assert ParentAt(s, s[i].path, j + 1);
        }
      }
    }
  }

  // ---------------------------------------------------------------- trees

  /** The directory or regular file at a path below a forest. */
  function StatTree(forest: Forest, path: Path): Option<Inode>
    requires path != []
    decreases forest
  {
    match forest
    case Nil => None
    case Cons(name, node, rest) => if path[0] == name then StatNode(node, path[1..]) else StatTree(rest, path)
  }

  function StatNode(node: Node, below: Path): Option<Inode>
    decreases node
  {
    match node
    case Directory(perm, mtime, children) => if below == [] then Some(Dir(perm, mtime)) else StatTree(children, below)
    case Regular(perm, mtime, content) => if below == [] then Some(File(perm, mtime, content)) else None
    case Special => None
  }

  /** What the archive says about an inode: times are whole seconds. */
  function Rounded(node: Inode): Inode {
    node.(mtime := RoundToSecond(node.mtime))
  }

  /** The items of a walk. */
  function Items(prefix: Path, forest: Forest): seq<Item>
    decreases forest
  {
    match forest
    case Nil => []
    case Cons(name, node, rest) => NodeItems(prefix + [name], node) + Items(prefix, rest)
  }

  function NodeItems(path: Path, node: Node): seq<Item>
    decreases node
  {
    match node
    case Directory(perm, mtime, children) => [Item(path, Rounded(Dir(perm, mtime)))] + Items(path, children)
    case Regular(perm, mtime, content) => [Item(path, Rounded(File(perm, mtime, content)))]
    case Special => []
  }

  lemma {:induction false} WalkEntries(prefix: Path, forest: Forest)
    ensures FullWalk(prefix, forest) == Entries(Items(prefix, forest))
    decreases forest
  {
    match forest
    case Nil =>
    case Cons(name, node, rest) =>
      NodeEntries(prefix + [name], node);
      WalkEntries(prefix, rest);
      EntriesAppend(NodeItems(prefix + [name], node), Items(prefix, rest));
  }

  lemma {:induction false} NodeEntries(path: Path, node: Node)
    ensures NodeWalk(path, node) == Entries(NodeItems(path, node))
    decreases node
  {
    match node
    case Directory(perm, mtime, children) =>
      WalkEntries(path, children);
      var items := [Item(path, Rounded(Dir(perm, mtime)))] + Items(path, children);
      assert items[1..] == Items(path, children) && items[0] == Item(path, Rounded(Dir(perm, mtime)));
    case Regular(perm, mtime, content) =>
      assert [Item(path, Rounded(File(perm, mtime, content)))][1..] == [];
    case Special =>
  }

  predicate ArchivedAs(found: Option<Inode>, node: Inode) {
    found.Some? && node == Rounded(found.value)
  }

  /** Each item is what stands at its path, and everything in the tree has one. */
  ghost predicate Lists(prefix: Path, forest: Forest, items: seq<Item>) {
    && (forall e :: e in items ==> IsThere(prefix, forest, e))
    && (forall path :: path != [] && StatTree(forest, path).Some? ==> HasItem(prefix + path, items))
  }

  predicate IsThere(prefix: Path, forest: Forest, e: Item) {
    && prefix < e.path
    && ArchivedAs(StatTree(forest, e.path[|prefix|..]), e.inode)
  }

  ghost predicate HasItem(path: Path, items: seq<Item>) {
    exists e :: e in items && e.path == path
  }

  lemma {:induction false} AbsentHasNothing(forest: Forest, path: Path)
    requires path != [] && Absent(forest, path[0])
    ensures StatTree(forest, path) == None
  {
    match forest
    case Nil =>
    case Cons(name, node, rest) => AbsentHasNothing(rest, path);
  }

  lemma {:induction false} WalkIsTree(prefix: Path, forest: Forest)
    requires Segments(prefix) && ProperForest(forest)
    ensures TreeArchive(prefix, Items(prefix, forest)) && Lists(prefix, forest, Items(prefix, forest))
    decreases forest
  {
    match forest
    case Nil =>
    case Cons(name, node, rest) =>
      var a, b := NodeItems(prefix + [name], node), Items(prefix, rest);
      NodeIsTree(prefix, name, node);
      WalkIsTree(prefix, rest);
      ConsLists(prefix, name, node, rest, a, b);
      forall x, y | x in a && y in b ensures x.path != y.path {
        assert IsThereInNode(prefix, name, node, x) && IsThere(prefix, rest, y);
        if y.path[|prefix|] == name { AbsentHasNothing(rest, y.path[|prefix|..]); }
      }
      AppendTrees(prefix, a, b);
  }

  /** The same for one entry of a directory. */
  ghost predicate NodeLists(prefix: Path, name: string, node: Node, items: seq<Item>) {
    && (forall e :: e in items ==> IsThereInNode(prefix, name, node, e))
    && (forall below :: StatNode(node, below).Some? ==> HasItem(prefix + [name] + below, items))
  }

  predicate IsThereInNode(prefix: Path, name: string, node: Node, e: Item) {
    && prefix + [name] <= e.path
    && ArchivedAs(StatNode(node, e.path[|prefix| + 1..]), e.inode)
  }

  lemma ConsLists(prefix: Path, name: string, node: Node, rest: Forest, a: seq<Item>, b: seq<Item>)
    requires NodeLists(prefix, name, node, a) && Lists(prefix, rest, b) && Absent(rest, name)
    ensures Lists(prefix, Cons(name, node, rest), a + b)
  {
    var forest := Cons(name, node, rest);
    forall e | e in a + b ensures IsThere(prefix, forest, e) {
      var path := e.path[|prefix|..];
      if e in a {
        assert IsThereInNode(prefix, name, node, e);
        assert path[0] == name && path[1..] == e.path[|prefix| + 1..];
      } else {
        assert IsThere(prefix, rest, e);
        if path[0] == name { AbsentHasNothing(rest, path); }
      }
    }
    forall path | path != [] && StatTree(forest, path).Some? ensures HasItem(prefix + path, a + b) {
      if path[0] == name {
        assert prefix + [name] + path[1..] == prefix + path;
        assert HasItem(prefix + [name] + path[1..], a);
      } else {
        assert HasItem(prefix + path, b);
      }
    }
  }

  lemma {:induction false} NodeIsTree(prefix: Path, name: string, node: Node)
    requires Segments(prefix) && Segment(name) && ProperNode(node)
    ensures var items := NodeItems(prefix + [name], node);
            TreeArchive(prefix, items) && NodeLists(prefix, name, node, items)
    decreases node
  {
    var path := prefix + [name];
    assert Parent(path) == prefix && path[|prefix| + 1..] == [];
    match node
    case Directory(perm, mtime, children) =>
      var d := Item(path, Rounded(Dir(perm, mtime)));
      WalkIsTree(path, children);
      DirectoryTree(prefix, name, d, Items(path, children));
      DirectoryLists(prefix, name, node, d, Items(path, children));
    case Regular(perm, mtime, content) =>
      var f := Item(path, Rounded(File(perm, mtime, content)));
      assert IsThereInNode(prefix, name, node, f);
      assert f in [f] && f.path == prefix + [name] + [];
    case Special =>
  }

  lemma DirectoryLists(prefix: Path, name: string, node: Node, d: Item, walk: seq<Item>)
    requires node.Directory? && d == Item(prefix + [name], Rounded(Dir(node.perm, node.mtime)))
    requires Lists(d.path, node.children, walk)
    ensures NodeLists(prefix, name, node, [d] + walk)
  {
    var path, all := d.path, [d] + walk;
    forall e | e in all ensures IsThereInNode(prefix, name, node, e) {
      if e in walk {
        assert IsThere(path, node.children, e);
      } else {
        assert d.path[|prefix| + 1..] == [];
      }
    }
    forall below | StatNode(node, below).Some? ensures HasItem(prefix + [name] + below, all) {
      if below == [] {
        assert d in all && d.path == prefix + [name] + below;
      } else {
        assert HasItem(path + below, walk);
      }
    }
  }
}
