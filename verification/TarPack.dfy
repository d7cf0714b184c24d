/** Packing a directory: the walk that prunes excluded directories. */
module TarPack {
  import opened Basics
  import opened PathNames
  import opened TarFilter
  import GlobMatch

  type Perm = bv9

  type Content = seq<bv8>

  /** A directory's entries in walk order. */
  datatype Forest = Nil | Cons(name: string, node: Node, rest: Forest)

  datatype Node =
    | Directory(perm: Perm, mtime: Time, children: Forest)
    | Regular(perm: Perm, mtime: Time, content: Content)
    | Special

  datatype Kind = DirEntry | FileEntry | OtherEntry

  datatype Entry = Entry(kind: Kind, name: string, perm: Perm, mtime: Time, content: Content)

  predicate Absent(forest: Forest, name: string) {
    match forest
    case Nil => true
    case Cons(n, node, rest) => n != name && Absent(rest, name)
  }

  /** Names are proper file names, and siblings have different ones. */
  predicate ProperForest(forest: Forest) {
    match forest
    case Nil => true
    case Cons(n, node, rest) => Segment(n) && Absent(rest, n) && ProperNode(node) && ProperForest(rest)
  }

  predicate ProperNode(node: Node) {
    node.Directory? ==> ProperForest(node.children)
  }

  /** The archive format keeps whole seconds: the nearest one, and of two the later. */
  function RoundToSecond(t: Time): (r: Time)
    ensures r % SECOND == 0 && t - SECOND / 2 < r <= t + SECOND / 2
  {
    (t + 500_000_000) / 1_000_000_000 * 1_000_000_000
  }

  function Stored(e: Entry): Entry {
    e.(mtime := RoundToSecond(e.mtime))
  }

  function DirEntryFor(path: seq<string>, perm: Perm, mtime: Time): Entry {
    Stored(Entry(DirEntry, Join(path) + "/", perm, mtime, []))
  }

  function FileEntryFor(path: seq<string>, perm: Perm, mtime: Time, content: Content): Entry {
    Stored(Entry(FileEntry, Join(path), perm, mtime, content))
  }

  /** Every directory and regular file below `prefix`, parents before children;
      special files are left out. */
  function FullWalk(prefix: seq<string>, forest: Forest): seq<Entry>
    decreases forest
  {
    match forest
    case Nil => []
    case Cons(name, node, rest) => NodeWalk(prefix + [name], node) + FullWalk(prefix, rest)
  }

  function NodeWalk(path: seq<string>, node: Node): seq<Entry>
    decreases node
  {
    match node
    case Directory(perm, mtime, children) => [DirEntryFor(path, perm, mtime)] + FullWalk(path, children)
    case Regular(perm, mtime, content) => [FileEntryFor(path, perm, mtime, content)]
    case Special => []
  }

  /** The entries a filter lets through, in order. */
  ghost function Select(f: Filter, entries: seq<Entry>): seq<Entry> {
    if entries == [] then []
    else
      var rest := Select(f, entries[1..]);
      if Included(f, PathOf(entries[0].name)) then [entries[0]] + rest else rest
  }

  lemma {:induction false} SelectAppend(f: Filter, a: seq<Entry>, b: seq<Entry>)
    ensures Select(f, a + b) == Select(f, a) + Select(f, b)
  {
    if a == [] {
      assert a + b == b;
    } else {
      assert (a + b)[1..] == a[1..] + b;
      SelectAppend(f, a[1..], b);
    }
  }

  lemma SelectFirst(f: Filter, e: Entry, rest: seq<Entry>)
    ensures Select(f, [e] + rest) == (if Included(f, PathOf(e.name)) then [e] else []) + Select(f, rest)
  {
    assert ([e] + rest)[1..] == rest;
    SelectAppend(f, [e], rest);
    assert [e][1..] == [];
  }

  /** Below an excluded directory nothing is selected. */
  lemma {:induction false} NothingBelow(f: Filter, prefix: seq<string>, forest: Forest)
    requires prefix != [] && Segments(prefix) && ProperForest(forest) && Excluded(f, prefix)
    ensures Select(f, FullWalk(prefix, forest)) == []
    decreases forest
  {
    match forest
    case Nil =>
    case Cons(name, node, rest) =>
      ExclusionIsInherited(f, prefix, [name]);
      NothingAt(f, prefix + [name], node);
      NothingBelow(f, prefix, rest);
      SelectAppend(f, NodeWalk(prefix + [name], node), FullWalk(prefix, rest));
  }

  lemma {:induction false} NothingAt(f: Filter, path: seq<string>, node: Node)
    requires path != [] && Segments(path) && ProperNode(node) && Excluded(f, path)
    ensures Select(f, NodeWalk(path, node)) == []
    decreases node
  {
    PathOfJoin(path);
    match node
    case Directory(perm, mtime, children) =>
      NothingBelow(f, path, children);
      SelectFirst(f, DirEntryFor(path, perm, mtime), FullWalk(path, children));
    case Regular(perm, mtime, content) =>
      SelectFirst(f, FileEntryFor(path, perm, mtime, content), []);
    case Special =>
  }

  /** What selecting from the walk of a directory comes to. */
  lemma DirectorySelected(f: Filter, path: seq<string>, node: Node)
    requires path != [] && Segments(path) && node.Directory?
    ensures Select(f, NodeWalk(path, node))
            == (if Included(f, path) then [DirEntryFor(path, node.perm, node.mtime)] else [])
               + Select(f, FullWalk(path, node.children))
  {
    PathOfJoin(path);
    SelectFirst(f, DirEntryFor(path, node.perm, node.mtime), FullWalk(path, node.children));
  }

  lemma FileSelected(f: Filter, path: seq<string>, node: Node)
    requires path != [] && Segments(path) && node.Regular?
    ensures Select(f, NodeWalk(path, node))
            == if Included(f, path) then [FileEntryFor(path, node.perm, node.mtime, node.content)] else []
  {
    PathOfJoin(path);
    SelectFirst(f, FileEntryFor(path, node.perm, node.mtime, node.content), []);
  }

  lemma Regroup<T>(a: seq<T>, b: seq<T>, c: seq<T>)
    ensures a + b + c == a + (b + c)
  {
  }

  lemma ForestSelected(f: Filter, prefix: seq<string>, name: string, node: Node, rest: Forest)
    ensures Select(f, FullWalk(prefix, Cons(name, node, rest)))
            == Select(f, NodeWalk(prefix + [name], node)) + Select(f, FullWalk(prefix, rest))
  {
    SelectAppend(f, NodeWalk(prefix + [name], node), FullWalk(prefix, rest));
  }

  /** The archive being written. */
  class TarWriter {
    var entries: seq<Entry>

    constructor ()
      ensures entries == []
    {
      entries := [];
    }

    method Write(e: Entry)
      modifies this
      ensures entries == old(entries) + [Stored(e)]
    {
      entries := entries + [Stored(e)];
    }
  }

  /** The walk over the entries of one directory. It does not descend into
      excluded directories, and still writes exactly what filtering the full walk
      would. */
  method WriteForest(tw: TarWriter, f: Filter, prefix: seq<string>, forest: Forest)
    requires Segments(prefix) && ProperForest(forest)
    modifies tw
    ensures tw.entries == old(tw.entries) + Select(f, FullWalk(prefix, forest))
    decreases forest
  {
    match forest {
      case Nil =>
      case Cons(name, node, rest) =>
        ForestSelected(f, prefix, name, node, rest);
        ghost var before := tw.entries;
        var path := prefix + [name];
        ghost var here, there := Select(f, NodeWalk(path, node)), Select(f, FullWalk(prefix, rest));
        WriteNode(tw, f, path, node);
        WriteForest(tw, f, prefix, rest);
        Regroup(before, here, there);
    }
  }

  /** The walk callback on one entry, and the descent below it. */
  method WriteNode(tw: TarWriter, f: Filter, path: seq<string>, node: Node)
    requires path != [] && Segments(path) && ProperNode(node)
    modifies tw
    ensures tw.entries == old(tw.entries) + Select(f, NodeWalk(path, node))
    decreases node
  {
    var rel := Join(path);
    PathOfJoin(path);
    match node {
      case Directory(perm, mtime, children) =>
        var excluded := IsExcluded(f, rel);
        if excluded {
          NothingAt(f, path, node);
          return;
        }
        DirectorySelected(f, path, node);
        ghost var before := tw.entries;
        var included := IsIncluded(f, rel);
        if included {
          tw.Write(Entry(DirEntry, rel + "/", perm, mtime, []));
        }
        ghost var head := if included then [DirEntryFor(path, perm, mtime)] else [];
        assert tw.entries == before + head;
        WriteForest(tw, f, path, children);
        Regroup(before, head, Select(f, FullWalk(path, children)));
      case Regular(perm, mtime, content) =>
        FileSelected(f, path, node);
        var included := IsIncluded(f, rel);
        if included {
          tw.Write(Entry(FileEntry, rel, perm, mtime, content));
        }
      case Special =>
    }
  }

  /** Packs a directory. */
  method WriteDirToTar(f: Filter, root: Forest) returns (tw: TarWriter)
    requires ProperForest(root)
    ensures fresh(tw) && tw.entries == Select(f, FullWalk([], root))
  {
    tw := new TarWriter();
    WriteForest(tw, f, [], root);
  }

  lemma {:induction false} EverythingSelected(glob: GlobMatch.Glob, entries: seq<Entry>)
    ensures Select(Everything(glob), entries) == entries
  {
    if entries != [] {
      EverythingSelected(glob, entries[1..]);
    }
  }
}
