/** Packing and extracting undo each other; filtering commutes with both. */
module TarRoundTrip {
  import opened Basics
  import opened PathNames
  import opened TarFilter
  import opened TarPack
  import opened FileSystem
  import opened TarExtract
  import opened TarTree

  // ---------------------------------------------------------------- one extraction step

  function Target(job: Job, e: Item): Path {
    job.dest + e.path
  }

  function Stat(nodes: Nodes, path: Path): Option<Inode> {
    if path in nodes then Some(nodes[path]) else None
  }

  /** A directory that extraction may fill. */
  ghost predicate OpenDestination(job: Job, nodes: Nodes) {
    && Segments(job.dest) && job.dest != [] && Reachable(job.host, nodes, job.dest)
    && job.dest in nodes && MaySearch(job.host, nodes[job.dest]) && MayWrite(job.host, nodes[job.dest])
  }

  /** One with nothing below it yet. */
  ghost predicate EmptyDestination(job: Job, nodes: Nodes) {
    OpenDestination(job, nodes) && forall p :: p in nodes ==> !(job.dest < p)
  }

  /** What stands where an entry goes may be replaced: a writable file by a file, an
      open directory by a directory. */
  predicate MayReplace(host: Host, found: Inode, recorded: Inode) {
    && found.Dir? == recorded.Dir? && MayWrite(host, found)
    && (found.Dir? ==> MaySearch(host, found))
  }

  /** A directory not stamped yet: newly created, or as it was but for its time. */
  predicate Unstamped(host: Host, was: Option<Inode>, node: Inode) {
    && node.Dir?
    && (if was.None? then node.perm == DIR_DEFAULT & !host.umask && Modern(node.mtime)
        else was.value.Dir? && node.perm == was.value.perm
             && (Modern(node.mtime) || node.mtime == was.value.mtime))
  }

  function DefaultPerm(node: Inode): TarPack.Perm {
    if node.Dir? then DIR_DEFAULT else FILE_DEFAULT
  }

  /** The disk holds what the archive recorded: kind, content, permission bits
      (a default when there are none) and time. Only Go's zero time is not restored:
      a file or a new directory then has the clock's, and a directory that was there
      may keep its own. */
  predicate Restores(was: Option<Inode>, found: Inode, recorded: Inode) {
    && found.Dir? == recorded.Dir?
    && (found.File? ==> found.content == recorded.content)
    && found.perm == TarPerm(recorded.perm, DefaultPerm(recorded))
    && (if recorded.mtime != ZERO_TIME then found.mtime == recorded.mtime
        else Modern(found.mtime)
             || (found.Dir? && was.Some? && was.value.Dir? && found.mtime == was.value.mtime))
  }

  predicate Placed(job: Job, base: Nodes, nodes: Nodes, e: Item, stamped: bool) {
    var t := Target(job, e);
    && t in nodes
    && if stamped || e.inode.File? then Restores(Stat(base, t), nodes[t], e.inode)
       else Unstamped(job.host, Stat(base, t), nodes[t])
  }

  predicate TargetAt(job: Job, items: seq<Item>, i: nat, p: Path)
    requires i < |items|
  {
    p == Target(job, items[i])
  }

  /** One of the first `n` items goes there. */
  ghost predicate IsTarget(job: Job, items: seq<Item>, n: nat, p: Path)
    requires n <= |items|
  {
    exists i :: 0 <= i < n && TargetAt(job, items, i, p)
  }

  /** Nothing but the first `n` items changed, and the destination's time. */
  ghost predicate Untouched(job: Job, base: Nodes, nodes: Nodes, items: seq<Item>, n: nat)
    requires n <= |items|
  {
    && (forall p :: p in base ==> p in nodes)
    && (forall p :: p in base && p != job.dest && !IsTarget(job, items, n, p) ==> nodes[p] == base[p])
    && (forall p :: p in nodes && p !in base ==> IsTarget(job, items, n, p))
    && job.dest in base && job.dest in nodes && base[job.dest].Dir? && nodes[job.dest].Dir?
    && nodes[job.dest].perm == base[job.dest].perm
  }

  /** The first `n` items are on disk; directories before entry `k` still have
      the mode they had or were created with, everything else is final. */
  ghost predicate Layout(job: Job, base: Nodes, nodes: Nodes, items: seq<Item>, n: nat, k: nat)
    requires n <= |items|
  {
    && Untouched(job, base, nodes, items, n)
    && (forall i :: 0 <= i < n ==> Placed(job, base, nodes, items[i], i >= k))
  }

  /** Whatever stands where an item goes may be replaced by it. */
  ghost predicate Replaceable(job: Job, base: Nodes, items: seq<Item>) {
    forall i :: 0 <= i < |items| && Target(job, items[i]) in base ==>
      MayReplace(job.host, base[Target(job, items[i])], items[i].inode)
  }

  ghost predicate Extractable(job: Job, base: Nodes, items: seq<Item>) {
    && OpenDestination(job, base) && Replaceable(job, base, items)
    && (job.host.superuser || OwnerKept(job.host))
    && job.filter.includes == [] && job.filter.excludes == []
    && TreeArchive([], items)
  }

  lemma OwnerBits(umask: TarPack.Perm)
    requires umask & 0x1C0 == 0
    ensures (DIR_DEFAULT & !umask) & OWNER_WRITE != 0 && (DIR_DEFAULT & !umask) & OWNER_SEARCH != 0
  {
  }

  lemma UnstampedIsOpen(host: Host, was: Option<Inode>, node: Inode, recorded: Inode)
    requires (host.superuser || OwnerKept(host)) && Unstamped(host, was, node) && recorded.Dir?
    requires was.Some? ==> MayReplace(host, was.value, recorded)
    ensures MaySearch(host, node) && MayWrite(host, node)
  {
    if !host.superuser { OwnerBits(host.umask); }
  }

  lemma {:induction false} AncestorIsEarlier(items: seq<Item>, i: nat, depth: nat) returns (j: nat)
    requires TreeArchive([], items) && i < |items| && 1 <= depth < |items[i].path|
    ensures j < i && items[j].inode.Dir? && items[j].path == items[i].path[..depth]
    decreases i
  {
    var path := items[i].path;
    assert Parented([], items, i) && |Parent(path)| >= 1;
    var above :| 0 <= above < i && ParentAt(items, path, above);
    if depth == |path| - 1 { return above; }
    j := AncestorIsEarlier(items, above, depth);
    assert path[..|path| - 1][..depth] == path[..depth];
  }

  lemma NoTargetAbove(job: Job, items: seq<Item>, n: nat, p: Path)
    requires TreeArchive([], items) && n <= |items| && !(job.dest < p)
    ensures !IsTarget(job, items, n, p)
  {
    forall i | 0 <= i < n ensures !TargetAt(job, items, i, p) {
      TargetIsBelow(job, items, i);
    }
  }

  /** Everything above an entry's place is there and open. */
  lemma AncestorsAreOpen(job: Job, base: Nodes, nodes: Nodes, items: seq<Item>, n: nat, k: nat, i: nat, depth: nat)
    requires Extractable(job, base, items) && n <= |items| && Layout(job, base, nodes, items, n, k)
    requires i < |items| && i <= n && i <= k && depth < |Target(job, items[i])|
    ensures var above := Target(job, items[i])[..depth]; above in nodes && MaySearch(job.host, nodes[above])
    ensures depth >= |job.dest| ==> MayWrite(job.host, nodes[Target(job, items[i])[..depth]])
  {
    var d, path := |job.dest|, items[i].path;
    var above := Target(job, items[i])[..depth];
    if depth < d {
      assert above == job.dest[..depth] && above != job.dest;
      NoTargetAbove(job, items, n, above);
    } else if depth == d {
      assert above == job.dest;
    } else {
      var j := AncestorIsEarlier(items, i, depth - d);
      assert above == job.dest + path[..depth - d];
      assert Placed(job, base, nodes, items[j], j >= k);
      UnstampedIsOpen(job.host, Stat(base, above), nodes[above], items[j].inode);
    }
  }

  ghost predicate Ready(host: Host, nodes: Nodes, t: Path) {
    && t != [] && Reachable(host, nodes, t)
    && nodes[Parent(t)].Dir? && MayWrite(host, nodes[Parent(t)])
  }

  lemma TargetIsReachable(job: Job, base: Nodes, nodes: Nodes, items: seq<Item>, n: nat, k: nat, i: nat)
    requires Extractable(job, base, items) && n <= |items| && Layout(job, base, nodes, items, n, k)
    requires i < |items| && i <= n && i <= k
    ensures Reachable(job.host, nodes, Target(job, items[i]))
  {
    var t := Target(job, items[i]);
    forall depth | 0 <= depth < |t| ensures t[..depth] in nodes && MaySearch(job.host, nodes[t[..depth]]) {
      AncestorsAreOpen(job, base, nodes, items, n, k, i, depth);
    }
  }

  lemma TargetIsBelow(job: Job, items: seq<Item>, i: nat)
    requires TreeArchive([], items) && i < |items|
    ensures job.dest < Target(job, items[i])
  {
    assert Parented([], items, i);
  }

  lemma TargetIsReady(job: Job, base: Nodes, nodes: Nodes, items: seq<Item>, n: nat, k: nat, i: nat)
    requires Extractable(job, base, items) && n <= |items| && Layout(job, base, nodes, items, n, k)
    requires i < |items| && i <= n && i <= k
    ensures Ready(job.host, nodes, Target(job, items[i]))
  {
    var t := Target(job, items[i]);
    TargetIsBelow(job, items, i);
    AncestorsAreOpen(job, base, nodes, items, n, k, i, |t| - 1);
    TargetIsReachable(job, base, nodes, items, n, k, i);
  }

  lemma MkdirOne(host: Host, nodes: Nodes, t: Path, now: Time)
    requires Ready(host, nodes, t) && t !in nodes
    ensures MkdirAll(host, nodes, t, DIR_DEFAULT, now)
            == FileSystem.Ok(Link(nodes, t, Dir(DIR_DEFAULT & !host.umask, now), now))
  {
    ParentIsThere(host, nodes, t, now);
  }

  lemma ParentIsThere(host: Host, nodes: Nodes, t: Path, now: Time)
    requires Ready(host, nodes, t)
    ensures MkdirAll(host, nodes, Parent(t), DIR_DEFAULT, now) == FileSystem.Ok(nodes)
  {
    forall c | 0 <= c < |Parent(t)|
      ensures Parent(t)[..c] in nodes && MaySearch(host, nodes[Parent(t)[..c]])
    {
      assert Parent(t)[..c] == t[..c];
    }
  }

  lemma LinkKeepsReachable(host: Host, nodes: Nodes, t: Path, node: Inode, now: Time)
    requires Ready(host, nodes, t)
    ensures Reachable(host, Link(nodes, t, node, now), t)
  {
    forall c | 0 <= c < |t|
      ensures t[..c] in Link(nodes, t, node, now) && MaySearch(host, Link(nodes, t, node, now)[t[..c]])
    {
      assert |t[..c]| == c;
    }
  }

  /** A new file after its content, mode and time are written. */
  function Written(e: Entry, now: Time): Inode {
    File(TarPerm(e.perm, FILE_DEFAULT), if e.mtime == ZERO_TIME then now else e.mtime, e.content)
  }

  lemma CreateOne(host: Host, nodes: Nodes, t: Path, perm: TarPack.Perm, content: TarPack.Content, now: Time)
    requires Ready(host, nodes, t) && t !in nodes
    ensures WriteFile(host, nodes, t, perm, content, now)
            == FileSystem.Ok(Link(nodes, t, File(perm & !host.umask, now, content), now))
  {
  }

  /** A fresh entry may be given another mode and another time. */
  lemma AdjustOne(host: Host, nodes: Nodes, t: Path, node: Inode, now: Time, perm: TarPack.Perm, mtime: Time)
    requires Ready(host, nodes, t)
    ensures Chmod(host, Link(nodes, t, node, now), t, perm)
            == FileSystem.Ok(Link(nodes, t, node.(perm := perm), now))
    ensures Chtimes(host, Link(nodes, t, node, now), t, mtime)
            == FileSystem.Ok(Link(nodes, t, node.(mtime := mtime), now))
  {
    LinkKeepsReachable(host, nodes, t, node, now);
    RelinkOne(nodes, t, node, node.(perm := perm), now);
    RelinkOne(nodes, t, node, node.(mtime := mtime), now);
  }

  lemma RelinkOne(nodes: Nodes, t: Path, a: Inode, b: Inode, now: Time)
    requires t != [] && Parent(t) in nodes && nodes[Parent(t)].Dir?
    ensures Link(nodes, t, a, now)[t := b] == Link(nodes, t, b, now)
  {
  }

  lemma WriteNew(host: Host, nodes: Nodes, t: Path, e: Entry, now: Time)
    requires Ready(host, nodes, t) && t !in nodes
    ensures WriteTarEntry(host, nodes, t, e, now) == FileSystem.Ok(Link(nodes, t, Written(e, now), now))
  {
    var perm := TarPerm(e.perm, FILE_DEFAULT);
    CreateOne(host, nodes, t, perm, e.content, now);
    AdjustOne(host, nodes, t, File(perm & !host.umask, now, e.content), now, perm, e.mtime);
    AdjustOne(host, nodes, t, File(perm, now, e.content), now, perm, e.mtime);
  }

  lemma SetKeepsReachable(host: Host, nodes: Nodes, t: Path, node: Inode)
    requires Reachable(host, nodes, t)
    ensures Reachable(host, nodes[t := node], t)
  {
    forall c | 0 <= c < |t| ensures t[..c] in nodes[t := node] && MaySearch(host, nodes[t := node][t[..c]]) {
      assert |t[..c]| == c;
    }
  }

  /** Writing a file, whether or not there is one already: it ends with the recorded
      content, mode and time, whatever the umask, and nothing else changes but the
      time of the directory of a new file. */
  lemma WriteOne(host: Host, nodes: Nodes, t: Path, e: Entry, now: Time)
    requires if t in nodes then Reachable(host, nodes, t) && nodes[t].File? && MayWrite(host, nodes[t])
             else Ready(host, nodes, t)
    ensures WriteTarEntry(host, nodes, t, e, now)
            == FileSystem.Ok(if t in nodes then nodes[t := Written(e, now)] else Link(nodes, t, Written(e, now), now))
    ensures Written(e, now).File? && Written(e, now).content == e.content
    ensures Written(e, now).perm == (if e.perm != 0 then e.perm else FILE_DEFAULT)
    ensures Written(e, now).mtime == (if e.mtime != ZERO_TIME then e.mtime else now)
  {
    if t in nodes {
      var perm := TarPerm(e.perm, FILE_DEFAULT);
      var a := File(nodes[t].perm, now, e.content);
      var b := File(perm, now, e.content);
      SetKeepsReachable(host, nodes, t, a);
      SetKeepsReachable(host, nodes, t, b);
      assert nodes[t := a][t := b] == nodes[t := b];
      assert nodes[t := b][t := Written(e, now)] == nodes[t := Written(e, now)];
    } else {
      WriteNew(host, nodes, t, e, now);
    }
  }

  function NewDir(job: Job, e: Item): Inode {
    Dir(DIR_DEFAULT & !job.host.umask, job.clock(EntryOf(e)))
  }

  /** The disk after one entry: a file is written, a missing directory created, and a
      directory that is there left alone. */
  function After(job: Job, nodes: Nodes, e: Item): Nodes
    requires Target(job, e) != [] && Parent(Target(job, e)) in nodes && nodes[Parent(Target(job, e))].Dir?
  {
    var t, now := Target(job, e), job.clock(EntryOf(e));
    if t in nodes then
      if e.inode.Dir? then nodes else nodes[t := Written(EntryOf(e), now)]
    else Link(nodes, t, if e.inode.Dir? then NewDir(job, e) else Written(EntryOf(e), now), now)
  }

  function DirStampOf(job: Job, e: Item): DirStamp {
    DirStamp(Target(job, e), TarPerm(e.inode.perm, DIR_DEFAULT), e.inode.mtime)
  }

  function StampOf(job: Job, e: Item): seq<DirStamp> {
    if e.inode.Dir? then [DirStampOf(job, e)] else []
  }

  /** Until its turn, what stands where an item goes is what stood there before. */
  lemma TargetIsAsBefore(job: Job, base: Nodes, nodes: Nodes, items: seq<Item>, n: nat)
    requires Extractable(job, base, items) && n < |items| && Layout(job, base, nodes, items, n, n)
    ensures job.dest < Target(job, items[n]) && Stat(nodes, Target(job, items[n])) == Stat(base, Target(job, items[n]))
    ensures !IsTarget(job, items, n, Target(job, items[n]))
  {
    var t := Target(job, items[n]);
    assert Parented([], items, n) && t[|job.dest|..] == items[n].path;
    forall i | 0 <= i < n ensures !TargetAt(job, items, i, t) {
      assert Differ(i, n) && Target(job, items[i])[|job.dest|..] == items[i].path;
    }
  }

  lemma DirStep(job: Job, p: Progress, e: Item)
    requires e.inode.Dir? && Ready(job.host, p.nodes, Target(job, e))
    requires Target(job, e) in p.nodes ==> p.nodes[Target(job, e)].Dir?
    ensures ExtractDir(job, p, EntryOf(e), Target(job, e))
            == Next(Progress(After(job, p.nodes, e), p.stamps + StampOf(job, e)))
  {
    if Target(job, e) !in p.nodes { MkdirOne(job.host, p.nodes, Target(job, e), job.clock(EntryOf(e))); }
  }

  lemma FileStep(job: Job, p: Progress, e: Item)
    requires e.inode.File? && Ready(job.host, p.nodes, Target(job, e))
    requires Target(job, e) in p.nodes ==> MayReplace(job.host, p.nodes[Target(job, e)], e.inode)
    ensures ExtractFile(job, p, EntryOf(e), Target(job, e)) == Next(p.(nodes := After(job, p.nodes, e)))
    ensures StampOf(job, e) == []
  {
    ParentIsThere(job.host, p.nodes, Target(job, e), job.clock(EntryOf(e)));
    WriteOne(job.host, p.nodes, Target(job, e), EntryOf(e), job.clock(EntryOf(e)));
  }

  lemma EmptyFilterIncludes(f: Filter, path: Path)
    requires f.includes == [] && f.excludes == []
    ensures Included(f, path)
  {
  }

  lemma EntryStep(job: Job, p: Progress, e: Item)
    requires Segments(job.dest) && job.dest != [] && e.path != [] && Segments(e.path)
    requires job.filter.includes == [] && job.filter.excludes == []
    requires Ready(job.host, p.nodes, Target(job, e))
    requires Target(job, e) in p.nodes ==> MayReplace(job.host, p.nodes[Target(job, e)], e.inode)
    ensures ExtractEntry(job, p, EntryOf(e)) == Next(Progress(After(job, p.nodes, e), p.stamps + StampOf(job, e)))
  {
    PackedName(job.dest, EntryOf(e), e.path);
    EmptyFilterIncludes(job.filter, e.path);
    if e.inode.Dir? {
      DirStep(job, p, e);
    } else {
      FileStep(job, p, e);
    }
  }

  lemma SegmentsAppend(a: Path, b: Path)
    requires Segments(a) && Segments(b)
    ensures Segments(a + b)
  {
  }

  /** The directory an item goes into is the destination or an earlier item's. */
  lemma ParentIsTarget(job: Job, items: seq<Item>, n: nat)
    requires TreeArchive([], items) && n < |items|
    ensures Target(job, items[n]) != []
    ensures Parent(Target(job, items[n])) == job.dest || IsTarget(job, items, n, Parent(Target(job, items[n])))
  {
    var path := items[n].path;
    assert Parented([], items, n) && Parent(Target(job, items[n])) == job.dest + Parent(path);
    if Parent(path) == [] {
      assert job.dest + [] == job.dest;
    } else {
      var j :| 0 <= j < n && ParentAt(items, path, j);
      assert TargetAt(job, items, j, Parent(Target(job, items[n])));
    }
  }

  lemma MoreTargets(job: Job, items: seq<Item>, n: nat, p: Path)
    requires n < |items|
    ensures IsTarget(job, items, n + 1, p) <==> IsTarget(job, items, n, p) || p == Target(job, items[n])
  {
    if p == Target(job, items[n]) { assert TargetAt(job, items, n, p); }
  }

  lemma TouchesNothingElse(job: Job, base: Nodes, nodes: Nodes, items: seq<Item>, n: nat)
    requires TreeArchive([], items) && n < |items| && Untouched(job, base, nodes, items, n)
    requires job.dest < Target(job, items[n])
    requires Parent(Target(job, items[n])) in nodes && nodes[Parent(Target(job, items[n]))].Dir?
    ensures Untouched(job, base, After(job, nodes, items[n]), items, n + 1)
  {
    var t, after := Target(job, items[n]), After(job, nodes, items[n]);
    ParentIsTarget(job, items, n);
    assert |Parent(t)| < |t| && t != job.dest;
    forall p | p in base
      ensures p in after && (p != job.dest && !IsTarget(job, items, n + 1, p) ==> after[p] == base[p])
    {
      MoreTargets(job, items, n, p);
    }
    forall p | p in after && p !in base ensures IsTarget(job, items, n + 1, p) {
      MoreTargets(job, items, n, p);
    }
  }

  /** Extracting an item leaves the others in place. */
  lemma StaysPlaced(job: Job, base: Nodes, nodes: Nodes, e: Item, other: Item)
    requires Target(job, e) != [] && Target(job, e) != Target(job, other) && Placed(job, base, nodes, other, false)
    requires Parent(Target(job, e)) in nodes && nodes[Parent(Target(job, e))].Dir?
    ensures Placed(job, base, After(job, nodes, e), other, false)
  {
    assert |Parent(Target(job, e))| < |Target(job, e)|;
  }

  lemma NewIsPlaced(job: Job, base: Nodes, nodes: Nodes, e: Item)
    requires Target(job, e) != [] && Stat(nodes, Target(job, e)) == Stat(base, Target(job, e))
    requires Parent(Target(job, e)) in nodes && nodes[Parent(Target(job, e))].Dir?
    requires Target(job, e) in nodes ==> MayReplace(job.host, nodes[Target(job, e)], e.inode)
    ensures Placed(job, base, After(job, nodes, e), e, false)
  {
    assert |Parent(Target(job, e))| < |Target(job, e)|;
  }

  lemma AfterIsLaidOut(job: Job, base: Nodes, nodes: Nodes, items: seq<Item>, n: nat)
    requires n < |items| && Layout(job, base, nodes, items, n, n) && Replaceable(job, base, items)
    requires Target(job, items[n]) != [] && !IsTarget(job, items, n, Target(job, items[n]))
    requires Stat(nodes, Target(job, items[n])) == Stat(base, Target(job, items[n]))
    requires Parent(Target(job, items[n])) in nodes && nodes[Parent(Target(job, items[n]))].Dir?
    requires Untouched(job, base, After(job, nodes, items[n]), items, n + 1)
    ensures Layout(job, base, After(job, nodes, items[n]), items, n + 1, n + 1)
  {
    var after := After(job, nodes, items[n]);
    forall i | 0 <= i < n + 1 ensures Placed(job, base, after, items[i], i >= n + 1) {
      if i < n {
        assert Placed(job, base, nodes, items[i], i >= n);
        assert !TargetAt(job, items, i, Target(job, items[n]));
        StaysPlaced(job, base, nodes, items[n], items[i]);
      } else {
        NewIsPlaced(job, base, nodes, items[n]);
      }
    }
  }

  /** Extracting the next item lays it out. */
  lemma LayOne(job: Job, base: Nodes, nodes: Nodes, items: seq<Item>, n: nat, stamps: seq<DirStamp>)
    requires Extractable(job, base, items) && n < |items| && Layout(job, base, nodes, items, n, n)
    ensures var e := items[n];
            && Target(job, e) != [] && Parent(Target(job, e)) in nodes && nodes[Parent(Target(job, e))].Dir?
            && ExtractEntry(job, Progress(nodes, stamps), EntryOf(e))
               == Next(Progress(After(job, nodes, e), stamps + StampOf(job, e)))
            && Layout(job, base, After(job, nodes, e), items, n + 1, n + 1)
  {
    var e := items[n];
    assert e in items && Parented([], items, n);
    TargetIsReady(job, base, nodes, items, n, n, n);
    TargetIsAsBefore(job, base, nodes, items, n);
    EntryStep(job, Progress(nodes, stamps), e);
    TouchesNothingElse(job, base, nodes, items, n);
    AfterIsLaidOut(job, base, nodes, items, n);
  }

  function Stamps(job: Job, items: seq<Item>): seq<DirStamp> {
    if items == [] then []
    else Stamps(job, items[..|items| - 1]) + StampOf(job, items[|items| - 1])
  }

  lemma NextEntry(job: Job, items: seq<Item>, n: nat)
    requires n < |items|
    ensures Stamps(job, items[..n + 1]) == Stamps(job, items[..n]) + StampOf(job, items[n])
    ensures Entries(items[n..]) == [EntryOf(items[n])] + Entries(items[n + 1..])
  {
    assert items[..n + 1][..n] == items[..n] && items[n..][1..] == items[n + 1..];
  }

  /** The extraction loop lays out every item, and records the directories. */
  lemma {:induction false} ExtractLaysOut(job: Job, base: Nodes, nodes: Nodes, items: seq<Item>, n: nat)
    returns (laid: Nodes)
    requires Extractable(job, base, items) && n <= |items| && Layout(job, base, nodes, items, n, n)
    ensures ExtractAll(job, Progress(nodes, Stamps(job, items[..n])), Entries(items[n..]))
            == Next(Progress(laid, Stamps(job, items)))
    ensures Layout(job, base, laid, items, |items|, |items|)
    decreases |items| - n
  {
    if n == |items| {
      assert items[..n] == items;
      return nodes;
    }
    var e := items[n];
    LayOne(job, base, nodes, items, n, Stamps(job, items[..n]));
    NextEntry(job, items, n);
    laid := ExtractLaysOut(job, base, After(job, nodes, e), items, n + 1);
  }

  /** A directory after its mode and time are restored. */
  function Stamped(found: Inode, recorded: Inode): Inode {
    Dir(TarPerm(recorded.perm, DIR_DEFAULT), if recorded.mtime == ZERO_TIME then found.mtime else recorded.mtime)
  }

  function AfterStamp(job: Job, nodes: Nodes, e: Item): Nodes
    requires Target(job, e) in nodes
  {
    if e.inode.Dir? then nodes[Target(job, e) := Stamped(nodes[Target(job, e)], e.inode)] else nodes
  }

  lemma StampPlaces(job: Job, base: Nodes, nodes: Nodes, items: seq<Item>, k: nat)
    requires Extractable(job, base, items) && 0 < k <= |items| && Layout(job, base, nodes, items, |items|, k)
    requires items[k - 1].inode.Dir?
    ensures var e := items[k - 1];
            Target(job, e) in nodes
            && ApplyStamp(job.host, nodes, DirStampOf(job, e)) == FileSystem.Ok(AfterStamp(job, nodes, e))
  {
    var e := items[k - 1];
    TargetIsReady(job, base, nodes, items, |items|, k, k - 1);
    assert Placed(job, base, nodes, e, false);
    StampOne(job.host, nodes, Target(job, e), e.inode);
  }

  lemma StampOne(host: Host, nodes: Nodes, t: Path, node: Inode)
    requires Reachable(host, nodes, t) && t in nodes && nodes[t].Dir? && node.Dir?
    ensures ApplyStamp(host, nodes, DirStamp(t, TarPerm(node.perm, DIR_DEFAULT), node.mtime))
            == FileSystem.Ok(nodes[t := Stamped(nodes[t], node)])
  {
    var moded := nodes[t := Dir(TarPerm(node.perm, DIR_DEFAULT), nodes[t].mtime)];
    forall c | 0 <= c < |t| ensures t[..c] in moded && MaySearch(host, moded[t[..c]]) {
      assert |t[..c]| == c;
    }
    assert moded[t := Stamped(nodes[t], node)] == nodes[t := Stamped(nodes[t], node)];
  }

  lemma StampedIsLaidOut(job: Job, base: Nodes, nodes: Nodes, items: seq<Item>, k: nat)
    requires Extractable(job, base, items) && 0 < k <= |items| && Layout(job, base, nodes, items, |items|, k)
    ensures Target(job, items[k - 1]) in nodes
    ensures Layout(job, base, AfterStamp(job, nodes, items[k - 1]), items, |items|, k - 1)
  {
    var e := items[k - 1];
    var t := Target(job, e);
    assert Parented([], items, k - 1) && job.dest < t;
    assert Placed(job, base, nodes, e, false);
    assert TargetAt(job, items, k - 1, t);
    forall i | 0 <= i < |items| ensures Placed(job, base, AfterStamp(job, nodes, e), items[i], i >= k - 1) {
      assert Placed(job, base, nodes, items[i], i >= k);
      if i != k - 1 {
        assert Differ(i, k - 1);
        assert Target(job, items[i])[|job.dest|..] == items[i].path && t[|job.dest|..] == e.path;
      }
    }
  }

  lemma LastStamp(host: Host, nodes: Nodes, stamps: seq<DirStamp>, stamp: DirStamp)
    requires ApplyStamp(host, nodes, stamp).Ok?
    ensures ApplyStamps(host, nodes, stamps + [stamp])
            == ApplyStamps(host, ApplyStamp(host, nodes, stamp).nodes, stamps)
  {
    assert (stamps + [stamp])[..|stamps|] == stamps;
  }

  lemma NextStamp(job: Job, nodes: Nodes, items: seq<Item>, k: nat)
    requires 0 < k <= |items| && Target(job, items[k - 1]) in nodes
    requires items[k - 1].inode.Dir? ==>
               ApplyStamp(job.host, nodes, DirStampOf(job, items[k - 1]))
               == FileSystem.Ok(AfterStamp(job, nodes, items[k - 1]))
    ensures ApplyStamps(job.host, nodes, Stamps(job, items[..k]))
            == ApplyStamps(job.host, AfterStamp(job, nodes, items[k - 1]), Stamps(job, items[..k - 1]))
  {
    NextEntry(job, items, k - 1);
    var before := Stamps(job, items[..k - 1]);
    if items[k - 1].inode.Dir? {
      LastStamp(job.host, nodes, before, DirStampOf(job, items[k - 1]));
    } else {
      assert before + [] == before;
    }
  }

  /** The deferred pass succeeds and gives every directory its final look: a
      directory is stamped only after everything below it. */
  lemma {:induction false} StampingFinishes(job: Job, base: Nodes, nodes: Nodes, items: seq<Item>, k: nat)
    returns (done: Nodes)
    requires Extractable(job, base, items) && k <= |items| && Layout(job, base, nodes, items, |items|, k)
    ensures ApplyStamps(job.host, nodes, Stamps(job, items[..k])) == FileSystem.Ok(done)
    ensures Layout(job, base, done, items, |items|, 0)
    decreases k
  {
    if k == 0 { return nodes; }
    StampedIsLaidOut(job, base, nodes, items, k);
    if items[k - 1].inode.Dir? { StampPlaces(job, base, nodes, items, k); }
    NextStamp(job, nodes, items, k);
    done := StampingFinishes(job, base, AfterStamp(job, nodes, items[k - 1]), items, k - 1);
  }

  lemma ExtractFinishes(job: Job, base: Nodes, items: seq<Item>) returns (done: Nodes)
    requires Extractable(job, base, items)
    ensures Extract(job, base, Entries(items)) == Done(done) && Layout(job, base, done, items, |items|, 0)
  {
    assert items[0..] == items && items[..|items|] == items;
    var laid := ExtractLaysOut(job, base, base, items, 0);
    done := StampingFinishes(job, base, laid, items, |items|);
  }

  // ---------------------------------------------------------------- the laws

  /** Outside the destination nothing changed, and of the destination itself at
      most the mtime. */
  ghost predicate OthersKept(dest: Path, before: Nodes, after: Nodes) {
    && (forall p :: !(dest <= p) ==> Stat(after, p) == Stat(before, p))
    && OnlyTimeChanged(dest, before, after)
  }

  predicate OnlyTimeChanged(dest: Path, before: Nodes, after: Nodes) {
    && dest in before && dest in after
    && before[dest].Dir? && after[dest] == before[dest].(mtime := after[dest].mtime)
  }

  predicate Recovered(was: Option<Inode>, found: Option<Inode>, original: Inode) {
    found.Some? && Restores(was, found.value, Rounded(original))
  }

  lemma LayoutRecovers(job: Job, base: Nodes, root: Forest, after: Nodes, path: Path)
    requires Lists([], root, Items([], root)) && path != []
    requires Layout(job, base, after, Items([], root), |Items([], root)|, 0)
    ensures var t, original := job.dest + path, StatTree(root, path);
            if original.Some? then Recovered(Stat(base, t), Stat(after, t), original.value)
            else job.dest + path != job.dest && Stat(after, t) == Stat(base, t)
  {
    var dest, items := job.dest, Items([], root);
    assert dest < dest + path && (dest + path)[|dest|..] == path && path[0..] == path;
    forall i | 0 <= i < |items| && TargetAt(job, items, i, dest + path)
      ensures ArchivedAs(StatTree(root, path), items[i].inode)
    {
      assert (dest + items[i].path)[|dest|..] == items[i].path;
      assert IsThere([], root, items[i]);
    }
    if StatTree(root, path).Some? {
      assert HasItem([] + path, items) && [] + path == path;
      var i :| 0 <= i < |items| && items[i].path == path;
      assert Placed(job, base, after, items[i], true) && IsThere([], root, items[i]);
    }
  }

  lemma LayoutKeepsOthers(job: Job, base: Nodes, items: seq<Item>, after: Nodes)
    requires TreeArchive([], items) && Layout(job, base, after, items, |items|, 0)
    ensures OthersKept(job.dest, base, after)
  {
    forall p | !(job.dest <= p) ensures Stat(after, p) == Stat(base, p) {
      NoTargetAbove(job, items, |items|, p);
    }
  }

  predicate LetsAllThrough(f: Filter) {
    f.includes == [] && f.excludes == []
  }

  /** What stands where the tree goes may be replaced by it: writable files by files
      and open directories by directories. */
  ghost predicate MayFill(job: Job, nodes: Nodes, root: Forest) {
    forall path :: path != [] && StatTree(root, path).Some? && job.dest + path in nodes ==>
      MayReplace(job.host, nodes[job.dest + path], StatTree(root, path).value)
  }

  lemma FillsAreReplaceable(job: Job, nodes: Nodes, root: Forest)
    requires MayFill(job, nodes, root) && Lists([], root, Items([], root)) && TreeArchive([], Items([], root))
    ensures Replaceable(job, nodes, Items([], root))
  {
    var items := Items([], root);
    forall i | 0 <= i < |items| && Target(job, items[i]) in nodes
      ensures MayReplace(job.host, nodes[Target(job, items[i])], items[i].inode)
    {
      assert Parented([], items, i) && IsThere([], root, items[i]);
      assert items[i].path[0..] == items[i].path;
    }
  }

  /** Packing any tree without a filter and extracting it without one never fails,
      whatever the modes of its directories, into an open destination where nothing
      stands in the way. Whatever stood where the tree goes is replaced: every
      directory and regular file ends with its content, mode and time. Everything
      else is left as it was, but for the time of the destination. */
  lemma ExtractsOver(job: Job, f: Filter, nodes: Nodes, root: Forest)
    requires OpenDestination(job, nodes) && MayFill(job, nodes, root)
    requires job.host.superuser || OwnerKept(job.host)
    requires LetsAllThrough(f) && LetsAllThrough(job.filter) && ProperForest(root)
    ensures var outcome := Extract(job, nodes, Select(f, FullWalk([], root)));
            && outcome.Done? && OthersKept(job.dest, nodes, outcome.nodes)
            && forall path :: path != [] ==>
                 var t, original := job.dest + path, StatTree(root, path);
                 if original.Some? then Recovered(Stat(nodes, t), Stat(outcome.nodes, t), original.value)
                 else Stat(outcome.nodes, t) == Stat(nodes, t)
  {
    EverythingSelected(f.glob, FullWalk([], root));
    WalkIsTree([], root);
    WalkEntries([], root);
    FillsAreReplaceable(job, nodes, root);
    var done := ExtractFinishes(job, nodes, Items([], root));
    LayoutKeepsOthers(job, nodes, Items([], root), done);
    forall path | path != []
      ensures var t, original := job.dest + path, StatTree(root, path);
              if original.Some? then Recovered(Stat(nodes, t), Stat(done, t), original.value)
              else Stat(done, t) == Stat(nodes, t)
    {
      LayoutRecovers(job, nodes, root, done, path);
    }
  }

  /** Into an empty destination, it recovers exactly the directories and regular files
      of the tree. */
  lemma RoundTrip(job: Job, f: Filter, nodes: Nodes, root: Forest)
    requires EmptyDestination(job, nodes) && (job.host.superuser || OwnerKept(job.host))
    requires LetsAllThrough(f) && LetsAllThrough(job.filter) && ProperForest(root)
    ensures var outcome := Extract(job, nodes, Select(f, FullWalk([], root)));
            && outcome.Done? && OthersKept(job.dest, nodes, outcome.nodes)
            && forall path :: path != [] ==>
                 var t, original := job.dest + path, StatTree(root, path);
                 if original.Some? then Recovered(None, Stat(outcome.nodes, t), original.value)
                 else Stat(outcome.nodes, t) == None
  {
    forall path | path != [] ensures Stat(nodes, job.dest + path) == None {
      assert job.dest < job.dest + path;
    }
    ExtractsOver(job, f, nodes, root);
  }

  /** What an archive carries faithfully: some permission bit and a time in whole
      seconds that is not Go's zero time. */
  predicate Portable(node: Inode) {
    node.perm != 0 && RoundToSecond(node.mtime) == node.mtime && node.mtime != ZERO_TIME
  }

  predicate PortableAt(root: Forest, path: Path)
    requires path != []
  {
    StatTree(root, path).Some? ==> Portable(StatTree(root, path).value)
  }

  /** The copy is equal to the original exactly when every inode is portable. */
  lemma RoundTripIsExact(job: Job, f: Filter, nodes: Nodes, root: Forest)
    requires EmptyDestination(job, nodes) && (job.host.superuser || OwnerKept(job.host))
    requires LetsAllThrough(f) && LetsAllThrough(job.filter) && ProperForest(root)
    ensures var outcome := Extract(job, nodes, Select(f, FullWalk([], root)));
            (forall path :: path != [] ==> Stat(outcome.nodes, job.dest + path) == StatTree(root, path))
            <==> (forall path :: path != [] ==> PortableAt(root, path))
  {
    RoundTrip(job, f, nodes, root);
    var after := Extract(job, nodes, Select(f, FullWalk([], root))).nodes;
    forall path | path != []
      ensures Stat(after, job.dest + path) == StatTree(root, path) <==> PortableAt(root, path)
    {
      if StatTree(root, path).Some? {
        assert Recovered(None, Stat(after, job.dest + path), StatTree(root, path).value);
        RestoresExactly(Stat(after, job.dest + path).value, StatTree(root, path).value);
      }
    }
  }

  lemma RestoresExactly(found: Inode, original: Inode)
    requires Restores(None, found, Rounded(original))
    ensures found == original <==> Portable(original)
  {
  }

  // ---------------------------------------------------------------- missing directories

  predicate OpenAt(host: Host, nodes: Nodes, p: Path) {
    Reachable(host, nodes, p) && p in nodes && MaySearch(host, nodes[p]) && MayWrite(host, nodes[p])
  }

  /** The first `m` segments lead to an open directory, and there is nothing beyond. */
  ghost predicate MissingFrom(host: Host, nodes: Nodes, path: Path, m: nat) {
    m <= |path| && OpenAt(host, nodes, path[..m]) && forall k :: m < k <= |path| ==> path[..k] !in nodes
  }

  /** Beyond the first `m` segments every directory was created, and nothing else
      changed but the time of the one they are in. */
  ghost predicate Created(host: Host, before: Nodes, after: Nodes, path: Path, m: nat)
    requires m <= |path|
  {
    && (forall k :: m < k <= |path| ==>
          path[..k] in after && after[path[..k]].Dir? && after[path[..k]].perm == DIR_DEFAULT & !host.umask)
    && (forall p :: (forall k :: m <= k <= |path| ==> p != path[..k]) ==> Stat(after, p) == Stat(before, p))
    && OnlyTimeChanged(path[..m], before, after)
  }

  lemma NewDirIsOpen(host: Host, nodes: Nodes, path: Path, now: Time)
    requires path != [] && OpenAt(host, nodes, Parent(path)) && path !in nodes
    requires host.superuser || OwnerKept(host)
    ensures Mkdir(host, nodes, path, DIR_DEFAULT, now)
            == FileSystem.Ok(Link(nodes, path, Dir(DIR_DEFAULT & !host.umask, now), now))
    ensures OpenAt(host, Link(nodes, path, Dir(DIR_DEFAULT & !host.umask, now), now), path)
  {
    assert forall k :: 0 <= k < |Parent(path)| ==> Parent(path)[..k] == path[..k];
    assert Ready(host, nodes, path);
    LinkKeepsReachable(host, nodes, path, Dir(DIR_DEFAULT & !host.umask, now), now);
    if !host.superuser { OwnerBits(host.umask); }
  }

  lemma OneMoreDir(host: Host, before: Nodes, above: Nodes, path: Path, m: nat, now: Time)
    requires m < |path| && Created(host, before, above, Parent(path), m)
    requires Parent(path) in above && above[Parent(path)].Dir?
    ensures Created(host, before, Link(above, path, Dir(DIR_DEFAULT & !host.umask, now), now), path, m)
  {
    var after := Link(above, path, Dir(DIR_DEFAULT & !host.umask, now), now);
    assert path[..|path|] == path;
    forall k | m < k <= |path|
      ensures path[..k] in after && after[path[..k]].Dir? && after[path[..k]].perm == DIR_DEFAULT & !host.umask
    {
      assert k < |path| ==> Parent(path)[..k] == path[..k];
    }
    forall p | forall k :: m <= k <= |path| ==> p != path[..k] ensures Stat(after, p) == Stat(before, p) {
      assert path[..|path| - 1] == Parent(path);
      forall k | m <= k <= |Parent(path)| ensures p != Parent(path)[..k] { assert Parent(path)[..k] == path[..k]; }
    }
    assert Parent(path)[..m] == path[..m] && |path[..m]| < |path|;
  }

  /** Creating a directory creates those above it that are missing. */
  lemma {:induction false} MkdirAllCreates(host: Host, nodes: Nodes, path: Path, m: nat, now: Time)
    requires MissingFrom(host, nodes, path, m) && (host.superuser || OwnerKept(host))
    ensures var made := MkdirAll(host, nodes, path, DIR_DEFAULT, now);
            made.Ok? && OpenAt(host, made.nodes, path) && Created(host, nodes, made.nodes, path, m)
    decreases |path|
  {
    if m == |path| {
      assert path[..m] == path;
    } else {
      var above := MkdirAll(host, nodes, Parent(path), DIR_DEFAULT, now);
      assert Parent(path)[..m] == path[..m] && path[..|path|] == path;
      forall k | m < k <= |Parent(path)| ensures Parent(path)[..k] !in nodes { assert Parent(path)[..k] == path[..k]; }
      MkdirAllCreates(host, nodes, Parent(path), m, now);
      forall k | m <= k <= |Parent(path)| ensures path != Parent(path)[..k] { assert |Parent(path)[..k]| == k; }
      assert Stat(above.nodes, path) == Stat(nodes, path);
      NewDirIsOpen(host, above.nodes, path, now);
      OneMoreDir(host, nodes, above.nodes, path, m, now);
    }
  }

  lemma StillMissing(host: Host, before: Nodes, after: Nodes, t: Path, m: nat)
    requires t != [] && m <= |Parent(t)| && Created(host, before, after, Parent(t), m)
    ensures Stat(after, t) == Stat(before, t)
  {
    forall k | m <= k <= |Parent(t)| ensures t != Parent(t)[..k] { assert |Parent(t)[..k]| == k; }
  }

  lemma OpenParentIsReady(host: Host, nodes: Nodes, t: Path)
    requires t != [] && OpenAt(host, nodes, Parent(t))
    ensures Ready(host, nodes, t)
  {
    assert forall k :: 0 <= k < |Parent(t)| ==> Parent(t)[..k] == t[..k];
  }

  /** A file is extracted with the directories it needs: those that are missing, as when
      a filter left them out, are created with the default mode. */
  lemma FileBringsDirectories(job: Job, p: Progress, path: Path, e: Entry, m: nat)
    requires Segments(job.dest) && job.dest != [] && path != [] && Segments(path)
    requires e.kind == FileEntry && e.name == Join(path) && Included(job.filter, path)
    requires (job.host.superuser || OwnerKept(job.host)) && job.dest + path !in p.nodes
    requires MissingFrom(job.host, p.nodes, Parent(job.dest + path), m)
    ensures var t, now := job.dest + path, job.clock(e);
            exists made: Nodes ::
              && Created(job.host, p.nodes, made, Parent(t), m) && OpenAt(job.host, made, Parent(t))
              && ExtractEntry(job, p, e) == Next(p.(nodes := Link(made, t, Written(e, now), now)))
  {
    var t, now := job.dest + path, job.clock(e);
    PackedName(job.dest, e, path);
    MkdirAllCreates(job.host, p.nodes, Parent(t), m, now);
    var made := MkdirAll(job.host, p.nodes, Parent(t), DIR_DEFAULT, now).nodes;
    StillMissing(job.host, p.nodes, made, t, m);
    OpenParentIsReady(job.host, made, t);
    WriteOne(job.host, made, t, e, now);
  }

  // ---------------------------------------------------------------- filtering

  predicate NameOf(e: Entry, path: Path) {
    !e.kind.OtherEntry? && e.name == if e.kind.DirEntry? then Join(path) + "/" else Join(path)
  }

  lemma PackedName(dest: Path, e: Entry, path: Path)
    requires Segments(dest) && dest != [] && path != [] && Segments(path) && NameOf(e, path)
    ensures PathOf(e.name) == path && JoinTarEntry(dest, e.name) == Some(dest + path)
    ensures Render(dest + path) != Render(dest) && (e.kind.FileEntry? ==> !HasSuffix(e.name, "/"))
  {
    PathOfJoin(path);
    CleanNamesJoin(dest, path);
    SegmentsAppend(dest, path);
    if Render(dest + path) == Render(dest) { RenderIsInjective(dest + path, dest); }
  }

  lemma EffectsIgnoreFilter(job: Job, f: Filter, g: Filter, p: Progress, e: Entry, target: Path)
    ensures ExtractDir(job.(filter := f), p, e, target) == ExtractDir(job.(filter := g), p, e, target)
    ensures target != [] ==>
              ExtractFile(job.(filter := f), p, e, target) == ExtractFile(job.(filter := g), p, e, target)
  {
  }

  lemma StepIgnoresFiltered(job: Job, f: Filter, p: Progress, e: Entry, path: Path)
    requires Segments(job.dest) && job.dest != [] && path != [] && Segments(path) && NameOf(e, path)
    ensures PathOf(e.name) == path
    ensures ExtractEntry(job.(filter := f), p, e)
            == if Included(f, path) then ExtractEntry(job.(filter := Everything(f.glob)), p, e) else Next(p)
  {
    PackedName(job.dest, e, path);
    EffectsIgnoreFilter(job, f, Everything(f.glob), p, e, job.dest + path);
    EmptyFilterIncludes(Everything(f.glob), path);
  }

  lemma {:induction false} ExtractSelected(job: Job, f: Filter, p: Progress, items: seq<Item>)
    requires Segments(job.dest) && job.dest != []
    requires forall e :: e in items ==> e.path != [] && Segments(e.path)
    ensures ExtractAll(job.(filter := f), p, Entries(items))
            == ExtractAll(job.(filter := Everything(f.glob)), p, Select(f, Entries(items)))
    decreases |items|
  {
    if items != [] {
      var e := EntryOf(items[0]);
      assert items[0] in items && Entries(items)[1..] == Entries(items[1..]);
      StepIgnoresFiltered(job, f, p, e, items[0].path);
      var selected := Select(f, Entries(items));
      if Included(f, items[0].path) {
        assert selected[1..] == Select(f, Entries(items[1..]));
        var step := ExtractEntry(job.(filter := f), p, e);
        if step.Next? { ExtractSelected(job, f, step.p, items[1..]); }
      } else {
        ExtractSelected(job, f, p, items[1..]);
      }
    }
  }

  lemma ItemsAreClean(root: Forest)
    requires ProperForest(root)
    ensures forall e :: e in Items([], root) ==> e.path != [] && Segments(e.path)
  {
    WalkIsTree([], root);
    var items := Items([], root);
    forall e | e in items ensures e.path != [] && Segments(e.path) {
      var i :| 0 <= i < |items| && items[i] == e;
      assert Parented([], items, i);
    }
  }

  /** Extracting any packed entry into the root fails at once, filtered or not. */
  lemma RootStops(job: Job, nodes: Nodes, entries: seq<Entry>, path: Path)
    requires job.dest == [] && path != [] && Segments(path) && entries != []
    requires entries[0].name == Join(path) || entries[0].name == Join(path) + "/"
    ensures Extract(job, nodes, entries) == Stopped(BadTar, nodes)
  {
    RootRejects(path);
  }

  lemma {:induction false} SelectedFirst(f: Filter, items: seq<Item>) returns (k: nat)
    requires Select(f, Entries(items)) != []
    ensures k < |items| && Select(f, Entries(items))[0] == EntryOf(items[k])
    decreases |items|
  {
    assert Entries(items)[1..] == Entries(items[1..]);
    if Included(f, PathOf(EntryOf(items[0]).name)) {
      k := 0;
    } else {
      var rest := SelectedFirst(f, items[1..]);
      k := rest + 1;
    }
  }

  lemma RootOutcomes(job: Job, f: Filter, nodes: Nodes, items: seq<Item>)
    requires job.dest == [] && forall e :: e in items ==> e.path != [] && Segments(e.path)
    ensures Extract(job.(filter := f), nodes, Entries(items))
            == if items == [] then Done(nodes) else Stopped(BadTar, nodes)
    ensures Extract(job.(filter := Everything(f.glob)), nodes, Select(f, Entries(items)))
            == if Select(f, Entries(items)) == [] then Done(nodes) else Stopped(BadTar, nodes)
  {
    if items != [] {
      assert items[0] in items;
      RootStops(job.(filter := f), nodes, Entries(items), items[0].path);
    }
    if Select(f, Entries(items)) != [] {
      var k := SelectedFirst(f, items);
      assert items[k] in items;
      RootStops(job.(filter := Everything(f.glob)), nodes, Select(f, Entries(items)), items[k].path);
    }
  }

  /** Packing with a filter and extracting everything gives the same outcome, on
      any disk, as packing everything and extracting with the filter, unless the
      destination is the root, the tree is not empty and nothing is selected:
      then the filter on extraction comes too late. */
  lemma FilteringCommutes(job: Job, f: Filter, nodes: Nodes, root: Forest)
    requires Segments(job.dest) && ProperForest(root)
    ensures Extract(job.(filter := f), nodes, FullWalk([], root))
            == Extract(job.(filter := Everything(f.glob)), nodes, Select(f, FullWalk([], root)))
            <==> job.dest != [] || FullWalk([], root) == [] || Select(f, FullWalk([], root)) != []
  {
    WalkEntries([], root);
    ItemsAreClean(root);
    if job.dest == [] {
      RootOutcomes(job, f, nodes, Items([], root));
    } else {
      ExtractSelected(job, f, Progress(nodes, []), Items([], root));
    }
  }

  // ---------------------------------------------------------------- dotted names

  lemma DottedName(dest: Path, e: Entry, path: Path)
    requires Segments(dest) && dest != [] && path != [] && Segments(path) && NameOf(e, path)
    ensures PathOf("./" + e.name) == path && JoinTarEntry(dest, "./" + e.name) == Some(dest + path)
    ensures e.kind.FileEntry? ==> !HasSuffix("./" + e.name, "/")
  {
    PathOfDotted(path);
    DottedNamesJoin(dest, path);
  }

  lemma EffectsIgnoreName(job: Job, p: Progress, e: Entry, name: string, target: Path)
    requires job.clock(e.(name := name)) == job.clock(e) && target != []
    ensures ExtractDir(job, p, e.(name := name), target) == ExtractDir(job, p, e, target)
    ensures ExtractFile(job, p, e.(name := name), target) == ExtractFile(job, p, e, target)
  {
  }

  /** An entry whose name has a leading "./", as tar itself writes them, is extracted
      like the one without. */
  lemma DottedNamesExtractAlike(job: Job, p: Progress, e: Entry, path: Path)
    requires Segments(job.dest) && job.dest != [] && path != [] && Segments(path) && NameOf(e, path)
    requires job.clock(e.(name := "./" + e.name)) == job.clock(e)
    ensures ExtractEntry(job, p, e.(name := "./" + e.name)) == ExtractEntry(job, p, e)
  {
    PackedName(job.dest, e, path);
    DottedName(job.dest, e, path);
    EffectsIgnoreName(job, p, e, "./" + e.name, job.dest + path);
  }
}
