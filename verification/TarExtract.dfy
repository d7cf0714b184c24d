/** Extracting an archive: entry names become paths below the destination, and
    directory modes are applied last, in reverse. */
module TarExtract {
  import opened Basics
  import opened PathNames
  import opened TarFilter
  import opened TarPack
  import opened FileSystem

  // ---------------------------------------------------------------- entry names

  /** The path a cleaned absolute path renders to. */
  function Render(path: Path): string {
    "/" + Join(path)
  }

  /** Resolving name pieces against a clean absolute path, as filepath.Join does:
      empty and "." pieces vanish, ".." climbs, and the root has no parent. */
  function Resolve(base: Path, pieces: seq<string>): Path
    decreases pieces
  {
    if pieces == [] then base
    else if pieces[0] == "" || pieces[0] == "." then Resolve(base, pieces[1..])
    else if pieces[0] == ".." then Resolve(if base == [] then [] else base[..|base| - 1], pieces[1..])
    else Resolve(base + [pieces[0]], pieces[1..])
  }

  /** The string test of joinTarEntry, on rendered paths. */
  function JoinTarEntry(dest: Path, name: string): Option<Path> {
    if "/" <= name then None
    else
      var target := Resolve(dest, Split(name));
      if Render(target) != Render(dest) && !(Render(dest) + "/" <= Render(target)) then None
      else Some(target)
  }

  lemma {:induction false} ResolveIsProper(base: Path, pieces: seq<string>)
    requires Segments(base) && forall p :: p in pieces ==> '/' !in p
    ensures Segments(Resolve(base, pieces))
    decreases pieces
  {
    if pieces != [] {
      assert pieces[0] in pieces;
      forall p | p in pieces[1..] ensures '/' !in p { assert p in pieces; }
      if pieces[0] == "" || pieces[0] == "." {
        ResolveIsProper(base, pieces[1..]);
      } else if pieces[0] == ".." {
        ResolveIsProper(if base == [] then [] else base[..|base| - 1], pieces[1..]);
      } else {
        ResolveIsProper(base + [pieces[0]], pieces[1..]);
      }
    }
  }

  lemma {:induction false} PiecesHaveNoSlash(s: string)
    ensures forall p :: p in Split(s) ==> '/' !in p
  {
    if s != "" { PiecesHaveNoSlash(s[1..]); }
  }

  lemma RenderIsInjective(a: Path, b: Path)
    requires Segments(a) && Segments(b) && Render(a) == Render(b)
    ensures a == b
  {
    assert Render(a)[1..] == Join(a) && Render(b)[1..] == Join(b);
    if a != [] { JoinEnds(a); SplitJoin(a); }
    if b != [] { JoinEnds(b); SplitJoin(b); }
  }

  lemma PrefixIsAbove(d: Path, t: Path)
    requires Segments(d) && Segments(t) && d != [] && t != [] && Join(d) + "/" <= Join(t)
    ensures d < t
  {
    SplitJoin(d);
    SplitJoin(t);
    var rest := Join(t)[|Join(d) + "/"|..];
    assert Join(t) == Join(d) + "/" + rest;
    SplitAppend(Join(d), rest);
  }

  lemma AboveIsPrefix(d: Path, t: Path)
    requires d != [] && d < t
    ensures Join(d) + "/" <= Join(t)
  {
    assert t == d + t[|d|..];
    JoinAppend(d, t[|d|..]);
  }

  /** On clean paths the string test means: strictly below. The root is the
      exception; nothing passes as below it. */
  lemma RenderedPrefix(d: Path, t: Path)
    requires Segments(d) && Segments(t)
    ensures Render(d) + "/" <= Render(t) <==> d != [] && d < t
  {
    var a, b := Render(d) + "/", Render(t);
    if d == [] || t == [] {
      assert d == [] ==> a == "//";
      if d != [] { JoinEnds(d); }
      if t != [] { JoinEnds(t); }
      assert t != [] ==> b[1] == Join(t)[0];
    } else {
      assert b[1..] == Join(t);
      assert a[1..] == Join(d) + "/";
      assert a <= b <==> a[1..] <= b[1..];
      if a <= b { PrefixIsAbove(d, t); }
      if d < t { AboveIsPrefix(d, t); }
    }
  }

  /** joinTarEntry accepts exactly the relative names that resolve to the
      destination or strictly below it; below the root it accepts nothing. */
  lemma JoinStaysInside(dest: Path, name: string)
    requires Segments(dest)
    ensures var target := Resolve(dest, Split(name));
            JoinTarEntry(dest, name)
            == if !("/" <= name) && (target == dest || (dest != [] && dest < target)) then Some(target) else None
  {
    var target := Resolve(dest, Split(name));
    PiecesHaveNoSlash(name);
    ResolveIsProper(dest, Split(name));
    RenderedPrefix(dest, target);
    if Render(target) == Render(dest) { RenderIsInjective(target, dest); }
  }

  lemma {:induction false} ResolveDown(base: Path, path: Path)
    requires Segments(path)
    ensures Resolve(base, path) == base + path
    ensures Resolve(base, path + [""]) == base + path
    decreases path
  {
    if path == [] {
      assert base + path == base;
      assert (path + [""])[1..] == [];
    } else {
      assert path[0] in path;
      forall s | s in path[1..] ensures Segment(s) { assert s in path; }
      ResolveDown(base + [path[0]], path[1..]);
      assert base + [path[0]] + path[1..] == base + path;
      assert (path + [""])[1..] == path[1..] + [""];
    }
  }

  /** A clean relative name, with or without a directory's slash, names the path
      below the destination. */
  lemma CleanNamesJoin(dest: Path, path: Path)
    requires Segments(dest) && dest != [] && Segments(path) && path != []
    ensures JoinTarEntry(dest, Join(path)) == Some(dest + path)
    ensures JoinTarEntry(dest, Join(path) + "/") == Some(dest + path)
    ensures !HasSuffix(Join(path), "/")
  {
    var s := Join(path);
    JoinEnds(path);
    SplitJoin(path);
    SplitAppend(s, "");
    assert s + "/" + "" == s + "/";
    assert Split("") == [""];
    ResolveDown(dest, path);
    JoinStaysInside(dest, s);
    JoinStaysInside(dest, s + "/");
    assert (s + "/")[0] == s[0];
    assert s[|s| - 1..] == [s[|s| - 1]];
  }

  /** Below the root a clean relative name names nothing. */
  lemma RootRejects(path: Path)
    requires Segments(path) && path != []
    ensures JoinTarEntry([], Join(path)) == None && JoinTarEntry([], Join(path) + "/") == None
  {
    var s := Join(path);
    SplitJoin(path);
    SplitAppend(s, "");
    assert s + "/" + "" == s + "/";
    assert Split("") == [""];
    ResolveDown([], path);
    JoinStaysInside([], s);
    JoinStaysInside([], s + "/");
  }

  /** A leading "./" makes no difference. */
  lemma DotsJoinAlike(dest: Path, s: string)
    requires !("/" <= s)
    ensures JoinTarEntry(dest, "./" + s) == JoinTarEntry(dest, s)
  {
    assert "./" + s == "." + "/" + s;
    SplitNoSlash(".");
    SplitAppend(".", s);
    assert (["."] + Split(s))[1..] == Split(s);
  }

  lemma DottedNamesJoin(dest: Path, path: Path)
    requires Segments(dest) && dest != [] && Segments(path) && path != []
    ensures JoinTarEntry(dest, "./" + Join(path)) == Some(dest + path)
    ensures JoinTarEntry(dest, "./" + (Join(path) + "/")) == Some(dest + path)
    ensures !HasSuffix("./" + Join(path), "/")
  {
    var s := Join(path);
    JoinEnds(path);
    CleanNamesJoin(dest, path);
    assert (s + "/")[0] == s[0];
    DotsJoinAlike(dest, s);
    DotsJoinAlike(dest, s + "/");
    assert ("./" + s)[|s| + 1] == s[|s| - 1];
  }

  // ---------------------------------------------------------------- climbing

  lemma {:induction false} ResolveAppend(base: Path, a: seq<string>, b: seq<string>)
    ensures Resolve(base, a + b) == Resolve(Resolve(base, a), b)
    decreases a
  {
    if a == [] {
      assert a + b == b;
    } else {
      assert (a + b)[1..] == a[1..] + b && (a + b)[0] == a[0];
      if a[0] == "" || a[0] == "." {
        ResolveAppend(base, a[1..], b);
      } else if a[0] == ".." {
        ResolveAppend(if base == [] then [] else base[..|base| - 1], a[1..], b);
      } else {
        ResolveAppend(base + [a[0]], a[1..], b);
      }
    }
  }

  /** A piece more: empty and "." pieces stay where they are, ".." climbs one level,
      but not above the root, and any other piece descends. */
  lemma ResolveOneMore(base: Path, pieces: seq<string>, piece: string)
    ensures var at := Resolve(base, pieces);
            Resolve(base, pieces + [piece])
            == if piece == "" || piece == "." then at
               else if piece != ".." then at + [piece]
               else if at == [] then [] else Parent(at)
  {
    ResolveAppend(base, pieces, [piece]);
    assert [piece][1..] == [];
  }

  /** A name that climbs out is accepted only if it comes straight back in. */
  lemma ClimbingOut(dest: Path, path: Path)
    requires Segments(dest) && dest != [] && Segments(path) && path != []
    ensures var back := path[0] == dest[|dest| - 1];
            JoinTarEntry(dest, "../" + Join(path)) == if back then Some(Parent(dest) + path) else None
  {
    ClimbsOnce(dest, path);
    JoinStaysInside(dest, "../" + Join(path));
    assert ("../" + Join(path))[0] == '.';
    BackInside(dest, path);
  }

  lemma ClimbsOnce(dest: Path, path: Path)
    requires dest != [] && Segments(path) && path != []
    ensures Resolve(dest, Split("../" + Join(path))) == Parent(dest) + path
  {
    var s := Join(path);
    assert "../" + s == ".." + "/" + s;
    SplitNoSlash("..");
    SplitAppend("..", s);
    SplitJoin(path);
    assert ([".."] + path)[1..] == path;
    ResolveDown(Parent(dest), path);
  }

  lemma BackInside(dest: Path, path: Path)
    requires dest != [] && path != []
    ensures dest <= Parent(dest) + path <==> path[0] == dest[|dest| - 1]
  {
    var target := Parent(dest) + path;
    assert target[|dest| - 1] == path[0];
    if path[0] == dest[|dest| - 1] { assert target[..|dest|] == dest; }
  }

  // ---------------------------------------------------------------- extraction

  datatype DirStamp = DirStamp(path: Path, perm: Perm, mtime: Time)

  datatype Error = BadTar | Io

  datatype Progress = Progress(nodes: Nodes, stamps: seq<DirStamp>)

  datatype Outcome = Done(nodes: Nodes) | Stopped(error: Error, nodes: Nodes)

  datatype Job = Job(host: Host, filter: Filter, dest: Path, clock: Entry -> Instant)

  function TarPerm(perm: Perm, default: Perm): Perm {
    if perm != 0 then perm else default
  }

  /** Writing one regular file: content, then mode, then (best effort) mtime. */
  function WriteTarEntry(host: Host, nodes: Nodes, target: Path, e: Entry, now: Time): Result {
    var perm := TarPerm(e.perm, FILE_DEFAULT);
    var written := WriteFile(host, nodes, target, perm, e.content, now);
    if written.Err? then written else
    var moded := Chmod(host, written.nodes, target, perm);
    if moded.Err? || e.mtime == ZERO_TIME then moded
    else Ok(Chtimes(host, moded.nodes, target, e.mtime).nodes)
  }

  datatype StepResult = Next(p: Progress) | Stop(error: Error, nodes: Nodes)

  function ExtractDir(job: Job, p: Progress, e: Entry, target: Path): StepResult {
    var made := MkdirAll(job.host, p.nodes, target, DIR_DEFAULT, job.clock(e));
    if made.Err? then Stop(Io, made.nodes)
    else Next(Progress(made.nodes, p.stamps + [DirStamp(target, TarPerm(e.perm, DIR_DEFAULT), e.mtime)]))
  }

  function ExtractFile(job: Job, p: Progress, e: Entry, target: Path): StepResult
    requires target != []
  {
    var made := MkdirAll(job.host, p.nodes, Parent(target), DIR_DEFAULT, job.clock(e));
    if made.Err? then Stop(Io, made.nodes) else
    var written := WriteTarEntry(job.host, made.nodes, target, e, job.clock(e));
    if written.Err? then Stop(Io, written.nodes) else Next(p.(nodes := written.nodes))
  }

  /** A name that joins to something other than the destination joins below it. */
  lemma InsideIsNotRoot(dest: Path, name: string)
    requires JoinTarEntry(dest, name).Some? && Render(JoinTarEntry(dest, name).value) != Render(dest)
    ensures JoinTarEntry(dest, name).value != []
  {
    assert Render([]) == "/";
  }

  /** What one archive entry does. */
  ghost function ExtractEntry(job: Job, p: Progress, e: Entry): StepResult {
    var target := JoinTarEntry(job.dest, e.name);
    if target == None then Stop(BadTar, p.nodes)
    else
      match e.kind
      case DirEntry =>
        if Included(job.filter, PathOf(e.name)) then ExtractDir(job, p, e, target.value) else Next(p)
      case FileEntry =>
        if Render(target.value) == Render(job.dest) || HasSuffix(e.name, "/") then Stop(BadTar, p.nodes)
        else
          InsideIsNotRoot(job.dest, e.name);
          if Included(job.filter, PathOf(e.name)) then ExtractFile(job, p, e, target.value) else Next(p)
      case OtherEntry => Stop(BadTar, p.nodes)
  }

  ghost function ExtractAll(job: Job, p: Progress, entries: seq<Entry>): StepResult
    decreases entries
  {
    if entries == [] then Next(p)
    else
      var step := ExtractEntry(job, p, entries[0]);
      if step.Stop? then step else ExtractAll(job, step.p, entries[1..])
  }

  function ApplyStamp(host: Host, nodes: Nodes, stamp: DirStamp): Result {
    var moded := Chmod(host, nodes, stamp.path, stamp.perm);
    if moded.Err? || stamp.mtime == ZERO_TIME then moded
    else Ok(Chtimes(host, moded.nodes, stamp.path, stamp.mtime).nodes)
  }

  /** The deferred pass, from the last stamp to the first. */
  function ApplyStamps(host: Host, nodes: Nodes, stamps: seq<DirStamp>): Result {
    if stamps == [] then Ok(nodes)
    else
      var n := |stamps| - 1;
      var one := ApplyStamp(host, nodes, stamps[n]);
      if one.Err? then one else ApplyStamps(host, one.nodes, stamps[..n])
  }

  ghost function Extract(job: Job, nodes: Nodes, entries: seq<Entry>): Outcome {
    var all := ExtractAll(job, Progress(nodes, []), entries);
    if all.Stop? then Stopped(all.error, all.nodes) else
    var stamped := ApplyStamps(job.host, all.p.nodes, all.p.stamps);
    if stamped.Err? then Stopped(Io, stamped.nodes) else Done(stamped.nodes)
  }

  /** The mutable disk. */
  class Disk {
    var nodes: Nodes

    constructor (nodes: Nodes)
      ensures this.nodes == nodes
    {
      this.nodes := nodes;
    }
  }

  /** One turn of the extraction loop. */
  method ExtractOne(disk: Disk, job: Job, e: Entry, stamps: seq<DirStamp>)
    returns (error: Option<Error>, stamps': seq<DirStamp>)
    modifies disk
    ensures var step := ExtractEntry(job, Progress(old(disk.nodes), stamps), e);
            if step.Next? then error == None && step.p == Progress(disk.nodes, stamps')
            else error == Some(step.error) && disk.nodes == step.nodes
  {
    stamps' := stamps;
    var target := JoinTarEntry(job.dest, e.name);
    if target == None { return Some(BadTar), stamps; }
    match e.kind {
      case DirEntry =>
        var included := IsIncluded(job.filter, e.name);
        if !included { return None, stamps; }
        var made := MkdirAll(job.host, disk.nodes, target.value, DIR_DEFAULT, job.clock(e));
        disk.nodes := made.nodes;
        if made.Err? { return Some(Io), stamps; }
        stamps' := stamps + [DirStamp(target.value, TarPerm(e.perm, DIR_DEFAULT), e.mtime)];
      case FileEntry =>
        if Render(target.value) == Render(job.dest) || HasSuffix(e.name, "/") { return Some(BadTar), stamps; }
        InsideIsNotRoot(job.dest, e.name);
        var included := IsIncluded(job.filter, e.name);
        if !included { return None, stamps; }
        var made := MkdirAll(job.host, disk.nodes, Parent(target.value), DIR_DEFAULT, job.clock(e));
        disk.nodes := made.nodes;
        if made.Err? { return Some(Io), stamps; }
        var written := WriteTarEntry(job.host, disk.nodes, target.value, e, job.clock(e));
        disk.nodes := written.nodes;
        if written.Err? { return Some(Io), stamps; }
      case OtherEntry =>
        return Some(BadTar), stamps;
    }
    error := None;
  }

  /** The deferred pass over the recorded directories, last one first. */
  method StampDirs(disk: Disk, host: Host, stamps: seq<DirStamp>) returns (failed: bool)
    modifies disk
    ensures var stamped := ApplyStamps(host, old(disk.nodes), stamps);
            disk.nodes == stamped.nodes && failed == stamped.Err?
  {
    ghost var whole := ApplyStamps(host, disk.nodes, stamps);
    var i := |stamps|;
    assert stamps[..i] == stamps;
    while i > 0
      invariant 0 <= i <= |stamps|
      invariant whole == ApplyStamps(host, disk.nodes, stamps[..i])
    {
      i := i - 1;
      assert stamps[..i + 1][..i] == stamps[..i];
      var one := ApplyStamp(host, disk.nodes, stamps[i]);
      disk.nodes := one.nodes;
      if one.Err? { return true; }
    }
    return false;
  }

  /** Extraction: the entries in order, then the deferred pass. On an error the
      disk keeps what was extracted so far. */
  method ExtractTar(disk: Disk, job: Job, entries: seq<Entry>) returns (error: Option<Error>)
    modifies disk
    ensures var outcome := Extract(job, old(disk.nodes), entries);
            disk.nodes == outcome.nodes
            && error == if outcome.Done? then None else Some(outcome.error)
  {
    var stamps: seq<DirStamp> := [];
    ghost var whole := ExtractAll(job, Progress(disk.nodes, []), entries);
    for i := 0 to |entries|
      invariant whole == ExtractAll(job, Progress(disk.nodes, stamps), entries[i..])
    {
      assert entries[i..][0] == entries[i] && entries[i..][1..] == entries[i + 1..];
      var failed, more := ExtractOne(disk, job, entries[i], stamps);
      if failed != None { return failed; }
      stamps := more;
    }
    var failed := StampDirs(disk, job.host, stamps);
    error := if failed then Some(Io) else None;
  }

  // ---------------------------------------------------------------- bad archives

  /** A name outside the destination, an entry that is neither a directory nor a
      regular file, or a regular file under a directory's name. */
  ghost predicate BadEntry(dest: Path, e: Entry) {
    var target := Resolve(dest, Split(e.name));
    || "/" <= e.name || !(target == dest || (dest != [] && dest < target))
    || e.kind == OtherEntry
    || (e.kind == FileEntry && (target == dest || (e.name != "" && e.name[|e.name| - 1] == '/')))
  }

  lemma SuffixIsLast(s: string)
    ensures HasSuffix(s, "/") <==> s != "" && s[|s| - 1] == '/'
  {
    if s != "" { assert s[|s| - 1..] == [s[|s| - 1]]; }
  }

  /** Extraction finds an archive bad exactly at such an entry, whatever the filter, and
      touches nothing for it. */
  lemma BadEntriesStop(job: Job, p: Progress, e: Entry)
    requires Segments(job.dest)
    ensures var step := ExtractEntry(job, p, e);
            && (step.Stop? && step.error == BadTar <==> BadEntry(job.dest, e))
            && (BadEntry(job.dest, e) ==> step == Stop(BadTar, p.nodes))
  {
    JoinStaysInside(job.dest, e.name);
    SuffixIsLast(e.name);
    var target := Resolve(job.dest, Split(e.name));
    PiecesHaveNoSlash(e.name);
    ResolveIsProper(job.dest, Split(e.name));
    if Render(target) == Render(job.dest) { RenderIsInjective(target, job.dest); }
  }

  lemma {:induction false} ExtractSplit(job: Job, p: Progress, a: seq<Entry>, b: seq<Entry>)
    ensures ExtractAll(job, p, a + b)
            == if ExtractAll(job, p, a).Stop? then ExtractAll(job, p, a)
               else ExtractAll(job, ExtractAll(job, p, a).p, b)
    decreases a
  {
    if a == [] {
      assert a + b == b;
    } else {
      assert (a + b)[1..] == a[1..] + b && (a + b)[0] == a[0];
      var step := ExtractEntry(job, p, a[0]);
      if step.Next? { ExtractSplit(job, step.p, a[1..], b); }
    }
  }

  /** At the first bad entry extraction stops; the disk keeps what the entries before
      it left. */
  lemma StopsAtBadEntry(job: Job, nodes: Nodes, before: seq<Entry>, e: Entry, after: seq<Entry>)
    requires Segments(job.dest) && BadEntry(job.dest, e)
    requires ExtractAll(job, Progress(nodes, []), before).Next?
    ensures Extract(job, nodes, before + ([e] + after))
            == Stopped(BadTar, ExtractAll(job, Progress(nodes, []), before).p.nodes)
  {
    ExtractSplit(job, Progress(nodes, []), before, [e] + after);
    BadEntriesStop(job, ExtractAll(job, Progress(nodes, []), before).p, e);
  }
}
