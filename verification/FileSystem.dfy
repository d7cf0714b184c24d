/** A file system with permission bits, as far as extraction uses it. Paths are
    absolute, given by their segments. */
module FileSystem {
  import opened Basics
  import TarPack

  type Path = seq<string>

  type Perm = TarPack.Perm

  datatype Inode =
    | Dir(perm: Perm, mtime: Time)
    | File(perm: Perm, mtime: Time, content: TarPack.Content)

  type Nodes = map<Path, Inode>

  /** Who runs the calls: the superuser skips permission checks; the umask takes
      bits off newly created entries. */
  datatype Host = Host(superuser: bool, umask: Perm)

  const OWNER_WRITE: Perm := 0x080
  const OWNER_SEARCH: Perm := 0x040
  const DIR_DEFAULT: Perm := 0x1ED
  const FILE_DEFAULT: Perm := 0x1A4

  /** The umask leaves the owner all three bits. */
  predicate OwnerKept(host: Host) {
    host.umask & 0x1C0 == 0
  }

  predicate MaySearch(host: Host, node: Inode) {
    node.Dir? && (host.superuser || node.perm & OWNER_SEARCH != 0)
  }

  predicate MayWrite(host: Host, node: Inode) {
    host.superuser || node.perm & OWNER_WRITE != 0
  }

  /** Every directory above `path` exists and may be searched. */
  predicate Reachable(host: Host, nodes: Nodes, path: Path) {
    forall k :: 0 <= k < |path| ==> path[..k] in nodes && MaySearch(host, nodes[path[..k]])
  }

  function Parent(path: Path): Path
    requires path != []
  {
    path[..|path| - 1]
  }

  /** Creating an entry bumps its directory's mtime. */
  function Link(nodes: Nodes, path: Path, node: Inode, now: Time): Nodes
    requires path != [] && Parent(path) in nodes && nodes[Parent(path)].Dir?
  {
    nodes[Parent(path) := nodes[Parent(path)].(mtime := now)][path := node]
  }

  predicate MayCreate(host: Host, nodes: Nodes, path: Path) {
    && path != [] && path !in nodes && Reachable(host, nodes, path)
    && nodes[Parent(path)].Dir? && MayWrite(host, nodes[Parent(path)])
  }

  datatype Result = Ok(nodes: Nodes) | Err(nodes: Nodes)

  function Mkdir(host: Host, nodes: Nodes, path: Path, perm: Perm, now: Time): Result {
    if MayCreate(host, nodes, path) then Ok(Link(nodes, path, Dir(perm & !host.umask, now), now)) else Err(nodes)
  }

  /** os.MkdirAll: an existing directory is fine and stays as it is. */
  function MkdirAll(host: Host, nodes: Nodes, path: Path, perm: Perm, now: Time): Result
    decreases |path|
  {
    if Reachable(host, nodes, path) && path in nodes then
      if nodes[path].Dir? then Ok(nodes) else Err(nodes)
    else if path == [] then Err(nodes)
    else
      var above := MkdirAll(host, nodes, Parent(path), perm, now);
      if above.Err? then above else Mkdir(host, above.nodes, path, perm, now)
  }

  /** Opening for writing with create and truncate, then writing the content. */
  function WriteFile(host: Host, nodes: Nodes, path: Path, perm: Perm, content: TarPack.Content, now: Time): Result {
    if Reachable(host, nodes, path) && path in nodes then
      if nodes[path].File? && MayWrite(host, nodes[path])
      then Ok(nodes[path := File(nodes[path].perm, now, content)])
      else Err(nodes)
    else if MayCreate(host, nodes, path) then
      Ok(Link(nodes, path, File(perm & !host.umask, now, content), now))
    else Err(nodes)
  }

  function Chmod(host: Host, nodes: Nodes, path: Path, perm: Perm): Result {
    if Reachable(host, nodes, path) && path in nodes then Ok(nodes[path := nodes[path].(perm := perm)]) else Err(nodes)
  }

  function Chtimes(host: Host, nodes: Nodes, path: Path, mtime: Time): Result {
    if Reachable(host, nodes, path) && path in nodes
    then Ok(nodes[path := nodes[path].(mtime := mtime)])
    else Err(nodes)
  }
}
