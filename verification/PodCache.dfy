/** The rules of the replica's in-memory pod map. Every operation but a full
    list touches one entry, so each rule is a decision about that entry. */
module PodCache {
  import opened Basics
  import opened PodTypes

  type Cache = map<string, PodState>

  datatype Decision = Keep | Replace(state: PodState) | Remove

  /** An incoming version that is not newer is stale; versions that do not parse
      cannot be ordered and are taken as newer. */
  predicate StaleVersion(incoming: ResourceVersion, current: ResourceVersion) {
    incoming.Version? && current.Version? && incoming.n <= current.n
  }

  /** A watch event, or a fetched pod, that carries the whole pod. */
  function OnUpsert(current: Option<PodState>, pod: Pod): Decision {
    if current.Some? && StaleVersion(pod.version, current.value.version) then Keep
    else Replace(StateOf(pod))
  }

  /** The answer `next` of a metadata patch. `untouched` says that the entry is
      still the very object seen before the request was sent. */
  function OnPatched(current: Option<PodState>, untouched: bool, next: PodState): Decision {
    match current
    case None => Keep
    case Some(cur) =>
      if untouched then
        Replace(next.(ip := cur.ip, phase := cur.phase, ready := cur.ready,
                      deleting := next.deleting || cur.deleting))
      else if !cur.deleting && !cur.claimed && next.claimed then
        Replace(cur.(claimed := true, leaseExpires := next.leaseExpires,
                     version := next.version, deleting := next.deleting))
      else Keep
  }

  /** The same pod: what never changes about it agrees. */
  predicate SamePod(p: PodState, q: PodState) {
    p.name == q.name && p.pool == q.pool && p.templateHash == q.templateHash && p.createdAt == q.createdAt
  }

  /** A patch answer is merged exactly when there is an entry and either nobody
      touched it since the request was sent, or the answer claims an entry that is
      neither claimed nor marked for deletion. Whichever way it is merged, the entry
      ends with the answer's claim, lease and version and the cache's runtime fields,
      and a deletion mark of either; otherwise the cache stays as it is. */
  lemma PatchMerges(current: Option<PodState>, untouched: bool, next: PodState)
    requires current.Some? ==> SamePod(current.value, next)
    ensures var merges := current.Some?
                          && (untouched
                              || (next.claimed && !current.value.claimed && !current.value.deleting));
            OnPatched(current, untouched, next)
            == if !merges then Keep
               else
                 var cur := current.value;
                 Replace(next.(ip := cur.ip, phase := cur.phase, ready := cur.ready,
                               deleting := next.deleting || cur.deleting))
  {
  }

  /** Dropping an entry after a sweep; the empty version drops any entry. */
  function OnForget(current: Option<PodState>, version: ResourceVersion): Decision {
    if current.Some? && (version == NO_VERSION || current.value.version == version) then Remove
    else Keep
  }

  function Find<T>(m: map<string, T>, name: string): Option<T> {
    if name in m then Some(m[name]) else None
  }

  function Apply(cache: Cache, name: string, decision: Decision): Cache {
    match decision
    case Keep => cache
    case Replace(state) => cache[name := state]
    case Remove => cache - {name}
  }
}
