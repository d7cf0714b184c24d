/** The API server as one reconcile pass meets it: between any two calls the
    rest of the world may act, and any call may fail, applied or not. */
module ApiServer {
  import opened Basics
  import opened PodTypes
  import opened PodCache

  datatype Outcome = Accepted | NotFound | Conflict | Refused

  /** The choices of everything outside the pass, one per call. */
  datatype World = World(
    drift: (nat, map<string, Pod>) -> map<string, Pod>,
    fails: nat -> bool,
    applied: nat -> bool,
    immediate: nat -> bool,
    stamp: nat -> ResourceVersion,
    names: nat -> string,
    phase: nat -> Phase,
    birth: nat -> Time)

  /** What others may do to one pod: claims, deletion marks and terminal phases
      only ever come, labels and creation time stay. */
  ghost predicate Ages(p: Pod, q: Pod) {
    && q.name == p.name && q.pool == p.pool && q.templateHash == p.templateHash && q.createdAt == p.createdAt
    && (NonEmpty(p.claimed) ==> NonEmpty(q.claimed))
    && (p.terminating ==> q.terminating)
    && (Terminal(p.phase) ==> Terminal(q.phase))
  }

  /** What others may do between two calls: there is one leader, so nobody else
      creates pods. */
  ghost predicate Drifts(m: map<string, Pod>, m': map<string, Pod>) {
    m'.Keys <= m.Keys && forall n :: n in m' ==> Ages(m[n], m'[n])
  }

  /** The world of one leader's pass that starts at `now`. */
  ghost predicate Admissible(w: World, now: Time) {
    && (forall k, m :: Drifts(m, w.drift(k, m)))
    && (forall j, k :: j != k ==> w.names(j) != w.names(k))
    && (forall k :: w.phase(k) == Unset || w.phase(k) == Pending)
    && (forall k :: w.birth(k) > now - SECOND)
  }

  /** Nobody interferes and every call succeeds. */
  ghost predicate Calm(w: World) {
    (forall k, m :: w.drift(k, m) == m) && (forall k :: !w.fails(k))
  }

  /** Stored pods carry their key as name. */
  ghost predicate Keyed(pods: map<string, Pod>) {
    forall n :: n in pods ==> pods[n].name == n
  }

  function NewPod(name: string, pool: string, hash: string, w: World, k: nat): Pod {
    Pod(name, pool, hash, "", w.phase(k), [], false, Absent, Absent, w.stamp(k), w.birth(k))
  }

  function Doom(m: map<string, Pod>, name: string, w: World, k: nat): map<string, Pod>
    requires name in m
  {
    if w.immediate(k) then m - {name} else m[name := m[name].(terminating := true, version := w.stamp(k))]
  }

  predicate Accepts(m: map<string, Pod>, name: string, version: ResourceVersion) {
    name in m && (version == NO_VERSION || m[name].version == version)
  }

  /** What call `k`, a delete or patch with the given precondition, answers. */
  function CallOutcome(w: World, k: nat, m: map<string, Pod>, name: string, version: ResourceVersion): Outcome {
    var seen := w.drift(k, m);
    if w.fails(k) then Refused
    else if Accepts(seen, name, version) then Accepted
    else if name in seen then Conflict
    else NotFound
  }

  /** The store after call `k`, a delete; a failed call may have been applied. */
  function AfterDelete(w: World, k: nat, m: map<string, Pod>, name: string, version: ResourceVersion): map<string,
                       Pod>
  {
    var seen := w.drift(k, m);
    if Accepts(seen, name, version) && (w.fails(k) ==> w.applied(k)) then Doom(seen, name, w, k) else seen
  }

  /** The store after call `k`, a create; a failed call may have been applied. */
  function AfterCreate(w: World, k: nat, m: map<string, Pod>, pool: string, hash: string): map<string, Pod> {
    var seen := w.drift(k, m);
    if w.fails(k) && !w.applied(k) then seen else seen[w.names(k) := NewPod(w.names(k), pool, hash, w, k)]
  }

  /** A metadata patch: a claim stamps both annotations, a renewal the lease. */
  datatype Patch = Patch(claim: bool, now: Time, lease: Time)

  function Patched(pod: Pod, patch: Patch, stamp: ResourceVersion): Pod {
    var leased := pod.(lease := Stamp(FormatSeconds(patch.now + patch.lease)), version := stamp);
    if patch.claim then leased.(claimed := Stamp(FormatSeconds(patch.now))) else leased
  }

  /** A patch takes effect when the server accepts it, or fails after applying it. */
  predicate TakesEffect(w: World, k: nat, m: map<string, Pod>, name: string, version: ResourceVersion) {
    Accepts(w.drift(k, m), name, version) && (w.fails(k) ==> w.applied(k))
  }

  /** The store after call `k`, a patch. */
  function AfterPatch(w: World, k: nat, m: map<string, Pod>, name: string, version: ResourceVersion,
                      patch: Patch): map<string, Pod>
  {
    var seen := w.drift(k, m);
    if TakesEffect(w, k, m, name, version) then seen[name := Patched(seen[name], patch, w.stamp(k))] else seen
  }

  /** The calls as they are sent, with their preconditions, and their answers. */
  datatype PatchCall = PatchCall(name: string, version: ResourceVersion, patch: Patch, outcome: Outcome)

  datatype DeleteCall = DeleteCall(name: string, version: ResourceVersion, outcome: Outcome)

  datatype CreateCall = CreateCall(pool: string, hash: string, created: bool)

  /** `patches`, `deletes` and `creates` record every such call in order; `claims`
      the stored pods, as they were just before, whose claim took effect. */
  class Api {
    const world: World
    var pods: map<string, Pod>
    var turn: nat
    ghost var patches: seq<PatchCall>
    ghost var deletes: seq<DeleteCall>
    ghost var creates: seq<CreateCall>
    ghost var claims: seq<Pod>

    constructor (world: World, pods: map<string, Pod>)
      ensures this.world == world && this.pods == pods && turn == 0
      ensures patches == [] && deletes == [] && creates == [] && claims == []
    {
      this.world := world;
      this.pods := pods;
      turn := 0;
      patches, deletes, creates, claims := [], [], [], [];
    }

    method Patch(name: string, version: ResourceVersion, patch: Patch) returns (outcome: Outcome, pod: Option<Pod>)
      modifies this`pods, this`turn, this`patches, this`claims
      ensures turn == old(turn) + 1
      ensures patches == old(patches) + [PatchCall(name, version, patch, outcome)]
      ensures outcome == CallOutcome(world, old(turn), old(pods), name, version)
      ensures pods == AfterPatch(world, old(turn), old(pods), name, version, patch)
      ensures claims == if patch.claim && TakesEffect(world, old(turn), old(pods), name, version)
                        then old(claims) + [world.drift(old(turn), old(pods))[name]] else old(claims)
      ensures pod == if outcome == Accepted then Find(pods, name) else None
    {
      var seen := world.drift(turn, pods);
      var accepts := name in seen && (version == NO_VERSION || seen[name].version == version);
      pods := seen;
      if accepts && (!world.fails(turn) || world.applied(turn)) {
        pods := seen[name := Patched(seen[name], patch, world.stamp(turn))];
        if patch.claim { claims := claims + [seen[name]]; }
      }
      outcome := if world.fails(turn) then Refused
                 else if accepts then Accepted
                 else if name in seen then Conflict
                 else NotFound;
      pod := if outcome == Accepted then Some(pods[name]) else None;
      patches := patches + [PatchCall(name, version, patch, outcome)];
      turn := turn + 1;
    }

    method Delete(name: string, version: ResourceVersion) returns (outcome: Outcome)
      modifies this`pods, this`turn, this`deletes
      ensures deletes == old(deletes) + [DeleteCall(name, version, outcome)]
      ensures turn == old(turn) + 1
      ensures outcome == CallOutcome(world, old(turn), old(pods), name, version)
      ensures pods == AfterDelete(world, old(turn), old(pods), name, version)
    {
      var seen := world.drift(turn, pods);
      var accepts := name in seen && (version == NO_VERSION || seen[name].version == version);
      pods := seen;
      if world.fails(turn) {
        outcome := Refused;
        if accepts && world.applied(turn) { pods := Doom(seen, name, world, turn); }
      } else if accepts {
        outcome := Accepted;
        pods := Doom(seen, name, world, turn);
      } else {
        outcome := if name in seen then Conflict else NotFound;
      }
      deletes := deletes + [DeleteCall(name, version, outcome)];
      turn := turn + 1;
    }

    method Get(name: string) returns (outcome: Outcome, pod: Option<Pod>)
      modifies this`pods, this`turn
      ensures turn == old(turn) + 1 && pods == world.drift(old(turn), old(pods))
      ensures pod == if world.fails(old(turn)) then None else Find(pods, name)
      ensures outcome == if world.fails(old(turn)) then Refused else if name in pods then Accepted else NotFound
    {
      pods := world.drift(turn, pods);
      if world.fails(turn) {
        outcome, pod := Refused, None;
      } else {
        outcome, pod := if name in pods then Accepted else NotFound, Find(pods, name);
      }
      turn := turn + 1;
    }

    method Create(pool: string, hash: string) returns (pod: Option<Pod>)
      modifies this`pods, this`turn, this`creates
      ensures creates == old(creates) + [CreateCall(pool, hash, pod.Some?)]
      ensures turn == old(turn) + 1
      ensures pods == AfterCreate(world, old(turn), old(pods), pool, hash)
      ensures var k := old(turn);
              pod == if world.fails(k) then None else Some(NewPod(world.names(k), pool, hash, world, k))
    {
      var made := NewPod(world.names(turn), pool, hash, world, turn);
      pods := world.drift(turn, pods);
      if !world.fails(turn) || world.applied(turn) { pods := pods[made.name := made]; }
      pod := if world.fails(turn) then None else Some(made);
      creates := creates + [CreateCall(pool, hash, pod.Some?)];
      turn := turn + 1;
    }
  }
}
