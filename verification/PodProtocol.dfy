/** The cross-replica pod protocol as a transition system: one API server, any
    number of controller replicas with possibly stale caches, requests in
    flight whose answers land late or never, and one clock. */
module PodProtocol {
  import opened Basics
  import opened PodTypes
  import opened PodPolicy
  import opened PodCache

  // ---------------------------------------------------------------- state

  /** One write to the API server's store. The position of a record in the log
      is its resource version; records of other objects leave gaps. */
  datatype Record = Wrote(pod: Pod) | Removed(name: string) | Unrelated

  datatype Server = Server(pods: map<string, Pod>, log: seq<Record>)

  /** A cache entry; entries are replaced wholesale, so `id` is the identity of
      the object the map points to. */
  datatype Slot = Slot(id: nat, state: PodState)

  /** The list/watch loop of a replica. `Listed` holds a fetched list that is
      not installed yet, taken when the log had `at` records. */
  datatype Feed = Idle | Listed(snapshot: Cache, at: nat) | Watching

  /** `cursor` counts the records the watch has consumed. `late` and `lost` are
      history only: the names whose entry was last set to a version the watch had
      already passed, and those whose entry was dropped although the watch had
      seen no removal. A list, or the next record of the pod, takes a name out. */
  datatype Replica = Replica(
    cfg: Config, cache: map<string, Slot>, feed: Feed, cursor: nat,
    late: set<string>, lost: set<string>)

  datatype Cause = ByRelease | BySweep(reason: Reason)

  datatype Kind = Claim(cfg: Config, pool: string) | Renewal

  datatype Outcome = Accepted | NotFound | Conflict

  /** A request of replica `r`, from the decision to make it to the landing of
      its answer. */
  datatype Op =
    | Chosen(r: nat, kind: Kind, st: PodState, lease: Time, at: Time)
    | Patching(r: nat, kind: Kind, st: PodState, lease: Time, now: Time, before: Option<Slot>)
    | Patched(r: nat, kind: Kind, before: Option<Slot>, reply: Pod)
    | Sweeping(r: nat, st: PodState)
    | Deleting(r: nat, st: PodState, cause: Cause, now: Time)
    | Deleted(r: nat, st: PodState, cause: Cause, outcome: Outcome)
    | Refreshing(r: nat, name: string)
    | Refreshed(r: nat, name: string, found: Option<Pod>)
    | Creating(r: nat, pool: string)
    | Created(r: nat, pod: Pod)

  /** History of what the server accepted and what Allocate returned; `pod` is
      the stored pod just before the write. */
  datatype Act =
    | Claimed(op: nat, cfg: Config, pool: string, pod: Pod,
              now: Time, lease: Time, deadline: int, version: int)
    | Renewed(pod: Pod, now: Time, lease: Time, deadline: int)
    | Doomed(cause: Cause, pod: Pod, clock: Time)
    | Returned(op: nat, name: string)

  datatype Sys = Sys(
    clock: Time, server: Server, replicas: map<nat, Replica>,
    ops: map<nat, Op>, next: nat, journal: seq<Act>)

  datatype Step =
    | Tick(to: Time)
    | StatusUpdate(name: string, ip: string, phase: Phase, conditions: seq<Condition>)
    | Evict(name: string)
    | Finalize(name: string)
    | OtherWrite
    | ListFetch(r: nat)
    | ListInstall(r: nat)
    | Deliver(r: nat)
    | BreakWatch(r: nat)
    | Restart(r: nat)
    | PickClaim(r: nat, pool: string, name: string, lease: Time)
    | PickRenew(r: nat, name: string, lease: Time)
    | SendPatch(id: nat, now: Time)
    | ServePatch(id: nat)
    | LandPatch(id: nat)
    | StartRelease(r: nat, name: string)
    | StartSweep(r: nat, name: string)
    | SendSweep(id: nat, reason: Reason)
    | ServeDelete(id: nat, immediate: bool)
    | LandDelete(id: nat)
    | FetchRefresh(id: nat)
    | LandRefresh(id: nat)
    | StartCreate(r: nat, pool: string)
    | ServeCreate(id: nat, name: string, phase: Phase)
    | LandCreate(id: nat)
    | Abandon(id: nat)

  // ---------------------------------------------------------------- server

  function Put(sv: Server, pod: Pod): Server {
    var stored := pod.(version := Version(|sv.log|));
    Server(sv.pods[pod.name := stored], sv.log + [Wrote(stored)])
  }

  function Erase(sv: Server, name: string): Server {
    Server(sv.pods - {name}, sv.log + [Removed(name)])
  }

  /** Names are never reused. */
  predicate FreshName(sv: Server, name: string) {
    && name !in sv.pods
    && Removed(name) !in sv.log
    && forall i :: 0 <= i < |sv.log| && sv.log[i].Wrote? ==> sv.log[i].pod.name != name
  }

  function PatchedPod(pod: Pod, kind: Kind, now: Time, lease: Time): Pod {
    var leased := pod.(lease := Stamp(FormatSeconds(now + lease)));
    if kind.Claim? then leased.(claimed := Stamp(FormatSeconds(now))) else leased
  }

  predicate PatchAccepted(sv: Server, op: Op)
    requires op.Patching?
  {
    && op.st.name in sv.pods
    && (op.kind.Claim? ==> sv.pods[op.st.name].version == op.st.version)
  }

  function DeleteOutcome(sv: Server, op: Op): Outcome
    requires op.Deleting?
  {
    if op.st.name !in sv.pods then NotFound
    else if op.cause.BySweep? && sv.pods[op.st.name].version != op.st.version then Conflict
    else Accepted
  }

  // ---------------------------------------------------------------- steps

  function View(cache: map<string, Slot>): Cache {
    map n | n in cache :: cache[n].state
  }

  function StatesOf(pods: map<string, Pod>): Cache {
    map n | n in pods :: StateOf(pods[n])
  }

  function EntryState(cache: map<string, Slot>, name: string): Option<PodState> {
    if name in cache then Some(cache[name].state) else None
  }

  function ApplySlot(cache: map<string, Slot>, name: string, d: Decision, id: nat): map<string, Slot> {
    match d
    case Keep => cache
    case Replace(state) => cache[name := Slot(id, state)]
    case Remove => cache - {name}
  }

  predicate RecordOf(record: Record, name: string) {
    match record
    case Wrote(pod) => pod.name == name
    case Removed(n) => n == name
    case Unrelated => false
  }

  /** The first `cursor` records hold one of the pod after version `v`. */
  predicate Later(log: seq<Record>, name: string, v: int, cursor: nat) {
    exists i :: 0 <= i < cursor && i < |log| && v < i && RecordOf(log[i], name)
  }

  /** By the first `cursor` records the pod was written and never removed. */
  predicate Present(log: seq<Record>, name: string, cursor: nat) {
    && (exists i :: 0 <= i < cursor && i < |log| && RecordOf(log[i], name))
    && (forall i :: 0 <= i < cursor && i < |log| ==> log[i] != Removed(name))
  }

  function With(names: set<string>, name: string, member: bool): set<string> {
    if member then names + {name} else names - {name}
  }

  function LateAfter(rep: Replica, log: seq<Record>, name: string, d: Decision): set<string> {
    match d
    case Keep => rep.late
    case Replace(state) =>
      With(rep.late, name, state.version.Version? && Later(log, name, state.version.n, rep.cursor))
    case Remove => rep.late - {name}
  }

  function LostAfter(rep: Replica, log: seq<Record>, name: string, d: Decision): set<string> {
    match d
    case Keep => rep.lost
    case Replace(state) => rep.lost - {name}
    case Remove => With(rep.lost, name, Present(log, name, rep.cursor))
  }

  predicate Enabled(s: Sys, step: Step) {
    match step
    case Tick(to) => s.clock <= to
    case StatusUpdate(name, ip, phase, conditions) =>
      name in s.server.pods && (Terminal(s.server.pods[name].phase) ==> Terminal(phase))
    case Evict(name) => name in s.server.pods
    case Finalize(name) => name in s.server.pods && s.server.pods[name].terminating
    case OtherWrite => true
    case ListFetch(r) => r in s.replicas && s.replicas[r].feed == Idle
    case ListInstall(r) => r in s.replicas && s.replicas[r].feed.Listed?
    case Deliver(r) =>
      r in s.replicas && s.replicas[r].feed == Watching && s.replicas[r].cursor < |s.server.log|
    case BreakWatch(r) => r in s.replicas && s.replicas[r].feed == Watching
    case Restart(r) => r in s.replicas
    case PickClaim(r, pool, name, lease) =>
      && r in s.replicas && name in s.replicas[r].cache
      && Candidate(s.replicas[r].cfg, pool, s.replicas[r].cache[name].state)
    case PickRenew(r, name, lease) =>
      && r in s.replicas && name in s.replicas[r].cache
      && Renewable(s.replicas[r].cache[name].state, s.clock)
    case SendPatch(id, now) =>
      && id in s.ops && s.ops[id].Chosen? && s.ops[id].r in s.replicas
      && s.ops[id].at <= now <= s.clock
    case ServePatch(id) => id in s.ops && s.ops[id].Patching?
    case LandPatch(id) => id in s.ops && s.ops[id].Patched? && s.ops[id].r in s.replicas
    case StartRelease(r, name) =>
      && r in s.replicas && name in s.replicas[r].cache
      && Releasable(s.replicas[r].cache[name].state)
    case StartSweep(r, name) => r in s.replicas && name in s.server.pods
    case SendSweep(id, reason) =>
      && id in s.ops && s.ops[id].Sweeping? && s.ops[id].r in s.replicas
      && var verdict := Classify(s.replicas[s.ops[id].r].cfg, s.clock, s.ops[id].st);
         verdict == Sweep(reason) || (verdict == Standby && reason == SurplusStandby)
    case ServeDelete(id, immediate) => id in s.ops && s.ops[id].Deleting?
    case LandDelete(id) => id in s.ops && s.ops[id].Deleted? && s.ops[id].r in s.replicas
    case FetchRefresh(id) => id in s.ops && s.ops[id].Refreshing?
    case LandRefresh(id) => id in s.ops && s.ops[id].Refreshed? && s.ops[id].r in s.replicas
    case StartCreate(r, pool) => r in s.replicas && pool in s.replicas[r].cfg
    case ServeCreate(id, name, phase) =>
      && id in s.ops && s.ops[id].Creating? && s.ops[id].r in s.replicas
      && s.ops[id].pool in s.replicas[s.ops[id].r].cfg
      && FreshName(s.server, name) && (phase == Unset || phase == Pending)
    case LandCreate(id) => id in s.ops && s.ops[id].Created? && s.ops[id].r in s.replicas
    case Abandon(id) => id in s.ops
  }

  /** A replica that has just started. */
  function Fresh(cfg: Config): Replica {
    Replica(cfg, map[], Idle, 0, {}, {})
  }

  function WithReplica(s: Sys, r: nat, rep: Replica): Sys {
    s.(replicas := s.replicas[r := rep])
  }

  function Begin(s: Sys, op: Op): Sys {
    s.(ops := s.ops[s.next := op], next := s.next + 1)
  }

  function Finish(s: Sys, id: nat): Sys {
    s.(ops := s.ops - {id})
  }

  /** A replica after one cache entry was decided on by the answer of a request. */
  function Decided(rep: Replica, log: seq<Record>, name: string, d: Decision, id: nat): Replica {
    rep.(cache := ApplySlot(rep.cache, name, d, id),
         late := LateAfter(rep, log, name, d), lost := LostAfter(rep, log, name, d))
  }

  /** Sets one cache entry of replica `r` under a new identity. */
  function Store(s: Sys, r: nat, name: string, d: Decision): Sys
    requires r in s.replicas
  {
    WithReplica(s, r, Decided(s.replicas[r], s.server.log, name, d, s.next)).(next := s.next + 1)
  }

  /** A replica after its fetched list replaced the cache. */
  function Installed(rep: Replica, id: nat): Replica
    requires rep.feed.Listed?
  {
    var slots := map n | n in rep.feed.snapshot :: Slot(id, rep.feed.snapshot[n]);
    Replica(rep.cfg, slots, Watching, rep.feed.at, {}, {})
  }

  function RecordName(record: Record): set<string> {
    match record
    case Wrote(pod) => {pod.name}
    case Removed(name) => {name}
    case Unrelated => {}
  }

  /** A replica after its watch consumed `record`. */
  function Delivered(rep: Replica, record: Record, id: nat): Replica {
    var named := RecordName(record);
    var moved := rep.(cursor := rep.cursor + 1, late := rep.late - named, lost := rep.lost - named);
    match record
    case Wrote(pod) =>
      var d := OnUpsert(EntryState(rep.cache, pod.name), pod);
      moved.(cache := ApplySlot(rep.cache, pod.name, d, id))
    case Removed(name) => moved.(cache := ApplySlot(rep.cache, name, Remove, id))
    case Unrelated => moved
  }

  /** The store after an accepted patch; one that changes nothing writes nothing. */
  function ServerAfterPatch(sv: Server, op: Op): Server
    requires op.Patching? && PatchAccepted(sv, op)
  {
    var pod := sv.pods[op.st.name];
    var wanted := PatchedPod(pod, op.kind, op.now, op.lease);
    if wanted == pod then sv else Put(sv, wanted)
  }

  function Grant(sv: Server, id: nat, op: Op): Act
    requires op.Patching? && PatchAccepted(sv, op)
  {
    var pod := sv.pods[op.st.name];
    var deadline := FormatSeconds(op.now + op.lease);
    if op.kind.Claim?
    then Claimed(id, op.kind.cfg, op.kind.pool, pod, op.now, op.lease, deadline, |sv.log|)
    else Renewed(pod, op.now, op.lease, deadline)
  }

  /** The server decides on a patch; a rejected one ends with an error. */
  function NextServePatch(s: Sys, id: nat): Sys
    requires id in s.ops && s.ops[id].Patching?
  {
    var op := s.ops[id];
    if !PatchAccepted(s.server, op) then Finish(s, id) else
    var sv := ServerAfterPatch(s.server, op);
    s.(server := sv,
       ops := s.ops[id := Patched(op.r, op.kind, op.before, sv.pods[op.st.name])],
       journal := s.journal + [Grant(s.server, id, op)])
  }

  function NextLandPatch(s: Sys, id: nat): Sys
    requires id in s.ops && s.ops[id].Patched? && s.ops[id].r in s.replicas
  {
    var op := s.ops[id];
    var rep := s.replicas[op.r];
    var name := op.reply.name;
    var untouched := op.before.Some? && Find(rep.cache, name) == op.before;
    var d := OnPatched(EntryState(rep.cache, name), untouched, StateOf(op.reply));
    var landed := Store(Finish(s, id), op.r, name, d);
    if op.kind.Claim? then landed.(journal := s.journal + [Returned(id, name)]) else landed
  }

  /** An accepted delete marks the pod, or removes it at once. */
  function ServerAfterDelete(sv: Server, name: string, immediate: bool): Server
    requires name in sv.pods
  {
    if immediate then Erase(sv, name) else Put(sv, sv.pods[name].(terminating := true))
  }

  /** The server decides on a delete; a pod already terminating stays as it is. */
  function NextServeDelete(s: Sys, id: nat, immediate: bool): Sys
    requires id in s.ops && s.ops[id].Deleting?
  {
    var op := s.ops[id];
    var outcome := DeleteOutcome(s.server, op);
    var answered := s.(ops := s.ops[id := Deleted(op.r, op.st, op.cause, outcome)]);
    if outcome != Accepted || s.server.pods[op.st.name].terminating then answered else
    answered.(server := ServerAfterDelete(s.server, op.st.name, immediate),
              journal := s.journal + [Doomed(op.cause, s.server.pods[op.st.name], s.clock)])
  }

  /** What the answer of a delete does to the cache. */
  function DeleteDecision(s: Sys, id: nat): Decision
    requires id in s.ops && s.ops[id].Deleted? && s.ops[id].r in s.replicas
  {
    var op := s.ops[id];
    var current := EntryState(s.replicas[op.r].cache, op.st.name);
    if op.cause.ByRelease? then Remove
    else
      match op.outcome
      case Accepted => OnForget(current, op.st.version)
      case NotFound => OnForget(current, NO_VERSION)
      case Conflict => Keep
  }

  /** A sweep that lost a race goes on to refresh the entry. */
  function NextLandDelete(s: Sys, id: nat): Sys
    requires id in s.ops && s.ops[id].Deleted? && s.ops[id].r in s.replicas
  {
    var op := s.ops[id];
    if op.cause.BySweep? && op.outcome == Conflict then s.(ops := s.ops[id := Refreshing(op.r, op.st.name)])
    else Store(Finish(s, id), op.r, op.st.name, DeleteDecision(s, id))
  }

  function NextLandRefresh(s: Sys, id: nat): Sys
    requires id in s.ops && s.ops[id].Refreshed? && s.ops[id].r in s.replicas
  {
    var op := s.ops[id];
    var current := EntryState(s.replicas[op.r].cache, op.name);
    match op.found
    case Some(pod) => Store(Finish(s, id), op.r, op.name, OnUpsert(current, pod))
    case None => Store(Finish(s, id), op.r, op.name, OnForget(current, NO_VERSION))
  }

  function NextServeCreate(s: Sys, id: nat, name: string, phase: Phase): Sys
    requires id in s.ops && s.ops[id].Creating? && s.ops[id].r in s.replicas
    requires s.ops[id].pool in s.replicas[s.ops[id].r].cfg
  {
    var op := s.ops[id];
    var hash := s.replicas[op.r].cfg[op.pool].templateHash;
    var pod := Pod(name, op.pool, hash, "", phase, [], false, Absent, Absent, NO_VERSION,
                   FormatSeconds(s.clock) * SECOND);
    var sv := Put(s.server, pod);
    s.(server := sv, ops := s.ops[id := Created(op.r, sv.pods[name])])
  }

  /** The answer of a create is stored unconditionally. */
  function NextLandCreate(s: Sys, id: nat): Sys
    requires id in s.ops && s.ops[id].Created? && s.ops[id].r in s.replicas
  {
    var op := s.ops[id];
    Store(Finish(s, id), op.r, op.pod.name, Replace(StateOf(op.pod)))
  }

  function Next(s: Sys, step: Step): Sys
    requires Enabled(s, step)
  {
    match step
    case Tick(to) => s.(clock := to)
    case StatusUpdate(name, ip, phase, conditions) =>
      s.(server := Put(s.server, s.server.pods[name].(ip := ip, phase := phase, conditions := conditions)))
    case Evict(name) => s.(server := Put(s.server, s.server.pods[name].(terminating := true)))
    case Finalize(name) => s.(server := Erase(s.server, name))
    case OtherWrite => s.(server := s.server.(log := s.server.log + [Unrelated]))
    case ListFetch(r) =>
      WithReplica(s, r, s.replicas[r].(feed := Listed(StatesOf(s.server.pods), |s.server.log|)))
    case ListInstall(r) =>
      WithReplica(s, r, Installed(s.replicas[r], s.next)).(next := s.next + 1)
    case Deliver(r) =>
      var rep := s.replicas[r];
      WithReplica(s, r, Delivered(rep, s.server.log[rep.cursor], s.next)).(next := s.next + 1)
    case BreakWatch(r) => WithReplica(s, r, s.replicas[r].(feed := Idle))
    case Restart(r) =>
      WithReplica(s, r, Fresh(s.replicas[r].cfg))
    case PickClaim(r, pool, name, lease) =>
      Begin(s, Chosen(r, Claim(s.replicas[r].cfg, pool), s.replicas[r].cache[name].state, lease, s.clock))
    case PickRenew(r, name, lease) =>
      Begin(s, Chosen(r, Renewal, s.replicas[r].cache[name].state, lease, s.clock))
    case SendPatch(id, now) =>
      var op := s.ops[id];
      var before := Find(s.replicas[op.r].cache, op.st.name);
      s.(ops := s.ops[id := Patching(op.r, op.kind, op.st, op.lease, now, before)])
    case ServePatch(id) => NextServePatch(s, id)
    case LandPatch(id) => NextLandPatch(s, id)
    case StartRelease(r, name) =>
      Begin(s, Deleting(r, s.replicas[r].cache[name].state, ByRelease, s.clock))
    case StartSweep(r, name) => Begin(s, Sweeping(r, StateOf(s.server.pods[name])))
    case SendSweep(id, reason) =>
      s.(ops := s.ops[id := Deleting(s.ops[id].r, s.ops[id].st, BySweep(reason), s.clock)])
    case ServeDelete(id, immediate) => NextServeDelete(s, id, immediate)
    case LandDelete(id) => NextLandDelete(s, id)
    case FetchRefresh(id) =>
      var op := s.ops[id];
      s.(ops := s.ops[id := Refreshed(op.r, op.name, Find(s.server.pods, op.name))])
    case LandRefresh(id) => NextLandRefresh(s, id)
    case StartCreate(r, pool) => Begin(s, Creating(r, pool))
    case ServeCreate(id, name, phase) => NextServeCreate(s, id, name, phase)
    case LandCreate(id) => NextLandCreate(s, id)
    case Abandon(id) => Finish(s, id)
  }
}
