/** What every step of the pod protocol keeps. */
module PodInvariants {
  import opened Basics
  import opened PodTypes
  import opened PodPolicy
  import opened PodCache
  import opened PodProtocol

  // ---------------------------------------------------------------- server

  /** The marks of a pod only ever move forward. */
  ghost predicate Follows(p: Pod, q: Pod) {
    && p.name == q.name && p.pool == q.pool && p.templateHash == q.templateHash
    && p.createdAt == q.createdAt
    && (NonEmpty(p.claimed) ==> NonEmpty(q.claimed))
    && (p.terminating ==> q.terminating)
    && (Terminal(p.phase) ==> Terminal(q.phase))
  }

  ghost predicate Logged(sv: Server, pod: Pod) {
    && pod.version.Version? && 0 <= pod.version.n < |sv.log|
    && sv.log[pod.version.n] == Wrote(pod)
  }

  /** Names a pair of positions; quantifiers over pairs are instantiated by
      mentioning it. */
  predicate InOrder(i: int, j: int) {
    0 <= i <= j
  }

  ghost predicate LogOk(log: seq<Record>) {
    && (forall i :: 0 <= i < |log| && log[i].Wrote? ==> log[i].pod.version == Version(i))
    && (forall i, j {:trigger InOrder(i, j)} | InOrder(i, j) && j < |log| && log[i].Wrote? && log[j].Wrote? ::
          log[i].pod.name == log[j].pod.name ==> Follows(log[i].pod, log[j].pod))
    && (forall i, j {:trigger InOrder(i, j)} | InOrder(i, j) && j < |log| && log[i].Removed? && log[j].Wrote? ::
          log[i].name != log[j].pod.name)
  }

  ghost predicate ServerOk(sv: Server) {
    && LogOk(sv.log)
    && (forall n :: n in sv.pods ==> sv.pods[n].name == n && Logged(sv, sv.pods[n]))
    && (forall i :: 0 <= i < |sv.log| && sv.log[i].Wrote? ==>
          var n := sv.log[i].pod.name;
          if n in sv.pods then i <= sv.pods[n].version.n else Removed(n) in sv.log)
    && (forall i :: 0 <= i < |sv.log| && sv.log[i].Removed? ==> sv.log[i].name !in sv.pods)
  }

  /** `sv'` continues `sv`: records stay, marks stay, and a name that was used
      and is gone stays gone. */
  ghost predicate Extends(sv: Server, sv': Server) {
    && sv.log <= sv'.log
    && (forall n :: n in sv.pods && n in sv'.pods ==> Follows(sv.pods[n], sv'.pods[n]))
    && (forall n :: n in sv'.pods && n !in sv.pods ==> FreshName(sv, n))
  }

  /** The pod is marked for deletion, or gone for good. */
  ghost predicate OnTheWayOut(sv: Server, name: string) {
    name in sv.pods ==> sv.pods[name].terminating
  }

  ghost predicate Known(sv: Server, name: string) {
    exists i :: 0 <= i < |sv.log| && sv.log[i].Wrote? && sv.log[i].pod.name == name
  }

  // ---------------------------------------------------------------- caches

  /** Equal in everything but the runtime fields. */
  ghost predicate SameMarks(p: PodState, q: PodState) {
    p.(ip := q.ip, phase := q.phase, ready := q.ready) == q
  }

  /** A cache entry names one server version: its marks and its version occurred
      together, and an unclaimed entry is that version word for word. */
  ghost predicate EntryOk(sv: Server, n: string, e: PodState) {
    && e.name == n && e.version.Version? && 0 <= e.version.n < |sv.log|
    && sv.log[e.version.n].Wrote?
    && sv.log[e.version.n].pod.name == n
    && SameMarks(e, StateOf(sv.log[e.version.n].pod))
    && (!e.claimed ==> e == StateOf(sv.log[e.version.n].pod))
  }

  /** The entry is behind the first `cursor` records of its pod. */
  ghost predicate Late(log: seq<Record>, cache: Cache, cursor: nat, n: string) {
    n in cache && cache[n].version.Version? && Later(log, n, cache[n].version.n, cursor)
  }

  /** There is no entry although the first `cursor` records leave the pod there. */
  ghost predicate Missing(log: seq<Record>, cache: Cache, cursor: nat, n: string) {
    n !in cache && Present(log, n, cursor)
  }

  /** The two histories name exactly the entries that are behind and missing. */
  ghost predicate Tracks(log: seq<Record>, cache: Cache, cursor: nat, late: set<string>, lost: set<string>) {
    && cursor <= |log|
    && (forall n :: n in late <==> Late(log, cache, cursor, n))
    && (forall n :: n in lost <==> Missing(log, cache, cursor, n))
  }

  ghost predicate EntriesOk(sv: Server, cache: Cache) {
    forall n :: n in cache ==> EntryOk(sv, n, cache[n])
  }

  ghost predicate FeedOk(sv: Server, feed: Feed) {
    feed.Listed? ==> EntriesOk(sv, feed.snapshot) && Tracks(sv.log, feed.snapshot, feed.at, {}, {})
  }

  ghost predicate ReplicaOk(sv: Server, rep: Replica) {
    && EntriesOk(sv, View(rep.cache))
    && FeedOk(sv, rep.feed)
    && Tracks(sv.log, View(rep.cache), rep.cursor, rep.late, rep.lost)
    && (forall n :: n in rep.lost ==> OnTheWayOut(sv, n))
  }

  // ---------------------------------------------------------------- requests

  ghost predicate HasClaim(journal: seq<Act>, id: nat, name: string) {
    exists k :: 0 <= k < |journal| && journal[k].Claimed? && journal[k].op == id
                && journal[k].pod.name == name
  }

  ghost predicate KindOk(kind: Kind, st: PodState) {
    if kind.Claim? then Candidate(kind.cfg, kind.pool, st) else st.claimed
  }

  /** The reason a sweep names still describes the listed pod. */
  ghost predicate Justified(cause: Cause, st: PodState, now: Time) {
    match cause
    case ByRelease => st.claimed
    case BySweep(Terminated) => Terminal(st.phase)
    case BySweep(ExpiredLease) => st.claimed && now > st.leaseExpires
    case BySweep(_) => !st.claimed
  }

  ghost predicate ListedAs(sv: Server, st: PodState) {
    && EntryOk(sv, st.name, st)
    && st == StateOf(sv.log[st.version.n].pod)
  }

  ghost predicate OpOk(sv: Server, clock: Time, journal: seq<Act>, id: nat, op: Op) {
    match op
    case Chosen(r, kind, st, lease, at) =>
      EntryOk(sv, st.name, st) && KindOk(kind, st) && at <= clock
    case Patching(r, kind, st, lease, now, before) =>
      && EntryOk(sv, st.name, st) && KindOk(kind, st) && now <= clock
      && (before.Some? ==> EntryOk(sv, st.name, before.value.state))
    case Patched(r, kind, before, reply) =>
      && Logged(sv, reply) && NonEmpty(reply.claimed)
      && (before.Some? ==> EntryOk(sv, reply.name, before.value.state)
                           && before.value.state.version.n <= reply.version.n)
      && (kind.Claim? ==> HasClaim(journal, id, reply.name))
    case Sweeping(r, st) => ListedAs(sv, st)
    case Deleting(r, st, cause, now) =>
      && EntryOk(sv, st.name, st) && now <= clock
      && (cause.BySweep? ==> ListedAs(sv, st))
      && Justified(cause, st, now)
    case Deleted(r, st, cause, outcome) =>
      && EntryOk(sv, st.name, st)
      && (outcome == Accepted ==> OnTheWayOut(sv, st.name))
      && (outcome == NotFound ==> st.name !in sv.pods)
      && (outcome == Conflict ==> cause.BySweep?)
    case Refreshing(r, name) => Known(sv, name)
    case Refreshed(r, name, found) =>
      && Known(sv, name)
      && (found.Some? ==> Logged(sv, found.value) && found.value.name == name)
      && (found.None? ==> name !in sv.pods)
    case Creating(r, pool) => true
    case Created(r, pod) => Logged(sv, pod)
  }

  // ---------------------------------------------------------------- history

  function GrantDeadline(act: Act, name: string): Option<int> {
    match act
    case Claimed(op, cfg, pool, pod, now, lease, deadline, version) =>
      if pod.name == name then Some(deadline) else None
    case Renewed(pod, now, lease, deadline) => if pod.name == name then Some(deadline) else None
    case _ => None
  }

  /** The deadline, in seconds, of the last accepted claim or renewal of a pod. */
  function LastDeadline(journal: seq<Act>, name: string): Option<int> {
    if journal == [] then None
    else
      var last := GrantDeadline(journal[|journal| - 1], name);
      if last.Some? then last else LastDeadline(journal[..|journal| - 1], name)
  }

  /** Formatting loses less than a second of the requested lease. */
  ghost predicate DeadlineOk(now: Time, lease: Time, deadline: int) {
    deadline * SECOND <= now + lease < deadline * SECOND + SECOND
  }

  ghost predicate ActOk(sv: Server, past: seq<Act>, act: Act) {
    match act
    case Claimed(op, cfg, pool, pod, now, lease, deadline, version) =>
      && Candidate(cfg, pool, StateOf(pod))
      && DeadlineOk(now, lease, deadline)
      && 0 <= version < |sv.log| && sv.log[version].Wrote?
      && sv.log[version].pod.name == pod.name && NonEmpty(sv.log[version].pod.claimed)
    case Renewed(pod, now, lease, deadline) =>
      NonEmpty(pod.claimed) && DeadlineOk(now, lease, deadline)
    case Doomed(cause, pod, clock) =>
      && Justified(cause, StateOf(pod), clock)
      && (NonEmpty(pod.claimed) ==> LeaseRecorded(past, pod))
    case Returned(op, name) => HasClaim(past, op, name)
  }

  /** The stored lease of a claimed pod is the last one granted. */
  ghost predicate LeaseRecorded(journal: seq<Act>, pod: Pod) {
    var d := LastDeadline(journal, pod.name);
    d.Some? && pod.lease == Stamp(d.value)
  }

  ghost predicate LeasesOk(sv: Server, journal: seq<Act>) {
    forall n :: n in sv.pods && NonEmpty(sv.pods[n].claimed) ==> LeaseRecorded(journal, sv.pods[n])
  }

  ghost predicate PastOk(sv: Server, ops: map<nat, Op>, next: nat, journal: seq<Act>) {
    && (forall i :: 0 <= i < |journal| ==> ActOk(sv, journal[..i], journal[i]))
    && (forall i, j {:trigger InOrder(i, j)}
          | InOrder(i, j) && i < j < |journal| && journal[i].Claimed? && journal[j].Claimed? ::
          journal[i].pod.name != journal[j].pod.name)
    && (forall i, j {:trigger InOrder(i, j)}
          | InOrder(i, j) && i < j < |journal| && journal[i].Claimed? && journal[j].Doomed? ::
          journal[i].pod.name == journal[j].pod.name ==> NonEmpty(journal[j].pod.claimed))
    && (forall i, j {:trigger InOrder(i, j)}
          | InOrder(i, j) && i < j < |journal| && journal[i].Returned? && journal[j].Returned? ::
          journal[i].name != journal[j].name)
    && (forall i :: 0 <= i < |journal| && journal[i].Returned? ==>
          journal[i].op !in ops && journal[i].op < next)
  }

  ghost predicate ReplicasOk(sv: Server, replicas: map<nat, Replica>) {
    forall r :: r in replicas ==> ReplicaOk(sv, replicas[r])
  }

  ghost predicate OpsOk(s: Sys) {
    forall id :: id in s.ops ==>
      id < s.next && OpOk(s.server, s.clock, s.journal, id, s.ops[id])
  }

  ghost predicate Inv(s: Sys) {
    && ServerOk(s.server)
    && ReplicasOk(s.server, s.replicas)
    && OpsOk(s)
    && PastOk(s.server, s.ops, s.next, s.journal)
    && LeasesOk(s.server, s.journal)
  }

  // ------------------------------------------------- the server moves forward

  lemma LogGrows(log: seq<Record>, pod: Pod)
    requires LogOk(log) && pod.version == Version(|log|)
    requires Removed(pod.name) !in log
    requires forall i | 0 <= i < |log| && log[i].Wrote? :: log[i].pod.name == pod.name ==> Follows(log[i].pod, pod)
    ensures LogOk(log + [Wrote(pod)])
  {
    var log' := log + [Wrote(pod)];
    forall i | 0 <= i < |log'| && log'[i].Removed? ensures log'[i].name != pod.name {
      assert log[i] in log;
    }
  }

  lemma PutKeeps(sv: Server, pod: Pod)
    requires ServerOk(sv)
    requires if pod.name in sv.pods then Follows(sv.pods[pod.name], pod) else FreshName(sv, pod.name)
    ensures ServerOk(Put(sv, pod)) && Extends(sv, Put(sv, pod))
  {
    var sv' := Put(sv, pod);
    var stored := pod.(version := Version(|sv.log|));
    forall i | 0 <= i < |sv.log| && sv.log[i].Wrote? && sv.log[i].pod.name == pod.name
      ensures Follows(sv.log[i].pod, stored)
    {
      var latest := sv.pods[pod.name];
      assert InOrder(i, latest.version.n);
      assert Follows(sv.log[i].pod, sv.log[latest.version.n].pod);
    }
    LogGrows(sv.log, stored);
    PutKeepsPods(sv, pod);
  }

  lemma PutKeepsPods(sv: Server, pod: Pod)
    requires ServerOk(sv) && LogOk(Put(sv, pod).log)
    requires if pod.name in sv.pods then Follows(sv.pods[pod.name], pod) else FreshName(sv, pod.name)
    ensures ServerOk(Put(sv, pod)) && Extends(sv, Put(sv, pod))
  {
    var sv' := Put(sv, pod);
    assert sv'.log[|sv.log|].Wrote?;
    forall n | n in sv'.pods ensures sv'.pods[n].name == n && Logged(sv', sv'.pods[n]) {
      assert n != pod.name ==> Logged(sv, sv.pods[n]);
    }
    forall i | 0 <= i < |sv'.log| && sv'.log[i].Wrote? && sv'.log[i].pod.name !in sv'.pods
      ensures Removed(sv'.log[i].pod.name) in sv'.log
    {
      assert sv'.log[i] == sv.log[i];
    }
    forall i | 0 <= i < |sv'.log| && sv'.log[i].Removed? ensures sv'.log[i].name !in sv'.pods {
      assert sv'.log[i] == sv.log[i] && sv.log[i] in sv.log;
    }
  }

  lemma EraseKeeps(sv: Server, name: string)
    requires ServerOk(sv) && name in sv.pods
    ensures ServerOk(Erase(sv, name)) && Extends(sv, Erase(sv, name))
  {
    var sv' := Erase(sv, name);
    assert sv'.log[|sv.log|] == Removed(name);
    forall n | Removed(n) in sv.log ensures Removed(n) in sv'.log {
      var i :| 0 <= i < |sv.log| && sv.log[i] == Removed(n);
      assert sv'.log[i] == Removed(n);
    }
  }

  lemma OtherWriteKeeps(sv: Server)
    requires ServerOk(sv)
    ensures var sv' := sv.(log := sv.log + [Unrelated]); ServerOk(sv') && Extends(sv, sv')
  {
    var sv' := sv.(log := sv.log + [Unrelated]);
    forall n | Removed(n) in sv.log ensures Removed(n) in sv'.log {
      var i :| 0 <= i < |sv.log| && sv.log[i] == Removed(n);
      assert sv'.log[i] == Removed(n);
    }
  }

  lemma UsedNamesStay(sv: Server, sv': Server, name: string)
    requires Extends(sv, sv') && Known(sv, name)
    ensures Known(sv', name)
    ensures OnTheWayOut(sv, name) ==> OnTheWayOut(sv', name)
    ensures name !in sv.pods ==> name !in sv'.pods
  {
    var i :| 0 <= i < |sv.log| && sv.log[i].Wrote? && sv.log[i].pod.name == name;
    assert sv'.log[i] == sv.log[i];
  }

  lemma GrowTracks(log: seq<Record>, log': seq<Record>, cache: Cache, cursor: nat, late: set<string>, lost: set<string>)
    requires log <= log' && Tracks(log, cache, cursor, late, lost)
    ensures Tracks(log', cache, cursor, late, lost)
  {
    assert forall i :: 0 <= i < cursor ==> log'[i] == log[i];
    forall n ensures Present(log', n, cursor) <==> Present(log, n, cursor) {}
    forall n, v ensures Later(log', n, v, cursor) <==> Later(log, n, v, cursor) {}
  }

  lemma MissingIsKnown(sv: Server, cache: Cache, cursor: nat, n: string)
    requires Missing(sv.log, cache, cursor, n)
    ensures Known(sv, n)
  {
  }

  lemma GrowReplicas(sv: Server, sv': Server, replicas: map<nat, Replica>)
    requires Extends(sv, sv') && ReplicasOk(sv, replicas)
    ensures ReplicasOk(sv', replicas)
  {
    forall r | r in replicas ensures ReplicaOk(sv', replicas[r]) {
      GrowReplica(sv, sv', replicas[r]);
    }
  }

  lemma GrowReplica(sv: Server, sv': Server, rep: Replica)
    requires Extends(sv, sv') && ReplicaOk(sv, rep)
    ensures ReplicaOk(sv', rep)
  {
    if rep.feed.Listed? {
      GrowTracks(sv.log, sv'.log, rep.feed.snapshot, rep.feed.at, {}, {});
    }
    GrowTracks(sv.log, sv'.log, View(rep.cache), rep.cursor, rep.late, rep.lost);
    forall n | n in rep.lost ensures OnTheWayOut(sv', n) {
      MissingIsKnown(sv, View(rep.cache), rep.cursor, n);
      UsedNamesStay(sv, sv', n);
    }
  }

  lemma GrowOp(sv: Server, sv': Server, clock: Time, clock': Time,
               journal: seq<Act>, journal': seq<Act>, id: nat, op: Op)
    requires Extends(sv, sv') && clock <= clock' && journal <= journal'
    requires OpOk(sv, clock, journal, id, op)
    ensures OpOk(sv', clock', journal', id, op)
  {
    match op
    case Patched(r, kind, before, reply) =>
      if kind.Claim? { GrowClaim(journal, journal', id, reply.name); }
    case Deleted(r, st, cause, outcome) =>
      UsedNamesStay(sv, sv', st.name);
    case Refreshing(r, name) => UsedNamesStay(sv, sv', name);
    case Refreshed(r, name, found) => UsedNamesStay(sv, sv', name);
    case _ =>
  }

  lemma GrowClaim(journal: seq<Act>, journal': seq<Act>, id: nat, name: string)
    requires journal <= journal' && HasClaim(journal, id, name)
    ensures HasClaim(journal', id, name)
  {
    var k :| 0 <= k < |journal| && journal[k].Claimed? && journal[k].op == id && journal[k].pod.name == name;
    assert journal'[k] == journal[k];
  }

  lemma GrowPast(sv: Server, sv': Server, ops: map<nat, Op>, next: nat, journal: seq<Act>)
    requires Extends(sv, sv') && PastOk(sv, ops, next, journal)
    ensures PastOk(sv', ops, next, journal)
  {
    forall i | 0 <= i < |journal| ensures ActOk(sv', journal[..i], journal[i]) {
      assert ActOk(sv, journal[..i], journal[i]);
    }
  }

  lemma ServerMoves(s: Sys, sv': Server)
    requires Inv(s) && ServerOk(sv') && Extends(s.server, sv') && LeasesOk(sv', s.journal)
    ensures Inv(s.(server := sv'))
  {
    GrowReplicas(s.server, sv', s.replicas);
    forall id | id in s.ops ensures OpOk(sv', s.clock, s.journal, id, s.ops[id]) {
      GrowOp(s.server, sv', s.clock, s.clock, s.journal, s.journal, id, s.ops[id]);
    }
    GrowPast(s.server, sv', s.ops, s.next, s.journal);
  }

  // ------------------------------------------------- building blocks of steps

  lemma BeginKeeps(s: Sys, op: Op)
    requires Inv(s) && OpOk(s.server, s.clock, s.journal, s.next, op)
    ensures Inv(Begin(s, op))
  {
  }

  lemma AdvanceKeeps(s: Sys, id: nat, op: Op)
    requires Inv(s) && id in s.ops && OpOk(s.server, s.clock, s.journal, id, op)
    ensures Inv(s.(ops := s.ops[id := op]))
  {
  }

  lemma FinishKeeps(s: Sys, id: nat)
    requires Inv(s)
    ensures Inv(Finish(s, id))
  {
  }

  lemma ReplicaMoves(s: Sys, r: nat, rep: Replica)
    requires Inv(s) && ReplicaOk(s.server, rep)
    ensures Inv(WithReplica(s, r, rep)) && Inv(WithReplica(s, r, rep).(next := s.next + 1))
  {
  }

  lemma SlotsFollowDecision(cache: map<string, Slot>, name: string, d: Decision, id: nat)
    ensures View(ApplySlot(cache, name, d, id)) == Apply(View(cache), name, d)
    ensures EntryState(cache, name) == Find(View(cache), name)
  {
  }

  lemma EntriesStayOk(sv: Server, cache: Cache, name: string, d: Decision)
    requires EntriesOk(sv, cache) && (d.Replace? ==> EntryOk(sv, name, d.state))
    ensures EntriesOk(sv, Apply(cache, name, d))
  {
  }

  lemma OtherEntriesStand(sv: Server, cache: Cache, cursor: nat, name: string, d: Decision, n: string)
    requires n != name
    ensures Late(sv.log, Apply(cache, name, d), cursor, n) <==> Late(sv.log, cache, cursor, n)
    ensures Missing(sv.log, Apply(cache, name, d), cursor, n) <==> Missing(sv.log, cache, cursor, n)
  {
  }

  /** The histories stay exact, whatever is decided. */
  lemma DecisionTracks(sv: Server, rep: Replica, name: string, d: Decision)
    requires ReplicaOk(sv, rep) && (d.Replace? ==> EntryOk(sv, name, d.state))
    ensures Tracks(sv.log, Apply(View(rep.cache), name, d), rep.cursor,
                   LateAfter(rep, sv.log, name, d), LostAfter(rep, sv.log, name, d))
  {
    if !d.Keep? {
      var cache := View(rep.cache);
      forall n
        ensures n in LateAfter(rep, sv.log, name, d) <==> Late(sv.log, Apply(cache, name, d), rep.cursor, n)
        ensures n in LostAfter(rep, sv.log, name, d) <==> Missing(sv.log, Apply(cache, name, d), rep.cursor, n)
      {
        if n != name { OtherEntriesStand(sv, cache, rep.cursor, name, d, n); }
      }
    }
  }

  lemma DecidedReplicaOk(sv: Server, rep: Replica, name: string, d: Decision, id: nat)
    requires ReplicaOk(sv, rep) && (d.Replace? ==> EntryOk(sv, name, d.state)) && (d.Remove? ==> OnTheWayOut(sv, name))
    ensures ReplicaOk(sv, Decided(rep, sv.log, name, d, id))
  {
    SlotsFollowDecision(rep.cache, name, d, id);
    EntriesStayOk(sv, View(rep.cache), name, d);
    DecisionTracks(sv, rep, name, d);
  }

  /** Storing an entry: it must be sound, and a dropped pod on its way out. */
  lemma StoreKeeps(s: Sys, r: nat, name: string, d: Decision)
    requires Inv(s) && r in s.replicas
    requires d.Replace? ==> EntryOk(s.server, name, d.state)
    requires d.Remove? ==> OnTheWayOut(s.server, name)
    ensures Inv(Store(s, r, name, d))
  {
    DecidedReplicaOk(s.server, s.replicas[r], name, d, s.next);
    ReplicaMoves(s, r, Decided(s.replicas[r], s.server.log, name, d, s.next));
  }

  lemma LastDeadlineAppend(journal: seq<Act>, act: Act, name: string)
    ensures LastDeadline(journal + [act], name)
            == if GrantDeadline(act, name).Some? then GrantDeadline(act, name) else LastDeadline(journal, name)
  {
    var longer := journal + [act];
    assert longer[..|longer| - 1] == journal;
  }

  lemma ActAppends(sv: Server, ops: map<nat, Op>, next: nat, journal: seq<Act>, act: Act)
    requires PastOk(sv, ops, next, journal) && ActOk(sv, journal, act)
    requires act.Claimed? ==> forall i | 0 <= i < |journal| && journal[i].Claimed? ::
               journal[i].pod.name != act.pod.name
    requires act.Doomed? ==> forall i | 0 <= i < |journal| && journal[i].Claimed? ::
               journal[i].pod.name == act.pod.name ==> NonEmpty(act.pod.claimed)
    requires act.Returned? ==> act.op !in ops && act.op < next
    requires act.Returned? ==> forall i | 0 <= i < |journal| && journal[i].Returned? :: journal[i].name != act.name
    ensures PastOk(sv, ops, next, journal + [act])
  {
    var longer := journal + [act];
    forall i | 0 <= i < |longer| ensures ActOk(sv, longer[..i], longer[i]) {
      if i < |journal| {
        assert longer[..i] == journal[..i] && ActOk(sv, journal[..i], journal[i]);
      } else {
        assert longer[..i] == journal;
      }
    }
  }

  /** An act that grants nothing leaves every recorded lease as it is. */
  lemma LeasesUntouched(sv: Server, journal: seq<Act>, act: Act)
    requires LeasesOk(sv, journal) && (act.Doomed? || act.Returned?)
    ensures LeasesOk(sv, journal + [act])
  {
    forall n | n in sv.pods && NonEmpty(sv.pods[n].claimed) ensures LeaseRecorded(journal + [act], sv.pods[n]) {
      assert LeaseRecorded(journal, sv.pods[n]);
      LastDeadlineAppend(journal, act, sv.pods[n].name);
    }
  }

  /** Writing a stored pod again with its claim and lease as they are. */
  lemma PutLeases(sv: Server, journal: seq<Act>, pod: Pod)
    requires ServerOk(sv) && LeasesOk(sv, journal)
    requires NonEmpty(pod.claimed) ==> pod.name in sv.pods && pod.claimed == sv.pods[pod.name].claimed
                                       && pod.lease == sv.pods[pod.name].lease
    ensures LeasesOk(Put(sv, pod), journal)
  {
    var sv' := Put(sv, pod);
    forall n | n in sv'.pods && NonEmpty(sv'.pods[n].claimed) ensures LeaseRecorded(journal, sv'.pods[n]) {
      assert LeaseRecorded(journal, sv.pods[n]);
    }
  }
}
