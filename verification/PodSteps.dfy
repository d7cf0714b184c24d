/** Every step of the pod protocol keeps the invariant, one lemma per kind of
    step. */
module PodSteps {
  import opened Basics
  import opened PodTypes
  import opened PodPolicy
  import opened PodCache
  import opened PodProtocol
  import opened PodInvariants

  // ---------------------------------------------------------------- environment

  lemma TickKeeps(s: Sys, to: Time)
    requires Inv(s) && s.clock <= to
    ensures Inv(s.(clock := to))
  {
    forall id | id in s.ops ensures OpOk(s.server, to, s.journal, id, s.ops[id]) {
      GrowOp(s.server, s.server, s.clock, to, s.journal, s.journal, id, s.ops[id]);
    }
  }

  /** A write to an existing pod that leaves its lease and claim alone. */
  lemma OutsideWriteKeeps(s: Sys, pod: Pod)
    requires Inv(s) && pod.name in s.server.pods
    requires var cur := s.server.pods[pod.name];
             Follows(cur, pod) && pod.claimed == cur.claimed && pod.lease == cur.lease
    ensures Inv(s.(server := Put(s.server, pod)))
  {
    var sv' := Put(s.server, pod);
    PutKeeps(s.server, pod);
    PutLeases(s.server, s.journal, pod);
    ServerMoves(s, sv');
  }

  lemma FinalizeKeeps(s: Sys, name: string)
    requires Inv(s) && name in s.server.pods
    ensures Inv(s.(server := Erase(s.server, name)))
  {
    EraseKeeps(s.server, name);
    ServerMoves(s, Erase(s.server, name));
  }

  // ---------------------------------------------------------------- list and watch

  /** A snapshot of the store is neither behind nor lacking anything. */
  lemma SnapshotTracks(sv: Server)
    requires ServerOk(sv)
    ensures EntriesOk(sv, StatesOf(sv.pods)) && Tracks(sv.log, StatesOf(sv.pods), |sv.log|, {}, {})
  {
    var snapshot := StatesOf(sv.pods);
    forall n | n in snapshot ensures EntryOk(sv, n, snapshot[n]) && !Late(sv.log, snapshot, |sv.log|, n) {
      assert Logged(sv, sv.pods[n]);
    }
    forall n | n !in snapshot ensures !Present(sv.log, n, |sv.log|) {
      if i :| 0 <= i < |sv.log| && RecordOf(sv.log[i], n) && sv.log[i].Wrote? {
        assert Removed(n) in sv.log;
      }
    }
  }

  lemma ListFetchKeeps(s: Sys, r: nat)
    requires Inv(s) && Enabled(s, ListFetch(r))
    ensures Inv(Next(s, ListFetch(r)))
  {
    SnapshotTracks(s.server);
    ReplicaMoves(s, r, s.replicas[r].(feed := Listed(StatesOf(s.server.pods), |s.server.log|)));
  }

  lemma InstalledReplicaOk(sv: Server, rep: Replica, id: nat)
    requires ReplicaOk(sv, rep) && rep.feed.Listed?
    ensures ReplicaOk(sv, Installed(rep, id))
  {
    assert View(Installed(rep, id).cache) == rep.feed.snapshot;
  }

  lemma ListInstallKeeps(s: Sys, r: nat)
    requires Inv(s) && Enabled(s, ListInstall(r))
    ensures Inv(Next(s, ListInstall(r)))
  {
    InstalledReplicaOk(s.server, s.replicas[r], s.next);
    ReplicaMoves(s, r, Installed(s.replicas[r], s.next));
  }

  /** A record changes nothing about the other pods. */
  lemma OtherPodsAside(log: seq<Record>, cursor: nat, n: string)
    requires cursor < |log| && !RecordOf(log[cursor], n)
    ensures forall v :: Later(log, n, v, cursor + 1) <==> Later(log, n, v, cursor)
    ensures Present(log, n, cursor + 1) <==> Present(log, n, cursor)
  {
  }

  lemma DeliveredTracks(sv: Server, cache: Cache, cursor: nat, late: set<string>, lost: set<string>, name: string,
                        d: Decision)
    requires Tracks(sv.log, cache, cursor, late, lost) && cursor < |sv.log| && EntriesOk(sv, cache)
    requires forall n :: RecordOf(sv.log[cursor], n) <==> n == name
    requires var after := Apply(cache, name, d);
             if sv.log[cursor].Removed? then name !in after
             else name in after && after[name].version.Version? && after[name].version.n >= cursor
    ensures Tracks(sv.log, Apply(cache, name, d), cursor + 1, late - {name}, lost - {name})
  {
    var after := Apply(cache, name, d);
    assert RecordOf(sv.log[cursor], name);
    if sv.log[cursor].Removed? { assert sv.log[cursor] == Removed(name); }
    assert !Late(sv.log, after, cursor + 1, name) && !Missing(sv.log, after, cursor + 1, name);
    forall n | n != name
      ensures n in late <==> Late(sv.log, after, cursor + 1, n)
      ensures n in lost <==> Missing(sv.log, after, cursor + 1, n)
    {
      OtherPodsAside(sv.log, cursor, n);
    }
  }

  lemma DeliveredEntriesOk(sv: Server, rep: Replica, id: nat, name: string, d: Decision)
    requires EntriesOk(sv, View(rep.cache)) && (d.Replace? ==> EntryOk(sv, name, d.state))
    ensures var slots := ApplySlot(rep.cache, name, d, id);
            View(slots) == Apply(View(rep.cache), name, d) && EntriesOk(sv, View(slots))
    ensures EntryState(rep.cache, name) == Find(View(rep.cache), name)
  {
    SlotsFollowDecision(rep.cache, name, d, id);
    EntriesStayOk(sv, View(rep.cache), name, d);
  }

  lemma NothingDelivered(sv: Server, rep: Replica, id: nat)
    requires ReplicaOk(sv, rep) && rep.cursor < |sv.log| && sv.log[rep.cursor] == Unrelated
    ensures ReplicaOk(sv, Delivered(rep, Unrelated, id))
  {
    forall n ensures n in rep.late <==> Late(sv.log, View(rep.cache), rep.cursor + 1, n)
             ensures n in rep.lost <==> Missing(sv.log, View(rep.cache), rep.cursor + 1, n) {
      OtherPodsAside(sv.log, rep.cursor, n);
    }
  }

  lemma WriteIsSound(sv: Server, cache: Cache, cursor: nat, pod: Pod)
    requires LogOk(sv.log) && EntriesOk(sv, cache) && cursor < |sv.log| && sv.log[cursor] == Wrote(pod)
    ensures var d := OnUpsert(Find(cache, pod.name), pod); var after := Apply(cache, pod.name, d);
            && (d.Replace? ==> EntryOk(sv, pod.name, d.state))
            && pod.name in after && after[pod.name].version.Version? && after[pod.name].version.n >= cursor
  {
    assert pod.version == Version(cursor);
    assert pod.name in cache ==> EntryOk(sv, pod.name, cache[pod.name]);
  }

  /** The entry of the pod a record is about follows the record; no other moves. */
  lemma NamedDelivered(sv: Server, rep: Replica, id: nat, name: string, d: Decision)
    requires ReplicaOk(sv, rep) && rep.cursor < |sv.log| && (d.Replace? ==> EntryOk(sv, name, d.state))
    requires forall n :: RecordOf(sv.log[rep.cursor], n) <==> n == name
    requires var after := Apply(View(rep.cache), name, d);
             if sv.log[rep.cursor].Removed? then name !in after
             else name in after && after[name].version.Version? && after[name].version.n >= rep.cursor
    ensures ReplicaOk(sv, rep.(cursor := rep.cursor + 1, late := rep.late - {name}, lost := rep.lost - {name},
                               cache := ApplySlot(rep.cache, name, d, id)))
  {
    DeliveredEntriesOk(sv, rep, id, name, d);
    DeliveredTracks(sv, View(rep.cache), rep.cursor, rep.late, rep.lost, name, d);
  }

  lemma WriteMoves(rep: Replica, id: nat, pod: Pod)
    ensures var d := OnUpsert(Find(View(rep.cache), pod.name), pod);
            Delivered(rep, Wrote(pod), id)
            == rep.(cursor := rep.cursor + 1, late := rep.late - {pod.name}, lost := rep.lost - {pod.name},
                    cache := ApplySlot(rep.cache, pod.name, d, id))
  {
    SlotsFollowDecision(rep.cache, pod.name, Keep, id);
  }

  lemma WriteDelivered(sv: Server, rep: Replica, id: nat, pod: Pod)
    requires ServerOk(sv) && ReplicaOk(sv, rep) && rep.cursor < |sv.log| && sv.log[rep.cursor] == Wrote(pod)
    ensures ReplicaOk(sv, Delivered(rep, Wrote(pod), id))
  {
    WriteMoves(rep, id, pod);
    WriteIsSound(sv, View(rep.cache), rep.cursor, pod);
    NamedDelivered(sv, rep, id, pod.name, OnUpsert(Find(View(rep.cache), pod.name), pod));
  }

  lemma RemovalDelivered(sv: Server, rep: Replica, id: nat, name: string)
    requires ServerOk(sv) && ReplicaOk(sv, rep) && rep.cursor < |sv.log| && sv.log[rep.cursor] == Removed(name)
    ensures ReplicaOk(sv, Delivered(rep, Removed(name), id))
  {
    NamedDelivered(sv, rep, id, name, Remove);
  }

  lemma DeliveredReplicaOk(sv: Server, rep: Replica, id: nat)
    requires ServerOk(sv) && ReplicaOk(sv, rep) && rep.cursor < |sv.log|
    ensures ReplicaOk(sv, Delivered(rep, sv.log[rep.cursor], id))
  {
    match sv.log[rep.cursor]
    case Wrote(pod) => WriteDelivered(sv, rep, id, pod);
    case Removed(name) => RemovalDelivered(sv, rep, id, name);
    case Unrelated => NothingDelivered(sv, rep, id);
  }

  lemma DeliverKeeps(s: Sys, r: nat)
    requires Inv(s) && Enabled(s, Deliver(r))
    ensures Inv(Next(s, Deliver(r)))
  {
    var rep := s.replicas[r];
    DeliveredReplicaOk(s.server, rep, s.next);
    ReplicaMoves(s, r, Delivered(rep, s.server.log[rep.cursor], s.next));
  }

  lemma BreakWatchKeeps(s: Sys, r: nat)
    requires Inv(s) && Enabled(s, BreakWatch(r))
    ensures Inv(Next(s, BreakWatch(r)))
  {
    ReplicaMoves(s, r, s.replicas[r].(feed := Idle));
  }

  lemma RestartKeeps(s: Sys, r: nat)
    requires Inv(s) && Enabled(s, Restart(r))
    ensures Inv(Next(s, Restart(r)))
  {
    ReplicaMoves(s, r, Fresh(s.replicas[r].cfg));
  }

  // ---------------------------------------------------------------- claims and renewals

  lemma CachedEntryOk(s: Sys, r: nat, name: string)
    requires Inv(s) && r in s.replicas && name in s.replicas[r].cache
    ensures EntryOk(s.server, name, s.replicas[r].cache[name].state)
  {
    assert name in View(s.replicas[r].cache);
    assert ReplicaOk(s.server, s.replicas[r]);
  }

  lemma PickClaimKeeps(s: Sys, r: nat, pool: string, name: string, lease: Time)
    requires Inv(s) && Enabled(s, PickClaim(r, pool, name, lease))
    ensures Inv(Next(s, PickClaim(r, pool, name, lease)))
  {
    CachedEntryOk(s, r, name);
    BeginKeeps(s, Chosen(r, Claim(s.replicas[r].cfg, pool), s.replicas[r].cache[name].state, lease, s.clock));
  }

  lemma PickRenewKeeps(s: Sys, r: nat, name: string, lease: Time)
    requires Inv(s) && Enabled(s, PickRenew(r, name, lease))
    ensures Inv(Next(s, PickRenew(r, name, lease)))
  {
    CachedEntryOk(s, r, name);
    BeginKeeps(s, Chosen(r, Renewal, s.replicas[r].cache[name].state, lease, s.clock));
  }

  lemma SendPatchKeeps(s: Sys, id: nat, now: Time)
    requires Inv(s) && Enabled(s, SendPatch(id, now))
    ensures Inv(Next(s, SendPatch(id, now)))
  {
    var op := s.ops[id];
    var before := Find(s.replicas[op.r].cache, op.st.name);
    if before.Some? { CachedEntryOk(s, op.r, op.st.name); }
    AdvanceKeeps(s, id, Patching(op.r, op.kind, op.st, op.lease, now, before));
  }

  /** An entry of a stored pod is not newer than the pod, and its marks hold. */
  lemma EntryBehindServer(sv: Server, n: string, e: PodState)
    requires ServerOk(sv) && EntryOk(sv, n, e) && n in sv.pods
    ensures e.version.n <= sv.pods[n].version.n
    ensures e.claimed ==> NonEmpty(sv.pods[n].claimed)
    ensures e.deleting ==> sv.pods[n].terminating
    ensures !e.claimed && e.version == sv.pods[n].version ==> e == StateOf(sv.pods[n])
  {
    var i, j := e.version.n, sv.pods[n].version.n;
    assert Logged(sv, sv.pods[n]);
    assert InOrder(i, j);
    assert Follows(sv.log[i].pod, sv.log[j].pod);
  }

  /** Once claimed, a pod stays claimed as long as it exists. */
  lemma ClaimsStay(sv: Server, past: seq<Act>, act: Act)
    requires ServerOk(sv) && act.Claimed? && ActOk(sv, past, act) && act.pod.name in sv.pods
    ensures NonEmpty(sv.pods[act.pod.name].claimed)
  {
    var n := act.pod.name;
    var j := sv.pods[n].version.n;
    assert Logged(sv, sv.pods[n]) && InOrder(act.version, j);
    assert Follows(sv.log[act.version].pod, sv.log[j].pod);
  }

  /** The pod a claim or renewal is accepted on: a claim meets exactly the ready,
      unclaimed pod that was picked; a renewal meets a claimed one. */
  lemma PatchedPodWas(s: Sys, id: nat)
    requires Inv(s) && id in s.ops && s.ops[id].Patching? && PatchAccepted(s.server, s.ops[id])
    ensures PatchMeets(s.server, s.ops[id])
  {
    var op := s.ops[id];
    EntryBehindServer(s.server, op.st.name, op.st);
  }

  lemma ServePatchKeeps(s: Sys, id: nat)
    requires Inv(s) && Enabled(s, ServePatch(id))
    ensures Inv(Next(s, ServePatch(id)))
  {
    var op := s.ops[id];
    if !PatchAccepted(s.server, op) {
      FinishKeeps(s, id);
    } else {
      PatchedPodWas(s, id);
      AcceptedPatchKeeps(s, id);
    }
  }

  /** The requests in flight while one is answered and one act is recorded. */
  lemma OpsFollow(s: Sys, sv': Server, id: nat, op: Op, act: Act)
    requires OpsOk(s) && id in s.ops && Extends(s.server, sv')
    requires OpOk(sv', s.clock, s.journal + [act], id, op)
    ensures OpsOk(s.(server := sv', ops := s.ops[id := op], journal := s.journal + [act]))
  {
    var ops := s.ops[id := op];
    var journal := s.journal + [act];
    forall k | k in ops ensures k < s.next && OpOk(sv', s.clock, journal, k, ops[k]) {
      if k != id { GrowOp(s.server, sv', s.clock, s.clock, s.journal, journal, k, s.ops[k]); }
    }
  }

  lemma PastFollows(s: Sys, sv': Server, id: nat, op: Op, act: Act)
    requires PastOk(s.server, s.ops, s.next, s.journal) && id in s.ops && Extends(s.server, sv')
    requires ActOk(sv', s.journal, act) && !act.Returned?
    requires forall i | 0 <= i < |s.journal| && s.journal[i].Claimed? ::
               (act.Claimed? ==> s.journal[i].pod.name != act.pod.name)
               && (act.Doomed? && s.journal[i].pod.name == act.pod.name ==> NonEmpty(act.pod.claimed))
    ensures PastOk(sv', s.ops[id := op], s.next, s.journal + [act])
  {
    GrowPast(s.server, sv', s.ops, s.next, s.journal);
    ActAppends(sv', s.ops, s.next, s.journal, act);
    assert s.ops[id := op].Keys == s.ops.Keys;
  }

  /** A server write, the answer of one request and one new act together. */
  lemma ServerActs(s: Sys, sv': Server, id: nat, op: Op, act: Act)
    requires Inv(s) && id in s.ops && ServerOk(sv') && Extends(s.server, sv')
    requires OpOk(sv', s.clock, s.journal + [act], id, op)
    requires ActOk(sv', s.journal, act) && !act.Returned?
    requires forall i | 0 <= i < |s.journal| && s.journal[i].Claimed? ::
               (act.Claimed? ==> s.journal[i].pod.name != act.pod.name)
               && (act.Doomed? && s.journal[i].pod.name == act.pod.name ==> NonEmpty(act.pod.claimed))
    requires LeasesOk(sv', s.journal + [act])
    ensures Inv(s.(server := sv', ops := s.ops[id := op], journal := s.journal + [act]))
  {
    GrowReplicas(s.server, sv', s.replicas);
    OpsFollow(s, sv', id, op, act);
    PastFollows(s, sv', id, op, act);
  }

  ghost predicate PatchMeets(sv: Server, op: Op)
    requires op.Patching? && PatchAccepted(sv, op)
  {
    var pod := sv.pods[op.st.name];
    && pod.name == op.st.name
    && (if op.kind.Claim? then Candidate(op.kind.cfg, op.kind.pool, StateOf(pod)) else NonEmpty(pod.claimed))
  }

  lemma PatchMoves(pod: Pod, kind: Kind, now: Time, lease: Time)
    requires kind.Claim? || NonEmpty(pod.claimed)
    ensures var wanted := PatchedPod(pod, kind, now, lease);
            && Follows(pod, wanted) && wanted.name == pod.name && wanted.version == pod.version
            && NonEmpty(wanted.claimed) && wanted.lease == Stamp(FormatSeconds(now + lease))
            && (kind.Claim? && !NonEmpty(pod.claimed) ==> wanted != pod)
  {
  }

  lemma AcceptedPatchMoves(sv: Server, op: Op)
    requires ServerOk(sv) && op.Patching? && PatchAccepted(sv, op) && PatchMeets(sv, op)
    ensures var sv' := ServerAfterPatch(sv, op);
            && ServerOk(sv') && Extends(sv, sv')
            && sv'.pods == sv.pods[op.st.name := sv'.pods[op.st.name]]
            && Logged(sv', sv'.pods[op.st.name])
            && sv.pods[op.st.name].version.n <= sv'.pods[op.st.name].version.n
            && sv'.pods[op.st.name].name == op.st.name
            && NonEmpty(sv'.pods[op.st.name].claimed)
            && sv'.pods[op.st.name].lease == Stamp(FormatSeconds(op.now + op.lease))
            && (op.kind.Claim? ==> |sv.log| < |sv'.log| && sv'.log[|sv.log|] == Wrote(sv'.pods[op.st.name]))
  {
    var pod := sv.pods[op.st.name];
    var wanted := PatchedPod(pod, op.kind, op.now, op.lease);
    PatchMoves(pod, op.kind, op.now, op.lease);
    assert Logged(sv, pod);
    if wanted == pod {
      assert ServerAfterPatch(sv, op) == sv;
    } else {
      assert ServerAfterPatch(sv, op) == Put(sv, wanted);
      PutKeeps(sv, wanted);
    }
  }

  lemma GrantOk(s: Sys, id: nat)
    requires Inv(s) && id in s.ops && s.ops[id].Patching?
    requires PatchAccepted(s.server, s.ops[id]) && PatchMeets(s.server, s.ops[id])
    ensures ActOk(ServerAfterPatch(s.server, s.ops[id]), s.journal, Grant(s.server, id, s.ops[id]))
    ensures s.ops[id].kind.Claim? ==> forall i | 0 <= i < |s.journal| && s.journal[i].Claimed? ::
              s.journal[i].pod.name != s.ops[id].st.name
  {
    var op := s.ops[id];
    AcceptedPatchMoves(s.server, op);
    forall i | 0 <= i < |s.journal| && s.journal[i].Claimed? && op.kind.Claim?
      ensures s.journal[i].pod.name != op.st.name
    {
      if s.journal[i].pod.name == op.st.name { ClaimsStay(s.server, s.journal[..i], s.journal[i]); }
    }
  }

  lemma PatchAnswerOk(sv: Server, clock: Time, journal: seq<Act>, id: nat, op: Op)
    requires ServerOk(sv) && op.Patching? && PatchAccepted(sv, op) && PatchMeets(sv, op)
    requires op.before.Some? ==> EntryOk(sv, op.st.name, op.before.value.state)
    ensures var sv' := ServerAfterPatch(sv, op);
            OpOk(sv', clock, journal + [Grant(sv, id, op)], id,
                 Patched(op.r, op.kind, op.before, sv'.pods[op.st.name]))
  {
    AcceptedPatchMoves(sv, op);
    if op.before.Some? { EntryBehindServer(sv, op.st.name, op.before.value.state); }
    assert (journal + [Grant(sv, id, op)])[|journal|] == Grant(sv, id, op);
  }

  lemma GrantLeasesOk(sv: Server, journal: seq<Act>, id: nat, op: Op)
    requires ServerOk(sv) && op.Patching? && PatchAccepted(sv, op) && PatchMeets(sv, op) && LeasesOk(sv, journal)
    ensures LeasesOk(ServerAfterPatch(sv, op), journal + [Grant(sv, id, op)])
  {
    AcceptedPatchMoves(sv, op);
    GrantedLeases(sv, ServerAfterPatch(sv, op), journal, Grant(sv, id, op), op.st.name);
  }

  lemma AcceptedPatchKeeps(s: Sys, id: nat)
    requires Inv(s) && id in s.ops && s.ops[id].Patching?
    requires PatchAccepted(s.server, s.ops[id]) && PatchMeets(s.server, s.ops[id])
    ensures Inv(NextServePatch(s, id))
  {
    var op := s.ops[id];
    var sv' := ServerAfterPatch(s.server, op);
    var act := Grant(s.server, id, op);
    assert ServerOk(sv') && Extends(s.server, sv') by { AcceptedPatchMoves(s.server, op); }
    GrantOk(s, id);
    PatchAnswerOk(s.server, s.clock, s.journal, id, op);
    assert LeasesOk(sv', s.journal + [act]) by { GrantLeasesOk(s.server, s.journal, id, op); }
    ServerActs(s, sv', id, Patched(op.r, op.kind, op.before, sv'.pods[op.st.name]), act);
  }

  /** A grant records exactly the lease it stores. */
  lemma GrantedLeases(sv: Server, sv': Server, journal: seq<Act>, act: Act, name: string)
    requires LeasesOk(sv, journal) && (act.Claimed? || act.Renewed?) && act.pod.name == name
    requires name in sv'.pods && sv'.pods[name].name == name && sv'.pods[name].lease == Stamp(act.deadline)
    requires forall n | n in sv'.pods && n != name :: n in sv.pods && sv'.pods[n] == sv.pods[n] && sv.pods[n].name == n
    ensures LeasesOk(sv', journal + [act])
  {
    forall n | n in sv'.pods && NonEmpty(sv'.pods[n].claimed) ensures LeaseRecorded(journal + [act], sv'.pods[n]) {
      LastDeadlineAppend(journal, act, n);
      assert n != name ==> LeaseRecorded(journal, sv.pods[n]);
    }
  }

  /** The four-way merge of a patch answer stores only sound entries, and never
      an older version than it found. */
  lemma PatchedDecisionOk(sv: Server, cache: Cache, before: Option<Slot>, untouched: bool, reply: Pod)
    requires ServerOk(sv) && EntriesOk(sv, cache)
    requires Logged(sv, reply) && NonEmpty(reply.claimed)
    requires before.Some? ==> before.value.state.version.Version? && before.value.state.version.n <= reply.version.n
    requires untouched ==> before.Some? && Find(cache, reply.name) == Some(before.value.state)
    ensures var d := OnPatched(Find(cache, reply.name), untouched, StateOf(reply));
            && !d.Remove?
            && (d.Replace? ==>
                  && EntryOk(sv, reply.name, d.state)
                  && reply.name in cache && cache[reply.name].version.n <= d.state.version.n)
  {
    var name := reply.name;
    if name in cache {
      var cur := cache[name];
      assert EntryOk(sv, name, cur);
      var i, j := cur.version.n, reply.version.n;
      assert if i <= j then InOrder(i, j) else InOrder(j, i);
    }
  }

  /** What the answer of a patch does to the cache. */
  function PatchDecision(s: Sys, id: nat): Decision
    requires id in s.ops && s.ops[id].Patched? && s.ops[id].r in s.replicas
  {
    var op := s.ops[id];
    var cache := s.replicas[op.r].cache;
    var untouched := op.before.Some? && Find(cache, op.reply.name) == op.before;
    OnPatched(EntryState(cache, op.reply.name), untouched, StateOf(op.reply))
  }

  lemma PatchDecisionOk(s: Sys, id: nat)
    requires Inv(s) && id in s.ops && s.ops[id].Patched? && s.ops[id].r in s.replicas
    ensures var d, name := PatchDecision(s, id), s.ops[id].reply.name;
            var cache := View(s.replicas[s.ops[id].r].cache);
            && !d.Remove?
            && (d.Replace? ==>
                  EntryOk(s.server, name, d.state) && name in cache && cache[name].version.n <= d.state.version.n)
  {
    var op := s.ops[id];
    var rep := s.replicas[op.r];
    var untouched := op.before.Some? && Find(rep.cache, op.reply.name) == op.before;
    SlotsFollowDecision(rep.cache, op.reply.name, Keep, s.next);
    PatchedDecisionOk(s.server, View(rep.cache), op.before, untouched, op.reply);
  }

  lemma LandPatchKeeps(s: Sys, id: nat)
    requires Inv(s) && Enabled(s, LandPatch(id))
    ensures Inv(Next(s, LandPatch(id)))
  {
    var op := s.ops[id];
    var name, d := op.reply.name, PatchDecision(s, id);
    FinishKeeps(s, id);
    PatchDecisionOk(s, id);
    StoreKeeps(Finish(s, id), op.r, name, d);
    if op.kind.Claim? {
      FirstReturn(s, id, name);
      ActKeeps(Store(Finish(s, id), op.r, name, d), Returned(id, name));
    }
  }

  lemma ActKeeps(s: Sys, act: Act)
    requires Inv(s) && ActOk(s.server, s.journal, act) && act.Returned?
    requires act.op !in s.ops && act.op < s.next
    requires forall i | 0 <= i < |s.journal| && s.journal[i].Returned? :: s.journal[i].name != act.name
    ensures Inv(s.(journal := s.journal + [act]))
  {
    forall k | k in s.ops ensures OpOk(s.server, s.clock, s.journal + [act], k, s.ops[k]) {
      GrowOp(s.server, s.server, s.clock, s.clock, s.journal, s.journal + [act], k, s.ops[k]);
    }
    ActAppends(s.server, s.ops, s.next, s.journal, act);
    LeasesUntouched(s.server, s.journal, act);
  }

  /** A call whose claim is recorded is the first to return that pod. */
  lemma FirstReturn(s: Sys, id: nat, name: string)
    requires Inv(s) && id in s.ops && HasClaim(s.journal, id, name)
    ensures forall i | 0 <= i < |s.journal| && s.journal[i].Returned? :: s.journal[i].name != name
  {
    forall i | 0 <= i < |s.journal| && s.journal[i].Returned? ensures s.journal[i].name != name {
      assert ActOk(s.server, s.journal[..i], s.journal[i]);
      if s.journal[i].name == name { OneClaimPerName(s.journal, s.journal[..i], s.journal[i].op, id, name); }
    }
  }

  lemma OneClaimPerName(journal: seq<Act>, past: seq<Act>, op: nat, id: nat, name: string)
    requires forall i, j {:trigger InOrder(i, j)} | InOrder(i, j) && i < j < |journal|
                           && journal[i].Claimed? && journal[j].Claimed? ::
               journal[i].pod.name != journal[j].pod.name
    requires past <= journal
    requires HasClaim(past, op, name) && HasClaim(journal, id, name)
    ensures op == id
  {
    var i :| 0 <= i < |past| && past[i].Claimed? && past[i].op == op && past[i].pod.name == name;
    var j :| 0 <= j < |journal| && journal[j].Claimed? && journal[j].op == id && journal[j].pod.name == name;
    assert journal[i] == past[i] && (if i <= j then InOrder(i, j) else InOrder(j, i));
  }

  // ---------------------------------------------------------------- deletes

  lemma ServeDeleteKeeps(s: Sys, id: nat, immediate: bool)
    requires Inv(s) && Enabled(s, ServeDelete(id, immediate))
    ensures Inv(Next(s, ServeDelete(id, immediate)))
  {
    var op := s.ops[id];
    var outcome := DeleteOutcome(s.server, op);
    var answer := Deleted(op.r, op.st, op.cause, outcome);
    if outcome != Accepted || s.server.pods[op.st.name].terminating {
      AdvanceKeeps(s, id, answer);
    } else {
      AcceptedDeleteKeeps(s, id, immediate);
    }
  }

  /** The pod an accepted delete dooms: a release names a claimed pod, a sweep
      the very version it was justified on. */
  lemma DoomedPodWas(s: Sys, id: nat)
    requires Inv(s) && id in s.ops && s.ops[id].Deleting? && DeleteOutcome(s.server, s.ops[id]) == Accepted
    ensures var op := s.ops[id]; Justified(op.cause, StateOf(s.server.pods[op.st.name]), s.clock)
  {
    var op := s.ops[id];
    var pod := s.server.pods[op.st.name];
    EntryBehindServer(s.server, op.st.name, op.st);
    assert Logged(s.server, pod);
  }

  lemma AcceptedDeleteMoves(sv: Server, journal: seq<Act>, name: string, immediate: bool)
    requires ServerOk(sv) && name in sv.pods && LeasesOk(sv, journal)
    ensures var sv' := ServerAfterDelete(sv, name, immediate);
            ServerOk(sv') && Extends(sv, sv') && LeasesOk(sv', journal) && OnTheWayOut(sv', name)
  {
    var sv' := ServerAfterDelete(sv, name, immediate);
    if immediate {
      EraseKeeps(sv, name);
    } else {
      PutKeeps(sv, sv.pods[name].(terminating := true));
      PutLeases(sv, journal, sv.pods[name].(terminating := true));
    }
  }

  lemma DoomOk(s: Sys, id: nat)
    requires Inv(s) && id in s.ops && s.ops[id].Deleting? && DeleteOutcome(s.server, s.ops[id]) == Accepted
    ensures var op := s.ops[id]; var pod := s.server.pods[op.st.name];
            ActOk(s.server, s.journal, Doomed(op.cause, pod, s.clock))
    ensures forall i | 0 <= i < |s.journal| && s.journal[i].Claimed? ::
              s.journal[i].pod.name == s.ops[id].st.name ==> NonEmpty(s.server.pods[s.ops[id].st.name].claimed)
  {
    DoomedPodWas(s, id);
    forall i | 0 <= i < |s.journal| && s.journal[i].Claimed? && s.journal[i].pod.name == s.ops[id].st.name
      ensures NonEmpty(s.server.pods[s.ops[id].st.name].claimed)
    {
      ClaimsStay(s.server, s.journal[..i], s.journal[i]);
    }
  }

  lemma AcceptedDeleteKeeps(s: Sys, id: nat, immediate: bool)
    requires Inv(s) && id in s.ops && s.ops[id].Deleting?
    requires DeleteOutcome(s.server, s.ops[id]) == Accepted && !s.server.pods[s.ops[id].st.name].terminating
    ensures Inv(NextServeDelete(s, id, immediate))
  {
    var op := s.ops[id];
    var name := op.st.name;
    var sv' := ServerAfterDelete(s.server, name, immediate);
    var act := Doomed(op.cause, s.server.pods[name], s.clock);
    AcceptedDeleteMoves(s.server, s.journal, name, immediate);
    DoomOk(s, id);
    LeasesUntouched(sv', s.journal, act);
    assert EntryOk(s.server, name, op.st);
    ServerActs(s, sv', id, Deleted(op.r, op.st, op.cause, Accepted), act);
  }

  lemma LandDeleteKeeps(s: Sys, id: nat)
    requires Inv(s) && id in s.ops && s.ops[id].Deleted? && s.ops[id].r in s.replicas
    ensures Inv(NextLandDelete(s, id))
  {
    var op := s.ops[id];
    var name := op.st.name;
    FinishKeeps(s, id);
    if op.cause.BySweep? && op.outcome == Conflict {
      assert Known(s.server, name) by { assert s.server.log[op.st.version.n].Wrote?; }
      AdvanceKeeps(s, id, Refreshing(op.r, name));
    } else {
      StoreKeeps(Finish(s, id), op.r, name, DeleteDecision(s, id));
    }
  }

  lemma FetchedEntryOk(sv: Server, rep: Replica, pod: Pod)
    requires ServerOk(sv) && ReplicaOk(sv, rep) && Logged(sv, pod)
    ensures var d := OnUpsert(EntryState(rep.cache, pod.name), pod);
            !d.Remove? && (d.Replace? ==> EntryOk(sv, pod.name, d.state))
  {
  }

  lemma LandRefreshKeeps(s: Sys, id: nat)
    requires Inv(s) && id in s.ops && s.ops[id].Refreshed? && s.ops[id].r in s.replicas
    ensures Inv(NextLandRefresh(s, id))
  {
    var op := s.ops[id];
    var rep := s.replicas[op.r];
    var current := EntryState(rep.cache, op.name);
    FinishKeeps(s, id);
    match op.found
    case Some(pod) =>
      FetchedEntryOk(s.server, rep, pod);
      StoreKeeps(Finish(s, id), op.r, op.name, OnUpsert(current, pod));
    case None =>
      StoreKeeps(Finish(s, id), op.r, op.name, OnForget(current, NO_VERSION));
  }

  // ---------------------------------------------------------------- creates

  lemma ServeCreateKeeps(s: Sys, id: nat, name: string, phase: Phase)
    requires Inv(s) && id in s.ops && s.ops[id].Creating? && s.ops[id].r in s.replicas
    requires s.ops[id].pool in s.replicas[s.ops[id].r].cfg && FreshName(s.server, name)
    ensures Inv(NextServeCreate(s, id, name, phase))
  {
    var op := s.ops[id];
    var hash := s.replicas[op.r].cfg[op.pool].templateHash;
    var pod := Pod(name, op.pool, hash, "", phase, [], false, Absent, Absent, NO_VERSION,
                   FormatSeconds(s.clock) * SECOND);
    var sv' := Put(s.server, pod);
    PutKeeps(s.server, pod);
    PutLeases(s.server, s.journal, pod);
    ServerMoves(s, sv');
    AdvanceKeeps(s.(server := sv'), id, Created(op.r, sv'.pods[name]));
  }

  lemma LandCreateKeeps(s: Sys, id: nat)
    requires Inv(s) && id in s.ops && s.ops[id].Created? && s.ops[id].r in s.replicas
    ensures Inv(NextLandCreate(s, id))
  {
    var op := s.ops[id];
    FinishKeeps(s, id);
    assert EntryOk(s.server, op.pod.name, StateOf(op.pod));
    StoreKeeps(Finish(s, id), op.r, op.pod.name, Replace(StateOf(op.pod)));
  }

  // ---------------------------------------------------------------- all steps

  predicate OfEnvironment(step: Step) {
    step.Tick? || step.StatusUpdate? || step.Evict? || step.Finalize? || step.OtherWrite?
  }

  predicate OfWatch(step: Step) {
    step.ListFetch? || step.ListInstall? || step.Deliver? || step.BreakWatch? || step.Restart?
  }

  predicate OfPatch(step: Step) {
    step.PickClaim? || step.PickRenew? || step.SendPatch? || step.ServePatch? || step.LandPatch?
  }

  lemma EnvironmentKeeps(s: Sys, step: Step)
    requires Inv(s) && Enabled(s, step) && OfEnvironment(step)
    ensures Inv(Next(s, step))
  {
    match step
    case Tick(to) => TickKeeps(s, to);
    case StatusUpdate(name, ip, phase, conditions) =>
      OutsideWriteKeeps(s, s.server.pods[name].(ip := ip, phase := phase, conditions := conditions));
    case Evict(name) => OutsideWriteKeeps(s, s.server.pods[name].(terminating := true));
    case Finalize(name) => FinalizeKeeps(s, name);
    case OtherWrite =>
      OtherWriteKeeps(s.server);
      ServerMoves(s, s.server.(log := s.server.log + [Unrelated]));
  }

  lemma SeedingKeeps(s: Sys, step: Step)
    requires Inv(s) && Enabled(s, step) && (step.ListFetch? || step.ListInstall? || step.Restart?)
    ensures Inv(Next(s, step))
  {
    match step
    case ListFetch(r) => ListFetchKeeps(s, r);
    case ListInstall(r) => ListInstallKeeps(s, r);
    case Restart(r) => RestartKeeps(s, r);
  }

  lemma WatchKeeps(s: Sys, step: Step)
    requires Inv(s) && Enabled(s, step) && OfWatch(step)
    ensures Inv(Next(s, step))
  {
    if step.Deliver? {
      DeliverKeeps(s, step.r);
    } else if step.BreakWatch? {
      BreakWatchKeeps(s, step.r);
    } else {
      SeedingKeeps(s, step);
    }
  }

  /** A patch up to the moment it is sent. */
  lemma AskingKeeps(s: Sys, step: Step)
    requires Inv(s) && Enabled(s, step) && (step.PickClaim? || step.PickRenew? || step.SendPatch?)
    ensures Inv(Next(s, step))
  {
    match step
    case PickClaim(r, pool, name, lease) => PickClaimKeeps(s, r, pool, name, lease);
    case PickRenew(r, name, lease) => PickRenewKeeps(s, r, name, lease);
    case SendPatch(id, now) => SendPatchKeeps(s, id, now);
  }

  lemma PatchKeeps(s: Sys, step: Step)
    requires Inv(s) && Enabled(s, step) && OfPatch(step)
    ensures Inv(Next(s, step))
  {
    if step.ServePatch? {
      ServePatchKeeps(s, step.id);
    } else if step.LandPatch? {
      LandPatchKeeps(s, step.id);
    } else {
      AskingKeeps(s, step);
    }
  }

  predicate OfDelete(step: Step) {
    step.StartRelease? || step.StartSweep? || step.SendSweep? || step.ServeDelete? || step.LandDelete?
  }

  lemma StartReleaseKeeps(s: Sys, r: nat, name: string)
    requires Inv(s) && Enabled(s, StartRelease(r, name))
    ensures Inv(Next(s, StartRelease(r, name)))
  {
    CachedEntryOk(s, r, name);
    BeginKeeps(s, Deleting(r, s.replicas[r].cache[name].state, ByRelease, s.clock));
  }

  lemma StartSweepKeeps(s: Sys, r: nat, name: string)
    requires Inv(s) && Enabled(s, StartSweep(r, name))
    ensures Inv(Next(s, StartSweep(r, name)))
  {
    assert Logged(s.server, s.server.pods[name]);
    BeginKeeps(s, Sweeping(r, StateOf(s.server.pods[name])));
  }

  lemma FetchRefreshKeeps(s: Sys, id: nat)
    requires Inv(s) && id in s.ops && s.ops[id].Refreshing?
    ensures var op := s.ops[id];
            Inv(s.(ops := s.ops[id := Refreshed(op.r, op.name, Find(s.server.pods, op.name))]))
  {
    var op := s.ops[id];
    assert op.name in s.server.pods ==> Logged(s.server, s.server.pods[op.name]);
    AdvanceKeeps(s, id, Refreshed(op.r, op.name, Find(s.server.pods, op.name)));
  }

  lemma SendSweepKeeps(s: Sys, id: nat, reason: Reason)
    requires Inv(s) && Enabled(s, SendSweep(id, reason))
    ensures Inv(Next(s, SendSweep(id, reason)))
  {
    AdvanceKeeps(s, id, Deleting(s.ops[id].r, s.ops[id].st, BySweep(reason), s.clock));
  }

  /** A delete up to the moment it is sent. */
  lemma DoomingKeeps(s: Sys, step: Step)
    requires Inv(s) && Enabled(s, step) && (step.StartRelease? || step.StartSweep? || step.SendSweep?)
    ensures Inv(Next(s, step))
  {
    match step
    case StartRelease(r, name) => StartReleaseKeeps(s, r, name);
    case StartSweep(r, name) => StartSweepKeeps(s, r, name);
    case SendSweep(id, reason) => SendSweepKeeps(s, id, reason);
  }

  lemma DeleteKeeps(s: Sys, step: Step)
    requires Inv(s) && Enabled(s, step) && OfDelete(step)
    ensures Inv(Next(s, step))
  {
    if step.ServeDelete? {
      ServeDeleteKeeps(s, step.id, step.immediate);
    } else if step.LandDelete? {
      LandDeleteKeeps(s, step.id);
    } else {
      DoomingKeeps(s, step);
    }
  }

  lemma CreateKeeps(s: Sys, step: Step)
    requires Inv(s) && Enabled(s, step)
    requires !OfEnvironment(step) && !OfWatch(step) && !OfPatch(step) && !OfDelete(step)
    ensures Inv(Next(s, step))
  {
    match step
    case FetchRefresh(id) => FetchRefreshKeeps(s, id);
    case LandRefresh(id) => LandRefreshKeeps(s, id);
    case StartCreate(r, pool) => BeginKeeps(s, Creating(r, pool));
    case ServeCreate(id, name, phase) => ServeCreateKeeps(s, id, name, phase);
    case LandCreate(id) => LandCreateKeeps(s, id);
    case Abandon(id) => FinishKeeps(s, id);
    case _ =>
  }

  lemma StepKeeps(s: Sys, step: Step)
    requires Inv(s) && Enabled(s, step)
    ensures Inv(Next(s, step))
  {
    if OfEnvironment(step) {
      EnvironmentKeeps(s, step);
    } else if OfWatch(step) {
      WatchKeeps(s, step);
    } else if OfPatch(step) {
      PatchKeeps(s, step);
    } else if OfDelete(step) {
      DeleteKeeps(s, step);
    } else {
      CreateKeeps(s, step);
    }
  }
}
