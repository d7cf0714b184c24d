/** The main results about the pod protocol, over every run. */
module PodSafety {
  import opened Basics
  import opened PodTypes
  import opened PodProtocol
  import opened PodInvariants
  import opened PodSteps

  // ---------------------------------------------------------------- runs

  /** An empty store and freshly started replicas with any configuration. */
  ghost predicate Initial(s: Sys) {
    && s.server == Server(map[], [])
    && s.ops == map[] && s.journal == []
    && forall r :: r in s.replicas ==> s.replicas[r] == Fresh(s.replicas[r].cfg)
  }

  ghost predicate IsRun(run: seq<Sys>, steps: seq<Step>) {
    && |run| == |steps| + 1
    && Initial(run[0])
    && forall k :: 0 <= k < |steps| ==> Enabled(run[k], steps[k]) && run[k + 1] == Next(run[k], steps[k])
  }

  lemma {:induction false} RunsKeepInv(run: seq<Sys>, steps: seq<Step>, k: nat)
    requires IsRun(run, steps) && k < |run|
    ensures Inv(run[k])
  {
    if k > 0 {
      RunsKeepInv(run, steps, k - 1);
      StepKeeps(run[k - 1], steps[k - 1]);
    }
  }

  // ---------------------------------------------------------------- mutual exclusion

  /** Each pod is claimed at most once, and no two Allocate calls, on whatever
      replicas, ever return the same sandbox. */
  lemma MutualExclusion(run: seq<Sys>, steps: seq<Step>, k: nat, i: nat, j: nat)
    requires IsRun(run, steps) && k < |run| && i < j < |run[k].journal|
    ensures var past := run[k].journal;
            && (past[i].Claimed? && past[j].Claimed? ==> past[i].pod.name != past[j].pod.name)
            && (past[i].Returned? && past[j].Returned? ==> past[i].name != past[j].name)
  {
    RunsKeepInv(run, steps, k);
    assert InOrder(i, j);
  }

  /** What Allocate returns was claimed by that very call, earlier. */
  lemma ReturnedWasClaimed(run: seq<Sys>, steps: seq<Step>, k: nat, j: nat)
    requires IsRun(run, steps) && k < |run| && j < |run[k].journal| && run[k].journal[j].Returned?
    ensures HasClaim(run[k].journal[..j], run[k].journal[j].op, run[k].journal[j].name)
  {
    RunsKeepInv(run, steps, k);
    assert ActOk(run[k].server, run[k].journal[..j], run[k].journal[j]);
  }

  // ---------------------------------------------------------------- claims on stale caches

  ghost predicate ClaimAcceptedAt(s: Sys, step: Step) {
    step.ServePatch? && Enabled(s, step) && s.ops[step.id].kind.Claim? && PatchAccepted(s.server, s.ops[step.id])
  }

  /** However stale the cache it was picked from, a pod is claimed only while the
      server's own copy is ready, unclaimed, not terminating and carries the
      claimer's template hash; its lease falls short by less than a second. */
  lemma ClaimsAreSound(run: seq<Sys>, steps: seq<Step>, k: nat)
    requires IsRun(run, steps) && k < |steps| && ClaimAcceptedAt(run[k], steps[k])
    ensures var op := run[k].ops[steps[k].id];
            var before := run[k].server.pods[op.st.name];
            var after := run[k + 1].server.pods[op.st.name];
            && before.phase == Running && ReadyCondition(before.conditions) && before.ip != ""
            && !before.terminating && !NonEmpty(before.claimed)
            && before.pool == op.kind.pool && before.pool in op.kind.cfg
            && before.templateHash == op.kind.cfg[before.pool].templateHash
            && NonEmpty(after.claimed)
            && LeaseInstant(after.lease) <= op.now + op.lease < LeaseInstant(after.lease) + SECOND
            && after == before.(claimed := after.claimed, lease := after.lease, version := after.version)
  {
    RunsKeepInv(run, steps, k);
    PatchedPodWas(run[k], steps[k].id);
  }

  // ---------------------------------------------------------------- leases

  ghost predicate IsLastGrant(journal: seq<Act>, name: string, i: int) {
    && 0 <= i < |journal| && GrantDeadline(journal[i], name).Some?
    && forall j :: i < j < |journal| ==> GrantDeadline(journal[j], name).None?
  }

  /** The last recorded deadline belongs to the last accepted claim or renewal. */
  lemma {:induction false} LastDeadlineIsLastGrant(journal: seq<Act>, name: string)
    requires LastDeadline(journal, name).Some?
    ensures exists i :: IsLastGrant(journal, name, i) && GrantDeadline(journal[i], name) == LastDeadline(journal, name)
  {
    var n := |journal| - 1;
    if GrantDeadline(journal[n], name).Some? {
      assert IsLastGrant(journal, name, n);
    } else {
      var past := journal[..n];
      LastDeadlineIsLastGrant(past, name);
      var i :| IsLastGrant(past, name, i) && GrantDeadline(past[i], name) == LastDeadline(past, name);
      assert IsLastGrant(journal, name, i);
    }
  }

  /** The clock has passed the deadline of the last accepted claim or renewal,
      which falls short of the time it was asked for plus the lease by less than
      a second. */
  ghost predicate LeaseOver(journal: seq<Act>, name: string, clock: Time) {
    exists i :: IsLastGrant(journal, name, i)
      && clock > journal[i].deadline * SECOND
      && DeadlineOk(journal[i].now, journal[i].lease, journal[i].deadline)
  }

  lemma RecordedLeaseOver(sv: Server, journal: seq<Act>, pod: Pod, clock: Time)
    requires forall i :: 0 <= i < |journal| ==> ActOk(sv, journal[..i], journal[i])
    requires LeaseRecorded(journal, pod) && clock > LeaseInstant(pod.lease)
    ensures LeaseOver(journal, pod.name, clock)
  {
    var n := pod.name;
    LastDeadlineIsLastGrant(journal, n);
    var i :| IsLastGrant(journal, n, i) && GrantDeadline(journal[i], n) == LastDeadline(journal, n);
    assert ActOk(sv, journal[..i], journal[i]);
  }

  /** Why a claimed pod may stop being live between two states of a run. */
  ghost predicate MayEnd(s: Sys, step: Step, name: string)
    requires name in s.server.pods && Enabled(s, step)
  {
    || step == Evict(name)
    || (step.ServeDelete?
        && var op := s.ops[step.id];
           op.st.name == name
           && (op.cause == ByRelease
               || Terminal(s.server.pods[name].phase)
               || LeaseOver(s.journal, name, s.clock)))
  }

  /** Only these steps write to the store at all. */
  predicate Writes(step: Step) {
    step.StatusUpdate? || step.Evict? || step.Finalize? || step.OtherWrite? || step.ServePatch?
    || step.ServeDelete? || step.ServeCreate?
  }

  lemma OthersLeaveServer(s: Sys, step: Step)
    requires Enabled(s, step) && !Writes(step)
    ensures Next(s, step).server == s.server
  {
    if step.LandPatch? || step.LandDelete? || step.LandRefresh? || step.LandCreate? {
    } else if OfWatch(step) {
    } else {
    }
  }

  lemma EnvironmentEnds(s: Sys, step: Step, name: string)
    requires Enabled(s, step) && OfEnvironment(step) && forall n :: n in s.server.pods ==> s.server.pods[n].name == n
    requires name in s.server.pods && !s.server.pods[name].terminating
    requires OnTheWayOut(Next(s, step).server, name)
    ensures step == Evict(name)
  {
  }

  lemma RequestsEnd(s: Sys, step: Step, name: string)
    requires Enabled(s, step) && (step.ServePatch? || step.ServeDelete? || step.ServeCreate?)
    requires forall n :: n in s.server.pods ==> s.server.pods[n].name == n
    requires name in s.server.pods && !s.server.pods[name].terminating
    requires OnTheWayOut(Next(s, step).server, name)
    ensures step.ServeDelete? && s.ops[step.id].st.name == name && DeleteOutcome(s.server, s.ops[step.id]) == Accepted
  {
  }

  /** A live pod is doomed only by an eviction or an accepted delete of it. */
  lemma WhoEndsPods(s: Sys, step: Step, name: string)
    requires Enabled(s, step) && forall n :: n in s.server.pods ==> s.server.pods[n].name == n
    requires name in s.server.pods && !s.server.pods[name].terminating
    requires OnTheWayOut(Next(s, step).server, name)
    ensures step == Evict(name)
            || (step.ServeDelete? && s.ops[step.id].st.name == name
                && DeleteOutcome(s.server, s.ops[step.id]) == Accepted)
  {
    if OfEnvironment(step) {
      EnvironmentEnds(s, step, name);
    } else if Writes(step) {
      RequestsEnd(s, step, name);
    } else {
      OthersLeaveServer(s, step);
    }
  }

  /** A claimed pod stays live until someone outside the controller evicts it,
      Release names it, it has terminated, or the clock has passed the deadline
      of its last accepted claim or renewal. */
  lemma LeaseGuarantee(run: seq<Sys>, steps: seq<Step>, k: nat, name: string)
    requires IsRun(run, steps) && k < |steps|
    requires name in run[k].server.pods
    requires NonEmpty(run[k].server.pods[name].claimed) && !run[k].server.pods[name].terminating
    requires OnTheWayOut(run[k + 1].server, name)
    ensures MayEnd(run[k], steps[k], name)
  {
    var s, step := run[k], steps[k];
    RunsKeepInv(run, steps, k);
    WhoEndsPods(s, step, name);
    if step.ServeDelete? {
      DoomedPodWas(s, step.id);
      if s.clock > LeaseInstant(s.server.pods[name].lease) {
        RecordedLeaseOver(s.server, s.journal, s.server.pods[name], s.clock);
      }
    }
  }

  /** The stored deadline of a pod is earlier after a step than before. */
  ghost predicate MovesBack(s: Sys, s': Sys, name: string) {
    && name in s.server.pods && name in s'.server.pods
    && LeaseInstant(s'.server.pods[name].lease) < LeaseInstant(s.server.pods[name].lease)
  }

  lemma RenewedLease(s: Sys, id: nat)
    requires Inv(s) && id in s.ops && s.ops[id].Patching? && PatchAccepted(s.server, s.ops[id])
    ensures var op := s.ops[id]; var sv' := NextServePatch(s, id).server;
            && op.st.name in sv'.pods
            && LeaseInstant(sv'.pods[op.st.name].lease) == FormatSeconds(op.now + op.lease) * SECOND
            && (NonEmpty(s.server.pods[op.st.name].claimed) ==> op.kind.Renewal?)
  {
    PatchedPodWas(s, id);
    AcceptedPatchMoves(s.server, s.ops[id]);
  }

  /** An accepted renewal moves the deadline back exactly when the time asked for,
      in whole seconds, lies before the stored deadline; claims never do. */
  lemma WhenDeadlinesMoveBack(run: seq<Sys>, steps: seq<Step>, k: nat, name: string)
    requires IsRun(run, steps) && k < |steps| && steps[k].ServePatch? && name == run[k].ops[steps[k].id].st.name
    requires PatchAccepted(run[k].server, run[k].ops[steps[k].id])
    requires NonEmpty(run[k].server.pods[name].claimed)
    ensures var op := run[k].ops[steps[k].id];
            op.kind.Renewal?
            && (MovesBack(run[k], run[k + 1], name)
                <==> FormatSeconds(op.now + op.lease) * SECOND < LeaseInstant(run[k].server.pods[name].lease))
  {
    RunsKeepInv(run, steps, k);
    RenewedLease(run[k], steps[k].id);
  }

  // ---------------------------------------------------------------- cached claims

  ghost predicate WasClaimed(journal: seq<Act>, name: string) {
    exists k :: 0 <= k < |journal| && journal[k].Claimed? && journal[k].pod.name == name
  }

  /** Every claimed version goes back to an accepted claim. */
  ghost predicate LogClaimsOk(log: seq<Record>, journal: seq<Act>) {
    forall i :: 0 <= i < |log| && log[i].Wrote? && NonEmpty(log[i].pod.claimed) ==>
      WasClaimed(journal, log[i].pod.name)
  }

  lemma GrowLogClaims(log: seq<Record>, journal: seq<Act>, journal': seq<Act>)
    requires journal <= journal' && LogClaimsOk(log, journal)
    ensures LogClaimsOk(log, journal')
  {
    forall i | 0 <= i < |log| && log[i].Wrote? && NonEmpty(log[i].pod.claimed)
      ensures WasClaimed(journal', log[i].pod.name)
    {
      var k :| 0 <= k < |journal| && journal[k].Claimed? && journal[k].pod.name == log[i].pod.name;
      assert journal'[k] == journal[k];
    }
  }

  /** A record of a claimed pod: it was claimed before, or is claimed just now. */
  ghost predicate RecordAccounted(s: Sys, s': Sys, record: Record) {
    record.Wrote? && NonEmpty(record.pod.claimed) ==>
      var name := record.pod.name;
      || (name in s.server.pods && NonEmpty(s.server.pods[name].claimed))
      || (exists act :: s'.journal == s.journal + [act] && act.Claimed? && act.pod.name == name)
  }

  /** A step writes at most one record, and accounts for it. */
  lemma StepRecords(s: Sys, step: Step)
    requires Enabled(s, step) && forall n :: n in s.server.pods ==> s.server.pods[n].name == n
    requires step.ServePatch? && PatchAccepted(s.server, s.ops[step.id]) ==> PatchMeets(s.server, s.ops[step.id])
    ensures var s' := Next(s, step);
            && s.journal <= s'.journal
            && (s'.server.log == s.server.log
                || (exists record :: s'.server.log == s.server.log + [record] && RecordAccounted(s, s', record)))
  {
    var s' := Next(s, step);
    if Writes(step) {
      if |s'.server.log| > |s.server.log| {
        var record := s'.server.log[|s.server.log|];
        assert s'.server.log == s.server.log + [record];
        if step.ServePatch? {
          assert s'.journal == s.journal + [s'.journal[|s.journal|]];
        }
      }
    } else {
      OthersLeaveServer(s, step);
    }
  }

  lemma {:induction false} ClaimedVersionsWereClaimed(run: seq<Sys>, steps: seq<Step>, k: nat)
    requires IsRun(run, steps) && k < |run|
    ensures LogClaimsOk(run[k].server.log, run[k].journal)
  {
    if k > 0 {
      var s, step := run[k - 1], steps[k - 1];
      ClaimedVersionsWereClaimed(run, steps, k - 1);
      RunsKeepInv(run, steps, k - 1);
      if step.ServePatch? && PatchAccepted(s.server, s.ops[step.id]) { PatchedPodWas(s, step.id); }
      StepRecords(s, step);
      RecordedClaims(s, run[k]);
    }
  }

  lemma RecordedClaims(s: Sys, s': Sys)
    requires LogClaimsOk(s.server.log, s.journal) && s.journal <= s'.journal
    requires forall n :: n in s.server.pods ==> s.server.pods[n].name == n && Logged(s.server, s.server.pods[n])
    requires s'.server.log == s.server.log
             || (exists record :: s'.server.log == s.server.log + [record] && RecordAccounted(s, s', record))
    ensures LogClaimsOk(s'.server.log, s'.journal)
  {
    GrowLogClaims(s.server.log, s.journal, s'.journal);
    var log := s'.server.log;
    if |log| > |s.server.log| && log[|s.server.log|].Wrote? && NonEmpty(log[|s.server.log|].pod.claimed) {
      var n := log[|s.server.log|].pod.name;
      if n in s.server.pods && NonEmpty(s.server.pods[n].claimed) {
        assert WasClaimed(s'.journal, s.server.log[s.server.pods[n].version.n].pod.name);
      } else {
        assert s'.journal[|s.journal|].Claimed?;
      }
    }
  }

  /** An entry cached as claimed denotes a pod that was claimed, and that is
      still claimed and leased on the server, or gone. */
  lemma CachedClaimIsTrue(run: seq<Sys>, steps: seq<Step>, k: nat, r: nat, name: string)
    requires IsRun(run, steps) && k < |run|
    requires r in run[k].replicas && name in run[k].replicas[r].cache
    requires run[k].replicas[r].cache[name].state.claimed
    ensures WasClaimed(run[k].journal, name)
    ensures name in run[k].server.pods ==>
              NonEmpty(run[k].server.pods[name].claimed) && LeaseRecorded(run[k].journal, run[k].server.pods[name])
  {
    var s := run[k];
    RunsKeepInv(run, steps, k);
    ClaimedVersionsWereClaimed(run, steps, k);
    CachedEntryOk(s, r, name);
    var e := s.replicas[r].cache[name].state;
    assert NonEmpty(s.server.log[e.version.n].pod.claimed);
    if name in s.server.pods {
      EntryBehindServer(s.server, name, e);
      assert LeaseRecorded(s.journal, s.server.pods[name]);
    }
  }

  /** The gate of the agent proxy. */
  predicate ProxyAdmits(st: PodState) {
    !st.deleting && st.claimed && st.ip != ""
  }

  /** Requests are only ever routed to a pod some client claimed. */
  lemma ProxyRoutesToClaimedPods(run: seq<Sys>, steps: seq<Step>, k: nat, r: nat, name: string)
    requires IsRun(run, steps) && k < |run|
    requires r in run[k].replicas && name in run[k].replicas[r].cache
    requires ProxyAdmits(run[k].replicas[r].cache[name].state)
    ensures WasClaimed(run[k].journal, name)
    ensures name in run[k].server.pods ==> NonEmpty(run[k].server.pods[name].claimed)
  {
    CachedClaimIsTrue(run, steps, k, r, name);
  }

  /** Release never deletes a standby pod and Renew never stamps one, even
      though neither sends a precondition. */
  lemma ReleaseAndRenewMeetClaimedPods(run: seq<Sys>, steps: seq<Step>, k: nat)
    requires IsRun(run, steps) && k < |steps|
    ensures steps[k].ServeDelete? && run[k].ops[steps[k].id].cause.ByRelease?
            && run[k].ops[steps[k].id].st.name in run[k].server.pods
            ==> NonEmpty(run[k].server.pods[run[k].ops[steps[k].id].st.name].claimed)
    ensures steps[k].ServePatch? && run[k].ops[steps[k].id].kind.Renewal?
            && run[k].ops[steps[k].id].st.name in run[k].server.pods
            ==> NonEmpty(run[k].server.pods[run[k].ops[steps[k].id].st.name].claimed)
  {
    var s, step := run[k], steps[k];
    RunsKeepInv(run, steps, k);
    if step.ServeDelete? && s.ops[step.id].cause.ByRelease? && s.ops[step.id].st.name in s.server.pods {
      DoomedPodWas(s, step.id);
    }
    if step.ServePatch? && s.ops[step.id].kind.Renewal? && s.ops[step.id].st.name in s.server.pods {
      PatchedPodWas(s, step.id);
    }
  }

  /** Every claimed pod in the store carries the lease granted last. */
  lemma ClaimedPodsAreLeased(run: seq<Sys>, steps: seq<Step>, k: nat, name: string)
    requires IsRun(run, steps) && k < |run| && name in run[k].server.pods
    requires NonEmpty(run[k].server.pods[name].claimed)
    ensures LeaseRecorded(run[k].journal, run[k].server.pods[name])
  {
    RunsKeepInv(run, steps, k);
  }

  // ---------------------------------------------------------------- releases

  /** A delete without a reason of reconcile goes back to a Release of that pod. */
  lemma {:induction false} ReleasesAreAsked(run: seq<Sys>, steps: seq<Step>, k: nat, id: nat)
    requires IsRun(run, steps) && k < |run| && id in run[k].ops
    requires run[k].ops[id].Deleting? && run[k].ops[id].cause == ByRelease
    ensures exists i :: 0 <= i < k && steps[i].StartRelease? && steps[i].name == run[k].ops[id].st.name
  {
    assert k > 0;
    var s, step := run[k - 1], steps[k - 1];
    ReleaseComesFrom(s, step, id);
    if step.StartRelease? && s.next == id {
      CachedName(run, steps, k - 1, step.r, step.name);
    } else {
      ReleasesAreAsked(run, steps, k - 1, id);
    }
  }

  lemma CachedName(run: seq<Sys>, steps: seq<Step>, k: nat, r: nat, name: string)
    requires IsRun(run, steps) && k < |run| && r in run[k].replicas && name in run[k].replicas[r].cache
    ensures run[k].replicas[r].cache[name].state.name == name
  {
    RunsKeepInv(run, steps, k);
    CachedEntryOk(run[k], r, name);
  }

  lemma ReleaseComesFrom(s: Sys, step: Step, id: nat)
    requires Enabled(s, step) && id in Next(s, step).ops
    requires var op := Next(s, step).ops[id]; op.Deleting? && op.cause == ByRelease
    ensures (step.StartRelease? && s.next == id
             && Next(s, step).ops[id].st == s.replicas[step.r].cache[step.name].state)
            || (id in s.ops && s.ops[id] == Next(s, step).ops[id])
  {
    if OfEnvironment(step) {
    } else if OfWatch(step) {
    } else if OfPatch(step) {
    } else if OfDelete(step) {
    } else {
    }
  }

  // ---------------------------------------------------------------- what clients asked for

  /** Step `j` began the patch `id`: a client asked its replica for a pod of a pool, or
      for more time, with this lease, and the cache showed it this state. */
  ghost predicate AskedAt(run: seq<Sys>, steps: seq<Step>, j: int, id: nat, r: nat, kind: Kind, st: PodState,
                          lease: Time)
  {
    && 0 <= j < |steps| && j < |run| && run[j].next == id && r in run[j].replicas && st.name in run[j].replicas[r].cache
    && st == run[j].replicas[r].cache[st.name].state
    && if kind.Claim?
       then kind.cfg == run[j].replicas[r].cfg && steps[j] == PickClaim(r, kind.pool, st.name, lease)
       else steps[j] == PickRenew(r, st.name, lease)
  }

  predicate SentAt(steps: seq<Step>, i: int, id: nat, now: Time) {
    0 <= i < |steps| && steps[i] == SendPatch(id, now)
  }

  /** The patch was begun by a step and, once it is sent, sent by a later one, with
      the clock of that moment. */
  ghost predicate Asked(run: seq<Sys>, steps: seq<Step>, k: nat, id: nat, op: Op)
    requires IsPatch(op)
  {
    exists j :: 0 <= j < k && AskedAt(run, steps, j, id, op.r, op.kind, op.st, op.lease)
      && (op.Patching? ==> exists i :: j < i < k && SentAt(steps, i, id, op.now))
  }

  /** Every patch in flight, be it a claim or a renewal, goes back to what a client
      asked of that replica: the same pod, lease and pool. */
  lemma PatchesAreAsked(run: seq<Sys>, steps: seq<Step>, k: nat, id: nat)
    requires IsRun(run, steps) && k < |run| && id in run[k].ops
    requires IsPatch(run[k].ops[id])
    ensures Asked(run, steps, k, id, run[k].ops[id])
  {
    PatchIsAsked(run, steps, k, id);
  }

  ghost predicate AskedIfPatch(run: seq<Sys>, steps: seq<Step>, k: nat, id: nat)
    requires k < |run|
  {
    id in run[k].ops && IsPatch(run[k].ops[id]) ==> Asked(run, steps, k, id, run[k].ops[id])
  }

  lemma {:induction false} PatchIsAsked(run: seq<Sys>, steps: seq<Step>, k: nat, id: nat)
    requires IsRun(run, steps) && k < |run|
    ensures AskedIfPatch(run, steps, k, id)
  {
    if k > 0 {
      PatchIsAsked(run, steps, k - 1, id);
      AskedNext(run, steps, k, id);
    }
  }

  predicate IsPatch(op: Op) {
    op.Chosen? || op.Patching?
  }

  lemma AskedNext(run: seq<Sys>, steps: seq<Step>, k: nat, id: nat)
    requires IsRun(run, steps) && 0 < k < |run| && AskedIfPatch(run, steps, k - 1, id)
    ensures AskedIfPatch(run, steps, k, id)
  {
    if id !in run[k].ops || !IsPatch(run[k].ops[id]) { return; }
    var s, step, op := run[k - 1], steps[k - 1], run[k].ops[id];
    PatchComesFrom(s, step, id);
    if s.next == id && Picks(s, step, op) {
      NowAsked(run, steps, k - 1, id, op);
    } else {
      StaysAsked(run, steps, k - 1, id, s.ops[id], op);
    }
  }

  lemma StaysAsked(run: seq<Sys>, steps: seq<Step>, k: nat, id: nat, before: Op, op: Op)
    requires IsPatch(before) && IsPatch(op) && k < |steps|
    requires Asked(run, steps, k, id, before)
    requires op == before
             || (before.Chosen? && op.Patching? && steps[k] == SendPatch(id, op.now)
                 && op.r == before.r && op.kind == before.kind && op.st == before.st && op.lease == before.lease)
    ensures Asked(run, steps, k + 1, id, op)
  {
    var j :| 0 <= j < k && AskedAt(run, steps, j, id, before.r, before.kind, before.st, before.lease)
             && (before.Patching? ==> exists i :: j < i < k && SentAt(steps, i, id, before.now));
    if before.Chosen? && op.Patching? { assert SentAt(steps, k, id, op.now); }
  }

  /** The step begins the request `op`. */
  predicate Picks(s: Sys, step: Step, op: Op)
    requires Enabled(s, step)
  {
    || (step.PickClaim?
        && op == Chosen(step.r, Claim(s.replicas[step.r].cfg, step.pool), s.replicas[step.r].cache[step.name].state,
                        step.lease, s.clock))
    || (step.PickRenew?
        && op == Chosen(step.r, Renewal, s.replicas[step.r].cache[step.name].state, step.lease, s.clock))
  }

  lemma PickedName(run: seq<Sys>, steps: seq<Step>, k: nat, op: Op)
    requires IsRun(run, steps) && k < |steps| && Picks(run[k], steps[k], op)
    ensures op.r in run[k].replicas && op.st.name in run[k].replicas[op.r].cache
    ensures op.st == run[k].replicas[op.r].cache[op.st.name].state
    ensures if op.kind.Claim?
            then op.kind.cfg == run[k].replicas[op.r].cfg
                 && steps[k] == PickClaim(op.r, op.kind.pool, op.st.name, op.lease)
            else steps[k] == PickRenew(op.r, op.st.name, op.lease)
  {
    CachedName(run, steps, k, op.r, steps[k].name);
  }

  lemma NowAsked(run: seq<Sys>, steps: seq<Step>, k: nat, id: nat, op: Op)
    requires IsRun(run, steps) && k < |steps| && run[k].next == id && Picks(run[k], steps[k], op)
    ensures Asked(run, steps, k + 1, id, op)
  {
    PickedName(run, steps, k, op);
    assert AskedAt(run, steps, k, id, op.r, op.kind, op.st, op.lease);
  }

  /** A patch in flight after a step was there before, or the step begins or sends it. */
  lemma PatchComesFrom(s: Sys, step: Step, id: nat)
    requires Enabled(s, step) && id in Next(s, step).ops
    requires IsPatch(Next(s, step).ops[id])
    ensures var op := Next(s, step).ops[id];
            || (s.next == id && Picks(s, step, op))
            || (id in s.ops && s.ops[id] == op)
            || (op.Patching? && step == SendPatch(id, op.now) && id in s.ops
                && s.ops[id] == Chosen(op.r, op.kind, op.st, op.lease, s.ops[id].at))
  {
    if OfPatch(step) {
      PatchStepComesFrom(s, step, id);
    } else if OfEnvironment(step) {
    } else if OfWatch(step) {
    } else if OfDelete(step) {
    } else {
    }
  }

  lemma PatchStepComesFrom(s: Sys, step: Step, id: nat)
    requires Enabled(s, step) && OfPatch(step) && id in Next(s, step).ops
    requires IsPatch(Next(s, step).ops[id])
    ensures var op := Next(s, step).ops[id];
            || (s.next == id && Picks(s, step, op))
            || (id in s.ops && s.ops[id] == op)
            || (op.Patching? && step == SendPatch(id, op.now) && id in s.ops
                && s.ops[id] == Chosen(op.r, op.kind, op.st, op.lease, s.ops[id].at))
  {
  }
}
