/** When a replica's cache agrees with the store: exactly, over every run. */
module PodConvergence {
  import opened PodTypes
  import opened PodCache
  import opened PodProtocol
  import opened PodInvariants
  import opened PodSteps
  import opened PodSafety

  // ---------------------------------------------------------------- the exact condition

  /** The pod is cached if and only if it is stored; a cached entry equals the
      stored pod in all but its runtime fields, an unclaimed one in those too. */
  ghost predicate AgreesAt(cache: Cache, pods: map<string, Pod>, n: string) {
    && (n in cache <==> n in pods)
    && (n in cache ==>
          SameMarks(cache[n], StateOf(pods[n])) && (!cache[n].claimed ==> cache[n] == StateOf(pods[n])))
  }

  predicate Older(v: ResourceVersion, w: ResourceVersion) {
    v.Version? && w.Version? && v.n < w.n
  }

  lemma CaughtUpEntry(sv: Server, cache: Cache, n: string)
    requires ServerOk(sv) && EntriesOk(sv, cache) && n in cache
    ensures Late(sv.log, cache, |sv.log|, n)
            <==> n !in sv.pods || cache[n].version.n < sv.pods[n].version.n
    ensures !Late(sv.log, cache, |sv.log|, n) ==> cache[n].version == sv.pods[n].version
  {
    var v := cache[n].version.n;
    assert EntryOk(sv, n, cache[n]) && sv.log[v].Wrote?;
    if n in sv.pods {
      assert Logged(sv, sv.pods[n]);
      assert v <= sv.pods[n].version.n;
      assert RecordOf(sv.log[sv.pods[n].version.n], n);
    } else {
      var i :| 0 <= i < |sv.log| && sv.log[i] == Removed(n);
      assert if i <= v then InOrder(i, v) else RecordOf(sv.log[i], n);
    }
  }

  lemma CaughtUpAbsence(sv: Server, cache: Cache, n: string)
    requires ServerOk(sv) && n !in cache
    ensures Missing(sv.log, cache, |sv.log|, n) <==> n in sv.pods
  {
    if n in sv.pods {
      assert Logged(sv, sv.pods[n]) && RecordOf(sv.log[sv.pods[n].version.n], n);
    } else {
      forall i | 0 <= i < |sv.log| && RecordOf(sv.log[i], n) ensures Removed(n) in sv.log {}
    }
  }

  /** Once every record is delivered, whatever order answers, lists and events
      came in: the cache agrees with the store on a pod if and only if its name
      is in neither history. A late name's entry is an older version, or of a
      removed pod; a lost name is a stored, terminating pod without an entry. */
  lemma CacheConverges(run: seq<Sys>, steps: seq<Step>, k: nat, r: nat, n: string)
    requires IsRun(run, steps) && k < |run| && r in run[k].replicas
    requires run[k].replicas[r].cursor == |run[k].server.log|
    ensures var rep := run[k].replicas[r]; var cache := View(rep.cache); var pods := run[k].server.pods;
            && (AgreesAt(cache, pods, n) <==> n !in rep.late && n !in rep.lost)
            && (n in rep.late ==> n in cache && (n in pods ==> Older(cache[n].version, pods[n].version)))
            && (n in rep.lost ==> n !in cache && n in pods && pods[n].terminating)
  {
    RunsKeepInv(run, steps, k);
    var sv, rep := run[k].server, run[k].replicas[r];
    var cache := View(rep.cache);
    assert ReplicaOk(sv, rep);
    if n in cache {
      CaughtUpEntry(sv, cache, n);
      assert EntryOk(sv, n, cache[n]);
      if n in sv.pods { assert Logged(sv, sv.pods[n]); }
    } else {
      CaughtUpAbsence(sv, cache, n);
    }
  }

  // ---------------------------------------------------------------- landing answers

  /** What a landing answer decides about one entry of its replica. */
  datatype Landing = Landing(r: nat, name: string, decision: Decision)

  /** A sweep that lost a race lands nothing yet. */
  predicate Lands(s: Sys, step: Step)
    requires Enabled(s, step)
  {
    || step.LandPatch? || step.LandRefresh? || step.LandCreate?
    || (step.LandDelete? && !(s.ops[step.id].cause.BySweep? && s.ops[step.id].outcome == Conflict))
  }

  function LandingOf(s: Sys, step: Step): Landing
    requires Enabled(s, step) && Lands(s, step)
  {
    var op := s.ops[step.id];
    match step
    case LandPatch(id) => Landing(op.r, op.reply.name, PatchDecision(s, id))
    case LandDelete(id) => Landing(op.r, op.st.name, DeleteDecision(s, id))
    case LandRefresh(id) =>
      var current := EntryState(s.replicas[op.r].cache, op.name);
      var d := if op.found.Some? then OnUpsert(current, op.found.value) else OnForget(current, NO_VERSION);
      Landing(op.r, op.name, d)
    case LandCreate(id) => Landing(op.r, op.pod.name, Replace(StateOf(op.pod)))
  }

  /** `after` are the replicas once the answer has landed. */
  predicate Landed(s: Sys, step: Step, after: map<nat, Replica>)
    requires Enabled(s, step) && Lands(s, step)
  {
    var l := LandingOf(s, step);
    l.r in s.replicas && after == s.replicas[l.r := Decided(s.replicas[l.r], s.server.log, l.name, l.decision, s.next)]
  }

  lemma PatchLands(s: Sys, step: Step)
    requires Enabled(s, step) && step.LandPatch?
    ensures Landed(s, step, Next(s, step).replicas) && Next(s, step).server == s.server
  {
  }

  lemma DeleteLands(s: Sys, step: Step)
    requires Enabled(s, step) && Lands(s, step) && step.LandDelete?
    ensures Landed(s, step, Next(s, step).replicas) && Next(s, step).server == s.server
  {
  }

  lemma LandingDecides(s: Sys, step: Step)
    requires Enabled(s, step) && Lands(s, step)
    ensures Landed(s, step, Next(s, step).replicas) && Next(s, step).server == s.server
  {
    if step.LandPatch? {
      PatchLands(s, step);
    } else if step.LandDelete? {
      DeleteLands(s, step);
    }
  }

  /** A list, a fresh start, or the next record of the pod settles its entry. */
  predicate Cleanses(s: Sys, step: Step, r: nat, n: string)
    requires Enabled(s, step)
  {
    || step == ListInstall(r) || step == Restart(r)
    || (step == Deliver(r) && RecordOf(s.server.log[s.replicas[r].cursor], n))
  }

  lemma QuietForReplicas(s: Sys, step: Step)
    requires Enabled(s, step) && !Lands(s, step) && !OfWatch(step)
    ensures Next(s, step).replicas == s.replicas
  {
    if OfEnvironment(step) {
    } else if OfPatch(step) {
    } else if OfDelete(step) {
    } else {
    }
  }

  lemma WatchCleanses(s: Sys, step: Step, r: nat, n: string)
    requires Enabled(s, step) && OfWatch(step) && r in s.replicas
    ensures r in Next(s, step).replicas
    ensures var rep, rep' := s.replicas[r], Next(s, step).replicas[r];
            && (n in rep'.late <==> n in rep.late && !Cleanses(s, step, r, n))
            && (n in rep'.lost <==> n in rep.lost && !Cleanses(s, step, r, n))
  {
    if step == Deliver(r) { assert n in RecordName(s.server.log[s.replicas[r].cursor]) <==> Cleanses(s, step, r, n); }
  }

  /** Steps that land no answer take exactly the names they settle out of the
      histories. */
  lemma OthersOnlyCleanse(s: Sys, step: Step, r: nat, n: string)
    requires Enabled(s, step) && !Lands(s, step) && r in s.replicas
    ensures r in Next(s, step).replicas
    ensures var rep, rep' := s.replicas[r], Next(s, step).replicas[r];
            && (n in rep'.late <==> n in rep.late && !Cleanses(s, step, r, n))
            && (n in rep'.lost <==> n in rep.lost && !Cleanses(s, step, r, n))
  {
    if OfWatch(step) {
      WatchCleanses(s, step, r, n);
    } else {
      QuietForReplicas(s, step);
    }
  }

  predicate SetsBehind(log: seq<Record>, cursor: nat, d: Decision, n: string) {
    d.Replace? && d.state.version.Version? && Later(log, n, d.state.version.n, cursor)
  }

  /** What a landing does to the histories of a replica. */
  lemma LandingHistories(replicas: map<nat, Replica>, log: seq<Record>, l: Landing, id: nat, r: nat, n: string)
    requires l.r in replicas && r in replicas
    ensures var rep := replicas[r];
            var rep' := replicas[l.r := Decided(replicas[l.r], log, l.name, l.decision, id)][r];
            if r == l.r && n == l.name && !l.decision.Keep? then
              && (n in rep'.late <==> SetsBehind(log, rep.cursor, l.decision, n))
              && (n in rep'.lost <==> l.decision.Remove? && Present(log, n, rep.cursor))
            else (n in rep'.late <==> n in rep.late) && (n in rep'.lost <==> n in rep.lost)
  {
  }

  // ---------------------------------------------------------------- what makes an entry late

  /** The answer of a create, or of a refresh of an uncached pod, lands after the
      watch passed a later record of that pod. */
  predicate Rewinds(s: Sys, step: Step, r: nat, n: string)
    requires Enabled(s, step) && r in s.replicas
  {
    var rep := s.replicas[r];
    || (step.LandCreate? && s.ops[step.id].r == r && Behind(s.server.log, n, s.ops[step.id].pod, rep.cursor))
    || (step.LandRefresh? && s.ops[step.id].r == r && n !in rep.cache && s.ops[step.id].found.Some?
        && Behind(s.server.log, n, s.ops[step.id].found.value, rep.cursor))
  }

  predicate Behind(log: seq<Record>, n: string, pod: Pod, cursor: nat) {
    pod.name == n && pod.version.Version? && Later(log, n, pod.version.n, cursor)
  }

  lemma NewerIsNotBehind(sv: Server, rep: Replica, d: Decision, n: string)
    requires ReplicaOk(sv, rep) && n in rep.cache && n !in rep.late
    requires d.Replace? ==> d.state.version.Version? && View(rep.cache)[n].version.n <= d.state.version.n
    ensures !SetsBehind(sv.log, rep.cursor, d, n)
  {
    assert EntryOk(sv, n, View(rep.cache)[n]) && !Late(sv.log, View(rep.cache), rep.cursor, n);
  }

  lemma FetchedBehind(sv: Server, rep: Replica, pod: Pod)
    requires ServerOk(sv) && ReplicaOk(sv, rep) && Logged(sv, pod) && pod.name !in rep.late
    ensures SetsBehind(sv.log, rep.cursor, OnUpsert(EntryState(rep.cache, pod.name), pod), pod.name)
            <==> pod.name !in rep.cache && Behind(sv.log, pod.name, pod, rep.cursor)
  {
    var n := pod.name;
    if n in rep.cache {
      assert EntryOk(sv, n, View(rep.cache)[n]);
      NewerIsNotBehind(sv, rep, OnUpsert(EntryState(rep.cache, n), pod), n);
    }
  }

  /** A landing sets an entry behind exactly when it rewinds it. */
  ghost predicate RewindsExactly(s: Sys, step: Step)
    requires Enabled(s, step) && Lands(s, step)
  {
    var l := LandingOf(s, step);
    l.r in s.replicas
    && (l.name !in s.replicas[l.r].late ==>
          (SetsBehind(s.server.log, s.replicas[l.r].cursor, l.decision, l.name) <==> Rewinds(s, step, l.r, l.name)))
  }

  lemma PatchRewindsExactly(s: Sys, step: Step)
    requires Inv(s) && Enabled(s, step) && step.LandPatch?
    ensures RewindsExactly(s, step)
  {
    var l := LandingOf(s, step);
    if l.name !in s.replicas[l.r].late { PatchSetsNothingBehind(s, step.id); }
  }

  lemma RefreshRewindsExactly(s: Sys, step: Step)
    requires Inv(s) && Enabled(s, step) && step.LandRefresh?
    ensures RewindsExactly(s, step)
  {
    var l := LandingOf(s, step);
    var op := s.ops[step.id];
    assert OpOk(s.server, s.clock, s.journal, step.id, op);
    if l.name !in s.replicas[l.r].late && op.found.Some? {
      FetchedBehind(s.server, s.replicas[l.r], op.found.value);
    }
  }

  lemma LandingRewinds(s: Sys, step: Step)
    requires Inv(s) && Enabled(s, step) && Lands(s, step)
    ensures RewindsExactly(s, step)
  {
    if step.LandPatch? {
      PatchRewindsExactly(s, step);
    } else if step.LandRefresh? {
      RefreshRewindsExactly(s, step);
    }
  }

  lemma PatchSetsNothingBehind(s: Sys, id: nat)
    requires Inv(s) && id in s.ops && s.ops[id].Patched? && s.ops[id].r in s.replicas
    requires s.ops[id].reply.name !in s.replicas[s.ops[id].r].late
    ensures !SetsBehind(s.server.log, s.replicas[s.ops[id].r].cursor, PatchDecision(s, id), s.ops[id].reply.name)
  {
    PatchDecisionOk(s, id);
    if PatchDecision(s, id).Replace? {
      NewerIsNotBehind(s.server, s.replicas[s.ops[id].r], PatchDecision(s, id), s.ops[id].reply.name);
    }
  }

  lemma RewindsItsOwn(s: Sys, step: Step, r: nat, n: string)
    requires Inv(s) && Enabled(s, step) && r in s.replicas && Rewinds(s, step, r, n)
    ensures Lands(s, step) && LandingOf(s, step).r == r && LandingOf(s, step).name == n
  {
  }

  /** An entry becomes late exactly when an answer rewinds it. */
  lemma WhatRewinds(run: seq<Sys>, steps: seq<Step>, k: nat, r: nat, n: string)
    requires IsRun(run, steps) && k < |steps| && r in run[k].replicas && n !in run[k].replicas[r].late
    ensures r in run[k + 1].replicas
    ensures n in run[k + 1].replicas[r].late <==> Rewinds(run[k], steps[k], r, n)
  {
    RunsKeepInv(run, steps, k);
    StepRewinds(run[k], steps[k], r, n);
  }

  lemma LandedRewinds(s: Sys, step: Step, r: nat, n: string, after: map<nat, Replica>)
    requires Inv(s) && Enabled(s, step) && Lands(s, step) && r in s.replicas && n !in s.replicas[r].late
    requires Landed(s, step, after)
    ensures r in after && (n in after[r].late <==> Rewinds(s, step, r, n))
  {
    var l := LandingOf(s, step);
    LandingHistories(s.replicas, s.server.log, l, s.next, r, n);
    if Rewinds(s, step, r, n) { RewindsItsOwn(s, step, r, n); }
    LandingRewinds(s, step);
  }

  lemma StepRewinds(s: Sys, step: Step, r: nat, n: string)
    requires Inv(s) && Enabled(s, step) && r in s.replicas && n !in s.replicas[r].late
    ensures r in Next(s, step).replicas
    ensures n in Next(s, step).replicas[r].late <==> Rewinds(s, step, r, n)
  {
    if Lands(s, step) {
      LandingDecides(s, step);
      LandedRewinds(s, step, r, n, Next(s, step).replicas);
    } else {
      if Rewinds(s, step, r, n) { RewindsItsOwn(s, step, r, n); }
      OthersOnlyCleanse(s, step, r, n);
    }
  }

  // ---------------------------------------------------------------- what makes an entry missing

  /** The answer of a delete drops an entry: a release's always, a sweep's if there
      was no pod, or if it was accepted and the entry has the listed version. */
  predicate DeleteDrops(rep: Replica, op: Op, n: string) {
    && op.Deleted? && op.st.name == n
    && (op.cause == ByRelease
        || (n in rep.cache
            && (op.outcome == NotFound
                || (op.outcome == Accepted
                    && (op.st.version == NO_VERSION || rep.cache[n].state.version == op.st.version)))))
  }

  /** The answer of a delete, or of a refresh that found nothing, drops the entry of a
      pod the watch has not seen removed. */
  predicate Drops(s: Sys, step: Step, r: nat, n: string)
    requires Enabled(s, step) && r in s.replicas
  {
    var rep := s.replicas[r];
    && Present(s.server.log, n, rep.cursor)
    && ((step.LandDelete? && s.ops[step.id].r == r && DeleteDrops(rep, s.ops[step.id], n))
        || (step.LandRefresh? && s.ops[step.id].r == r && s.ops[step.id].name == n
            && s.ops[step.id].found.None? && n in rep.cache))
  }

  /** A landing drops exactly the entries it removes. */
  lemma DropsAreRemovals(s: Sys, step: Step, r: nat, n: string)
    requires Inv(s) && Enabled(s, step) && Lands(s, step) && r in s.replicas
    ensures Drops(s, step, r, n)
            <==> Present(s.server.log, n, s.replicas[r].cursor)
                 && LandingOf(s, step).r == r && LandingOf(s, step).name == n && LandingOf(s, step).decision.Remove?
  {
    LandingRemoves(s, step);
    if step.LandDelete? {
      DeleteRemovals(s, step, r, n);
    } else if step.LandRefresh? {
      RefreshRemovals(s, step, r, n);
    }
  }

  lemma DeleteRemovals(s: Sys, step: Step, r: nat, n: string)
    requires Enabled(s, step) && step.LandDelete? && Lands(s, step) && r in s.replicas
    ensures s.ops[step.id].r == r && DeleteDrops(s.replicas[r], s.ops[step.id], n)
            <==> LandingOf(s, step).r == r && LandingOf(s, step).name == n && LandingOf(s, step).decision.Remove?
  {
  }

  lemma RefreshRemovals(s: Sys, step: Step, r: nat, n: string)
    requires Enabled(s, step) && step.LandRefresh? && r in s.replicas
    ensures s.ops[step.id].r == r && s.ops[step.id].name == n && s.ops[step.id].found.None? && n in s.replicas[r].cache
            <==> LandingOf(s, step).r == r && LandingOf(s, step).name == n && LandingOf(s, step).decision.Remove?
  {
  }

  /** An entry goes missing exactly when an answer drops it. */
  lemma WhatDrops(run: seq<Sys>, steps: seq<Step>, k: nat, r: nat, n: string)
    requires IsRun(run, steps) && k < |steps| && r in run[k].replicas && n !in run[k].replicas[r].lost
    ensures r in run[k + 1].replicas
    ensures n in run[k + 1].replicas[r].lost <==> Drops(run[k], steps[k], r, n)
  {
    RunsKeepInv(run, steps, k);
    StepDrops(run[k], steps[k], r, n);
  }

  lemma LandedDrops(s: Sys, step: Step, r: nat, n: string, after: map<nat, Replica>)
    requires Inv(s) && Enabled(s, step) && Lands(s, step) && r in s.replicas && n !in s.replicas[r].lost
    requires Landed(s, step, after)
    ensures r in after && (n in after[r].lost <==> Drops(s, step, r, n))
  {
    LandingHistories(s.replicas, s.server.log, LandingOf(s, step), s.next, r, n);
    DropsAreRemovals(s, step, r, n);
  }

  /** Only the answers of deletes and refreshes drop entries. */
  lemma LandingRemoves(s: Sys, step: Step)
    requires Inv(s) && Enabled(s, step) && Lands(s, step)
    ensures LandingOf(s, step).decision.Remove? ==> step.LandDelete? || step.LandRefresh?
  {
    if step.LandPatch? { PatchDecisionOk(s, step.id); }
  }

  lemma StepDrops(s: Sys, step: Step, r: nat, n: string)
    requires Inv(s) && Enabled(s, step) && r in s.replicas && n !in s.replicas[r].lost
    ensures r in Next(s, step).replicas
    ensures n in Next(s, step).replicas[r].lost <==> Drops(s, step, r, n)
  {
    if Lands(s, step) {
      LandingDecides(s, step);
      LandedDrops(s, step, r, n, Next(s, step).replicas);
    } else {
      if Drops(s, step, r, n) { DropsLand(s, step, r, n); }
      OthersOnlyCleanse(s, step, r, n);
    }
  }

  /** A record of the pod has still to be delivered. */
  predicate Pending(log: seq<Record>, n: string, cursor: nat) {
    exists i :: cursor <= i < |log| && RecordOf(log[i], n)
  }

  /** The answer of a delete drops an entry after the watch passed the last record
      of the pod: nothing to come puts it back. */
  predicate DropsForGood(s: Sys, step: Step, r: nat, n: string)
    requires Enabled(s, step) && r in s.replicas
  {
    step.LandDelete? && Drops(s, step, r, n) && !Pending(s.server.log, n, s.replicas[r].cursor)
  }

  lemma RemovalIsPending(sv: Server, n: string, cursor: nat)
    requires ServerOk(sv) && n !in sv.pods && Present(sv.log, n, cursor) && cursor <= |sv.log|
    ensures Pending(sv.log, n, cursor)
  {
    var i :| 0 <= i < cursor && i < |sv.log| && RecordOf(sv.log[i], n);
    assert sv.log[i].Wrote? && Removed(n) in sv.log;
    var j :| 0 <= j < |sv.log| && sv.log[j] == Removed(n);
    assert RecordOf(sv.log[j], n);
  }

  /** What a refresh found gone is removed by a record still to come. */
  lemma RefreshDropsArePending(s: Sys, step: Step, r: nat, n: string)
    requires Inv(s) && Enabled(s, step) && step.LandRefresh? && r in s.replicas && Drops(s, step, r, n)
    ensures Pending(s.server.log, n, s.replicas[r].cursor)
  {
    assert OpOk(s.server, s.clock, s.journal, step.id, s.ops[step.id]);
    RemovalIsPending(s.server, n, s.replicas[r].cursor);
  }

  // ---------------------------------------------------------------- what repairs an entry

  /** The landing drops the entry or sets it to a version that is not behind. */
  predicate LandingRepairsLate(l: Landing, log: seq<Record>, cursor: nat, r: nat, n: string) {
    && l.r == r && l.name == n
    && (l.decision.Remove? || (l.decision.Replace? && !SetsBehind(log, cursor, l.decision, n)))
  }

  /** The landing sets the entry. */
  predicate LandingRepairsLost(l: Landing, r: nat, n: string) {
    l.r == r && l.name == n && l.decision.Replace?
  }

  /** A late entry is settled, dropped, or set to a version that is not behind. */
  predicate RepairsLate(s: Sys, step: Step, r: nat, n: string)
    requires Enabled(s, step) && r in s.replicas
  {
    if Lands(s, step) then LandingRepairsLate(LandingOf(s, step), s.server.log, s.replicas[r].cursor, r, n)
    else Cleanses(s, step, r, n)
  }

  /** A missing entry is settled or set. */
  predicate RepairsLost(s: Sys, step: Step, r: nat, n: string)
    requires Enabled(s, step)
  {
    if Lands(s, step) then LandingRepairsLost(LandingOf(s, step), r, n) else Cleanses(s, step, r, n)
  }

  lemma LandingRepairs(replicas: map<nat, Replica>, log: seq<Record>, l: Landing, id: nat, r: nat, n: string)
    requires l.r in replicas && r in replicas && (n in replicas[r].lost ==> Present(log, n, replicas[r].cursor))
    ensures var rep := replicas[r];
            var rep' := replicas[l.r := Decided(replicas[l.r], log, l.name, l.decision, id)][r];
            && (n in rep.late ==> (n !in rep'.late <==> LandingRepairsLate(l, log, rep.cursor, r, n)))
            && (n in rep.lost ==> (n !in rep'.lost <==> LandingRepairsLost(l, r, n)))
  {
    LandingHistories(replicas, log, l, id, r, n);
  }

  lemma LandedRepairs(s: Sys, step: Step, r: nat, n: string, after: map<nat, Replica>)
    requires Inv(s) && Enabled(s, step) && Lands(s, step) && r in s.replicas && Landed(s, step, after)
    ensures r in after
    ensures n in s.replicas[r].late ==> (n !in after[r].late <==> RepairsLate(s, step, r, n))
    ensures n in s.replicas[r].lost ==> (n !in after[r].lost <==> RepairsLost(s, step, r, n))
  {
    if n in s.replicas[r].lost { LostIsPresent(s, r, n); }
    LandingRepairs(s.replicas, s.server.log, LandingOf(s, step), s.next, r, n);
  }

  lemma LostIsPresent(s: Sys, r: nat, n: string)
    requires Inv(s) && r in s.replicas && n in s.replicas[r].lost
    ensures Present(s.server.log, n, s.replicas[r].cursor)
  {
    var rep := s.replicas[r];
    assert ReplicaOk(s.server, rep) && Missing(s.server.log, View(rep.cache), rep.cursor, n);
  }

  lemma StepRepairs(s: Sys, step: Step, r: nat, n: string)
    requires Inv(s) && Enabled(s, step) && r in s.replicas
    ensures r in Next(s, step).replicas
    ensures n in s.replicas[r].late ==> (n !in Next(s, step).replicas[r].late <==> RepairsLate(s, step, r, n))
    ensures n in s.replicas[r].lost ==> (n !in Next(s, step).replicas[r].lost <==> RepairsLost(s, step, r, n))
  {
    if Lands(s, step) {
      LandingDecides(s, step);
      LandedRepairs(s, step, r, n, Next(s, step).replicas);
    } else {
      OthersOnlyCleanse(s, step, r, n);
    }
  }

  /** A late or missing entry stops being so exactly when a step repairs it. */
  lemma WhatRepairs(run: seq<Sys>, steps: seq<Step>, k: nat, r: nat, n: string)
    requires IsRun(run, steps) && k < |steps| && r in run[k].replicas
    ensures r in run[k + 1].replicas
    ensures n in run[k].replicas[r].late ==>
              (n !in run[k + 1].replicas[r].late <==> RepairsLate(run[k], steps[k], r, n))
    ensures n in run[k].replicas[r].lost ==>
              (n !in run[k + 1].replicas[r].lost <==> RepairsLost(run[k], steps[k], r, n))
  {
    RunsKeepInv(run, steps, k);
    StepRepairs(run[k], steps[k], r, n);
  }

  // ---------------------------------------------------------------- whole runs

  predicate RewindsAt(run: seq<Sys>, steps: seq<Step>, j: int, r: nat, n: string) {
    && 0 <= j < |steps| && j < |run| && r in run[j].replicas && Enabled(run[j], steps[j])
    && Rewinds(run[j], steps[j], r, n)
  }

  function RewindMoments(run: seq<Sys>, steps: seq<Step>, r: nat, n: string): set<nat> {
    set j: nat | j < |steps| && RewindsAt(run, steps, j, r, n)
  }

  predicate RepairsLateAt(run: seq<Sys>, steps: seq<Step>, j: int, r: nat, n: string) {
    && 0 <= j < |steps| && j < |run| && r in run[j].replicas && Enabled(run[j], steps[j])
    && RepairsLate(run[j], steps[j], r, n)
  }

  function LateRepairMoments(run: seq<Sys>, steps: seq<Step>, r: nat, n: string): set<nat> {
    set j: nat | j < |steps| && RepairsLateAt(run, steps, j, r, n)
  }

  predicate DropsAt(run: seq<Sys>, steps: seq<Step>, j: int, r: nat, n: string) {
    && 0 <= j < |steps| && j < |run| && r in run[j].replicas && Enabled(run[j], steps[j])
    && Drops(run[j], steps[j], r, n)
  }

  function DropMoments(run: seq<Sys>, steps: seq<Step>, r: nat, n: string): set<nat> {
    set j: nat | j < |steps| && DropsAt(run, steps, j, r, n)
  }

  predicate RepairsLostAt(run: seq<Sys>, steps: seq<Step>, j: int, r: nat, n: string) {
    && 0 <= j < |steps| && j < |run| && r in run[j].replicas && Enabled(run[j], steps[j])
    && RepairsLost(run[j], steps[j], r, n)
  }

  function LostRepairMoments(run: seq<Sys>, steps: seq<Step>, r: nat, n: string): set<nat> {
    set j: nat | j < |steps| && RepairsLostAt(run, steps, j, r, n)
  }

  /** Some moment in `marks` before `k` has no later one in `repairs` before `k`. */
  ghost predicate Outstanding(marks: set<nat>, repairs: set<nat>, k: nat) {
    exists j :: j in marks && j < k && forall i :: j < i < k ==> i !in repairs
  }

  lemma OutstandingExtends(marks: set<nat>, repairs: set<nat>, k: nat)
    ensures Outstanding(marks, repairs, k + 1) <==> k in marks || (Outstanding(marks, repairs, k) && k !in repairs)
  {
    if Outstanding(marks, repairs, k) && k !in repairs {
      var j :| j in marks && j < k && forall i :: j < i < k ==> i !in repairs;
      assert forall i :: j < i < k + 1 ==> i !in repairs;
    }
  }

  /** Some answer rewound the entry and no later step repaired it. */
  ghost predicate RewoundUnrepaired(run: seq<Sys>, steps: seq<Step>, k: nat, r: nat, n: string) {
    Outstanding(RewindMoments(run, steps, r, n), LateRepairMoments(run, steps, r, n), k)
  }

  /** Some answer dropped the entry and no later step repaired that. */
  ghost predicate DroppedUnrepaired(run: seq<Sys>, steps: seq<Step>, k: nat, r: nat, n: string) {
    Outstanding(DropMoments(run, steps, r, n), LostRepairMoments(run, steps, r, n), k)
  }

  lemma LateIsCached(s: Sys, r: nat, n: string)
    requires Inv(s) && r in s.replicas && n in s.replicas[r].late
    ensures n in s.replicas[r].cache
  {
    var rep := s.replicas[r];
    assert ReplicaOk(s.server, rep) && Late(s.server.log, View(rep.cache), rep.cursor, n);
  }

  /** A landing that rewinds an entry leaves it late, whatever it was before. */
  lemma RewindingRepairsNothing(s: Sys, step: Step, r: nat, n: string)
    requires Inv(s) && Enabled(s, step) && r in s.replicas && Rewinds(s, step, r, n) && n in s.replicas[r].late
    ensures !RepairsLate(s, step, r, n)
  {
    LateIsCached(s, r, n);
    RewindsItsOwn(s, step, r, n);
  }

  /** A landing that drops an entry leaves it missing, whatever it was before. */
  lemma DroppingRepairsNothing(s: Sys, step: Step, r: nat, n: string)
    requires Inv(s) && Enabled(s, step) && r in s.replicas && Drops(s, step, r, n)
    ensures !RepairsLost(s, step, r, n)
  {
    DropsLand(s, step, r, n);
    DropsAreRemovals(s, step, r, n);
  }

  lemma DropsLand(s: Sys, step: Step, r: nat, n: string)
    requires Enabled(s, step) && r in s.replicas && Drops(s, step, r, n)
    ensures Lands(s, step)
  {
  }

  /** One step of the first characterisation below. */
  lemma LateMarks(run: seq<Sys>, steps: seq<Step>, k: nat, r: nat, n: string)
    requires IsRun(run, steps) && k < |steps| && r in run[k].replicas
    ensures r in run[k + 1].replicas
    ensures n in run[k + 1].replicas[r].late
            <==> RewindsAt(run, steps, k, r, n)
                 || (n in run[k].replicas[r].late && !RepairsLateAt(run, steps, k, r, n))
  {
    RunsKeepInv(run, steps, k);
    if n !in run[k].replicas[r].late {
      WhatRewinds(run, steps, k, r, n);
    } else {
      WhatRepairs(run, steps, k, r, n);
      if RewindsAt(run, steps, k, r, n) { RewindingRepairsNothing(run[k], steps[k], r, n); }
    }
  }

  /** One step of the second. */
  lemma LostMarks(run: seq<Sys>, steps: seq<Step>, k: nat, r: nat, n: string)
    requires IsRun(run, steps) && k < |steps| && r in run[k].replicas
    ensures r in run[k + 1].replicas
    ensures n in run[k + 1].replicas[r].lost
            <==> DropsAt(run, steps, k, r, n)
                 || (n in run[k].replicas[r].lost && !RepairsLostAt(run, steps, k, r, n))
  {
    RunsKeepInv(run, steps, k);
    if n !in run[k].replicas[r].lost {
      WhatDrops(run, steps, k, r, n);
    } else {
      WhatRepairs(run, steps, k, r, n);
      if DropsAt(run, steps, k, r, n) { DroppingRepairsNothing(run[k], steps[k], r, n); }
    }
  }

  lemma {:induction false} LateTells(run: seq<Sys>, steps: seq<Step>, k: nat, r: nat, n: string)
    requires IsRun(run, steps) && k < |run| && r in run[0].replicas
    ensures r in run[k].replicas
    ensures n in run[k].replicas[r].late <==> RewoundUnrepaired(run, steps, k, r, n)
  {
    if k > 0 {
      LateTells(run, steps, k - 1, r, n);
      LateMarks(run, steps, k - 1, r, n);
      OutstandingExtends(RewindMoments(run, steps, r, n), LateRepairMoments(run, steps, r, n), k - 1);
    }
  }

  lemma {:induction false} LostTells(run: seq<Sys>, steps: seq<Step>, k: nat, r: nat, n: string)
    requires IsRun(run, steps) && k < |run| && r in run[0].replicas
    ensures r in run[k].replicas
    ensures n in run[k].replicas[r].lost <==> DroppedUnrepaired(run, steps, k, r, n)
  {
    if k > 0 {
      LostTells(run, steps, k - 1, r, n);
      LostMarks(run, steps, k - 1, r, n);
      OutstandingExtends(DropMoments(run, steps, r, n), LostRepairMoments(run, steps, r, n), k - 1);
    }
  }

  /** The histories hold exactly what the run did and did not repair. */
  lemma HistoriesTellTheRun(run: seq<Sys>, steps: seq<Step>, k: nat, r: nat, n: string)
    requires IsRun(run, steps) && k < |run| && r in run[0].replicas
    ensures r in run[k].replicas
    ensures n in run[k].replicas[r].late <==> RewoundUnrepaired(run, steps, k, r, n)
    ensures n in run[k].replicas[r].lost <==> DroppedUnrepaired(run, steps, k, r, n)
  {
    LateTells(run, steps, k, r, n);
    LostTells(run, steps, k, r, n);
  }

  /** Over every run: once all records are delivered, cache and store agree on a pod
      if and only if every answer that rewound or dropped its entry was followed by
      a step that repaired it. */
  lemma ConvergesExactly(run: seq<Sys>, steps: seq<Step>, k: nat, r: nat, n: string)
    requires IsRun(run, steps) && k < |run| && r in run[0].replicas
    ensures r in run[k].replicas
    ensures run[k].replicas[r].cursor == |run[k].server.log| ==>
              (AgreesAt(View(run[k].replicas[r].cache), run[k].server.pods, n)
               <==> !RewoundUnrepaired(run, steps, k, r, n) && !DroppedUnrepaired(run, steps, k, r, n))
  {
    HistoriesTellTheRun(run, steps, k, r, n);
    if run[k].replicas[r].cursor == |run[k].server.log| { CacheConverges(run, steps, k, r, n); }
  }

  // ---------------------------------------------------------------- replicas that agree

  ghost predicate NothingRewinds(run: seq<Sys>, steps: seq<Step>, k: nat, r: nat)
    requires IsRun(run, steps) && k <= |steps|
  {
    forall i, n :: 0 <= i < k && r in run[i].replicas ==> !Rewinds(run[i], steps[i], r, n)
  }

  ghost predicate NothingDropsForGood(run: seq<Sys>, steps: seq<Step>, k: nat, r: nat)
    requires IsRun(run, steps) && k <= |steps|
  {
    forall i, n :: 0 <= i < k && r in run[i].replicas ==> !DropsForGood(run[i], steps[i], r, n)
  }

  lemma {:induction false} NothingIsLate(run: seq<Sys>, steps: seq<Step>, k: nat, r: nat)
    requires IsRun(run, steps) && k < |run| && r in run[0].replicas && NothingRewinds(run, steps, k, r)
    ensures r in run[k].replicas && run[k].replicas[r].late == {}
  {
    if k > 0 {
      NothingIsLate(run, steps, k - 1, r);
      forall n ensures n !in run[k].replicas[r].late { WhatRewinds(run, steps, k - 1, r, n); }
      WhatRewinds(run, steps, k - 1, r, "");
    }
  }

  ghost predicate LostPending(s: Sys, r: nat)
    requires r in s.replicas
  {
    forall n :: n in s.replicas[r].lost ==> Pending(s.server.log, n, s.replicas[r].cursor)
  }

  lemma LogOnlyGrows(s: Sys, step: Step)
    requires Enabled(s, step)
    ensures s.server.log <= Next(s, step).server.log
  {
    if !Writes(step) { OthersLeaveServer(s, step); }
  }

  /** A watch moves on by one record; otherwise it stays where it is, unless the
      replica starts from a list or from nothing. */
  lemma CursorMoves(s: Sys, step: Step, r: nat)
    requires Enabled(s, step) && r in s.replicas
    ensures r in Next(s, step).replicas
    ensures var rep, rep' := s.replicas[r], Next(s, step).replicas[r];
            || rep'.lost == {}
            || rep'.cursor == rep.cursor
            || (rep.cursor < |s.server.log| && rep'.cursor == rep.cursor + 1
                && rep'.lost == rep.lost - RecordName(s.server.log[rep.cursor]))
  {
    if Lands(s, step) {
      LandingDecides(s, step);
    } else if OfEnvironment(step) {
    } else if OfWatch(step) {
    } else if OfPatch(step) {
    } else if OfDelete(step) {
    } else {
    }
  }

  lemma StaysPending(log: seq<Record>, log': seq<Record>, n: string, cursor: nat, cursor': nat)
    requires log <= log' && Pending(log, n, cursor)
    requires cursor' == cursor || (cursor < |log| && cursor' == cursor + 1 && !RecordOf(log[cursor], n))
    ensures Pending(log', n, cursor')
  {
    var i :| cursor <= i < |log| && RecordOf(log[i], n);
    assert log'[i] == log[i];
  }

  lemma StepKeepsPending(s: Sys, step: Step, r: nat, n: string)
    requires Inv(s) && Enabled(s, step) && r in s.replicas && LostPending(s, r) && !DropsForGood(s, step, r, n)
    ensures r in Next(s, step).replicas
    ensures var s' := Next(s, step);
            n in s'.replicas[r].lost ==> Pending(s'.server.log, n, s'.replicas[r].cursor)
  {
    CursorMoves(s, step, r);
    LogOnlyGrows(s, step);
    var s' := Next(s, step);
    if n in s'.replicas[r].lost {
      if n !in s.replicas[r].lost {
        StepDrops(s, step, r, n);
        LandingDecides(s, step);
        if step.LandRefresh? { RefreshDropsArePending(s, step, r, n); }
      }
      StaysPending(s.server.log, s'.server.log, n, s.replicas[r].cursor, s'.replicas[r].cursor);
    }
  }

  lemma {:induction false} LostArePending(run: seq<Sys>, steps: seq<Step>, k: nat, r: nat)
    requires IsRun(run, steps) && k < |run| && r in run[0].replicas && NothingDropsForGood(run, steps, k, r)
    ensures r in run[k].replicas && LostPending(run[k], r)
  {
    if k > 0 {
      LostArePending(run, steps, k - 1, r);
      RunsKeepInv(run, steps, k - 1);
      forall n
        ensures r in run[k].replicas
        ensures n in run[k].replicas[r].lost ==> Pending(run[k].server.log, n, run[k].replicas[r].cursor)
      {
        StepKeepsPending(run[k - 1], steps[k - 1], r, n);
      }
      CursorMoves(run[k - 1], steps[k - 1], r);
    }
  }

  /** On a replica where no answer rewinds an entry or drops one for good, the
      delivered cache agrees with the store on every pod, and holds them all. */
  lemma CacheConvergesFully(run: seq<Sys>, steps: seq<Step>, k: nat, r: nat)
    requires IsRun(run, steps) && k < |run| && r in run[0].replicas
    requires NothingRewinds(run, steps, k, r) && NothingDropsForGood(run, steps, k, r)
    ensures r in run[k].replicas
    ensures run[k].replicas[r].cursor == |run[k].server.log| ==>
              var cache := View(run[k].replicas[r].cache);
              cache.Keys == run[k].server.pods.Keys && forall n :: AgreesAt(cache, run[k].server.pods, n)
  {
    NothingIsLate(run, steps, k, r);
    LostArePending(run, steps, k, r);
    if run[k].replicas[r].cursor == |run[k].server.log| {
      var cache := View(run[k].replicas[r].cache);
      forall n ensures AgreesAt(cache, run[k].server.pods, n) {
        CacheConverges(run, steps, k, r, n);
      }
      forall n ensures n in cache.Keys <==> n in run[k].server.pods.Keys {
        assert AgreesAt(cache, run[k].server.pods, n);
      }
    }
  }
}
