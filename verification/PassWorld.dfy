/** What a reconcile pass assumes about the rest of the world is what the pod
    protocol guarantees. */
module PassWorld {
  import opened Basics
  import opened PodTypes
  import opened PodProtocol
  import opened PodInvariants
  import opened PodSteps
  import opened PodSafety
  import ApiServer

  /** The server moved on and nothing was added. */
  ghost predicate OnlyAges(sv: Server, sv': Server) {
    Extends(sv, sv') && sv'.pods.Keys <= sv.pods.Keys
  }

  lemma AgingDrifts(sv: Server, sv': Server)
    requires OnlyAges(sv, sv')
    ensures ApiServer.Drifts(sv.pods, sv'.pods)
  {
    forall n | n in sv'.pods ensures ApiServer.Ages(sv.pods[n], sv'.pods[n]) {
      assert Follows(sv.pods[n], sv'.pods[n]);
    }
  }

  lemma SameAges(sv: Server)
    ensures OnlyAges(sv, sv)
  {
  }

  lemma PatchAges(s: Sys, id: nat)
    requires Inv(s) && id in s.ops && s.ops[id].Patching?
    ensures OnlyAges(s.server, NextServePatch(s, id).server)
  {
    if PatchAccepted(s.server, s.ops[id]) {
      PatchedPodWas(s, id);
      AcceptedPatchMoves(s.server, s.ops[id]);
    } else {
      SameAges(s.server);
    }
  }

  lemma DeleteAges(s: Sys, id: nat, immediate: bool)
    requires Inv(s) && id in s.ops && s.ops[id].Deleting?
    ensures OnlyAges(s.server, NextServeDelete(s, id, immediate).server)
  {
    var name := s.ops[id].st.name;
    if DeleteOutcome(s.server, s.ops[id]) != Accepted || s.server.pods[name].terminating {
      SameAges(s.server);
    } else {
      AcceptedDeleteMoves(s.server, s.journal, name, immediate);
    }
  }

  lemma PutAges(sv: Server, pod: Pod)
    requires ServerOk(sv) && pod.name in sv.pods && Follows(sv.pods[pod.name], pod)
    ensures OnlyAges(sv, Put(sv, pod))
  {
    PutKeeps(sv, pod);
  }

  lemma EnvironmentAges(s: Sys, step: Step)
    requires Inv(s) && Enabled(s, step) && OfEnvironment(step)
    ensures OnlyAges(s.server, Next(s, step).server)
  {
    match step
    case Tick(to) => SameAges(s.server);
    case StatusUpdate(name, ip, phase, conditions) =>
      PutAges(s.server, s.server.pods[name].(ip := ip, phase := phase, conditions := conditions));
    case Evict(name) => PutAges(s.server, s.server.pods[name].(terminating := true));
    case Finalize(name) => EraseKeeps(s.server, name);
    case OtherWrite => OtherWriteKeeps(s.server);
  }

  lemma QuietAges(s: Sys, step: Step)
    requires Enabled(s, step) && !Writes(step)
    ensures OnlyAges(s.server, Next(s, step).server)
  {
    OthersLeaveServer(s, step);
    SameAges(s.server);
  }

  lemma ServedPatchAges(s: Sys, id: nat)
    requires Inv(s) && Enabled(s, ServePatch(id))
    ensures OnlyAges(s.server, Next(s, ServePatch(id)).server)
  {
    PatchAges(s, id);
  }

  lemma ServedDeleteAges(s: Sys, id: nat, immediate: bool)
    requires Inv(s) && Enabled(s, ServeDelete(id, immediate))
    ensures OnlyAges(s.server, Next(s, ServeDelete(id, immediate)).server)
  {
    DeleteAges(s, id, immediate);
  }

  lemma StepAges(s: Sys, step: Step, s': Sys)
    requires Inv(s) && Enabled(s, step) && s' == Next(s, step) && !step.ServeCreate?
    ensures OnlyAges(s.server, s'.server)
  {
    if step.ServePatch? {
      ServedPatchAges(s, step.id);
    } else if step.ServeDelete? {
      ServedDeleteAges(s, step.id, step.immediate);
    } else if OfEnvironment(step) {
      EnvironmentAges(s, step);
    } else {
      QuietAges(s, step);
    }
  }

  lemma StepDrifts(s: Sys, step: Step, s': Sys)
    requires Inv(s) && Enabled(s, step) && s' == Next(s, step) && !step.ServeCreate?
    ensures ApiServer.Drifts(s.server.pods, s'.server.pods)
  {
    StepAges(s, step, s');
    AgingDrifts(s.server, s'.server);
  }

  lemma DriftsCompose(a: map<string, Pod>, b: map<string, Pod>, c: map<string, Pod>)
    requires ApiServer.Drifts(a, b) && ApiServer.Drifts(b, c)
    ensures ApiServer.Drifts(a, c)
  {
    forall n | n in c ensures ApiServer.Ages(a[n], c[n]) {
      assert ApiServer.Ages(a[n], b[n]) && ApiServer.Ages(b[n], c[n]);
    }
  }

  ghost predicate DriftsAt(run: seq<Sys>, k: nat) {
    k + 1 < |run| && ApiServer.Drifts(run[k].server.pods, run[k + 1].server.pods)
  }

  lemma {:induction false} DriftsAlong(run: seq<Sys>, i: nat, j: nat)
    requires i <= j < |run| && forall k :: i <= k < j ==> DriftsAt(run, k)
    ensures ApiServer.Drifts(run[i].server.pods, run[j].server.pods)
    decreases j
  {
    if i < j {
      DriftsAlong(run, i, j - 1);
      assert DriftsAt(run, j - 1);
      DriftsCompose(run[i].server.pods, run[j - 1].server.pods, run[j].server.pods);
    }
  }

  lemma RunDriftsAt(run: seq<Sys>, steps: seq<Step>, k: nat)
    requires IsRun(run, steps) && k < |steps| && !steps[k].ServeCreate?
    ensures DriftsAt(run, k)
  {
    RunsKeepInv(run, steps, k);
    StepDrifts(run[k], steps[k], run[k + 1]);
  }

  /** Over any stretch of any run in which nobody creates a pod, whatever else all
      replicas do, the store changes only as a pass assumes of others. */
  lemma OthersOnlyDrift(run: seq<Sys>, steps: seq<Step>, i: nat, j: nat)
    requires IsRun(run, steps) && i <= j < |run|
    requires forall k :: i <= k < j ==> !steps[k].ServeCreate?
    ensures ApiServer.Drifts(run[i].server.pods, run[j].server.pods)
  {
    forall k | i <= k < j ensures DriftsAt(run, k) { RunDriftsAt(run, steps, k); }
    DriftsAlong(run, i, j);
  }

  /** A create the server answers adds exactly one pod, under a name never used
      before, unclaimed, fresh, of the pool's template, and dated within the current
      second. */
  lemma CreatesAreAdmissible(run: seq<Sys>, steps: seq<Step>, k: nat)
    requires IsRun(run, steps) && k < |steps| && steps[k].ServeCreate?
    ensures var name := steps[k].name; var m, m' := run[k].server.pods, run[k + 1].server.pods;
            && name !in m && m'.Keys == m.Keys + {name} && (forall n :: n in m ==> m'[n] == m[n])
            && FreshName(run[k].server, name) && m'[name].name == name
            && (m'[name].phase == Unset || m'[name].phase == Phase.Pending)
            && m'[name].claimed == Absent && !m'[name].terminating
            && m'[name].createdAt > run[k].clock - SECOND
    ensures var op, made := run[k].ops[steps[k].id], run[k + 1].server.pods[steps[k].name];
            made.pool == op.pool && made.templateHash == run[k].replicas[op.r].cfg[op.pool].templateHash
  {
    assert Enabled(run[k], steps[k]) && run[k + 1] == Next(run[k], steps[k]);
  }
}
