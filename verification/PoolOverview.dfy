/** The cluster overview: per-pool counts of the pods a replica knows. */
module PoolOverview {
  import opened Basics
  import opened PodTypes
  import opened PodPolicy
  import opened ReconcilePlan
  import opened ApiServer
  import opened Reconcile
  import PodInvariants
  import PodProtocol
  import PodSafety
  import PodConvergence

  datatype Summary = Summary(standby: nat, pending: nat, claimed: nat)

  const NOTHING := Summary(0, 0, 0)

  predicate CountsStandby(p: PodState) {
    !p.deleting && !p.claimed && p.phase == Running && p.ready
  }

  predicate CountsPending(p: PodState) {
    !p.deleting && !p.claimed && !CountsStandby(p) && !Terminal(p.phase)
  }

  predicate CountsClaimed(p: PodState) {
    !p.deleting && p.claimed
  }

  /** `sum` with one more pod. */
  function Count(sum: Summary, p: PodState): Summary {
    if CountsClaimed(p) then sum.(claimed := sum.claimed + 1)
    else if CountsStandby(p) then sum.(standby := sum.standby + 1)
    else if CountsPending(p) then sum.(pending := sum.pending + 1)
    else sum
  }

  /** How many of the first pods of each kind a pool has. */
  function Tally(pods: seq<PodState>, pool: string): Summary {
    if pods == [] then NOTHING
    else
      var n := |pods| - 1;
      var rest := Tally(pods[..n], pool);
      if pods[n].pool == pool then Count(rest, pods[n]) else rest
  }

  function SummaryAt(summaries: map<string, Summary>, pool: string): Summary {
    if pool in summaries then summaries[pool] else NOTHING
  }

  function PoolsOf(pods: seq<PodState>): set<string> {
    set p | p in pods :: p.pool
  }

  lemma TallyGrows(pods: seq<PodState>, i: nat)
    requires i < |pods|
    ensures PoolsOf(pods[..i + 1]) == PoolsOf(pods[..i]) + {pods[i].pool}
    ensures forall pool :: Tally(pods[..i + 1], pool)
              == if pods[i].pool == pool then Count(Tally(pods[..i], pool), pods[i]) else Tally(pods[..i], pool)
  {
    assert pods[..i + 1] == pods[..i] + [pods[i]] && pods[..i + 1][..i] == pods[..i];
  }

  /** A pool's pods of each kind: ready and free, on their way, and in use. */
  function StandbyPods(pods: seq<PodState>, pool: string): set<PodState> {
    set p | p in pods && p.pool == pool && !p.deleting && !p.claimed && p.phase == Running && p.ready
  }

  function PendingPods(pods: seq<PodState>, pool: string): set<PodState> {
    set p | p in pods && p.pool == pool && !p.deleting && !p.claimed && !(p.phase == Running && p.ready)
            && p.phase != Succeeded && p.phase != PodTypes.Failed
  }

  function ClaimedPods(pods: seq<PodState>, pool: string): set<PodState> {
    set p | p in pods && p.pool == pool && !p.deleting && p.claimed
  }

  /** The counts are the numbers of pods of each kind. */
  lemma {:induction false} TallyMeans(pods: seq<PodState>, pool: string)
    requires Distinct(pods)
    ensures Tally(pods, pool)
            == Summary(|StandbyPods(pods, pool)|, |PendingPods(pods, pool)|, |ClaimedPods(pods, pool)|)
  {
    if pods != [] {
      var n := |pods| - 1;
      var rest, p := pods[..n], pods[n];
      TallyMeans(rest, pool);
      assert pods == rest + [p] && p !in rest;
      StandbyGrows(rest, p, pool);
      PendingGrows(rest, p, pool);
      ClaimedGrows(rest, p, pool);
    }
  }

  lemma StandbyGrows(rest: seq<PodState>, p: PodState, pool: string)
    requires p !in rest
    ensures |StandbyPods(rest + [p], pool)|
            == |StandbyPods(rest, pool)| + (if p.pool == pool && CountsStandby(p) then 1 else 0)
  {
    var more := if p.pool == pool && CountsStandby(p) then {p} else {};
    assert StandbyPods(rest + [p], pool) == StandbyPods(rest, pool) + more;
  }

  lemma PendingGrows(rest: seq<PodState>, p: PodState, pool: string)
    requires p !in rest
    ensures |PendingPods(rest + [p], pool)|
            == |PendingPods(rest, pool)| + (if p.pool == pool && CountsPending(p) then 1 else 0)
  {
    var more := if p.pool == pool && CountsPending(p) then {p} else {};
    forall q ensures q in PendingPods(rest + [p], pool) <==> q in PendingPods(rest, pool) + more { }
    assert PendingPods(rest + [p], pool) == PendingPods(rest, pool) + more;
  }

  lemma ClaimedGrows(rest: seq<PodState>, p: PodState, pool: string)
    requires p !in rest
    ensures |ClaimedPods(rest + [p], pool)|
            == |ClaimedPods(rest, pool)| + (if p.pool == pool && CountsClaimed(p) then 1 else 0)
  {
    var more := if p.pool == pool && CountsClaimed(p) then {p} else {};
    assert ClaimedPods(rest + [p], pool) == ClaimedPods(rest, pool) + more;
  }

  /** The counting loop: every configured pool and every pool seen has a summary. */
  method HandlePools(cfg: Config, pods: seq<PodState>) returns (summaries: map<string, Summary>)
    ensures summaries.Keys == cfg.Keys + PoolsOf(pods)
    ensures forall pool :: pool in summaries ==> summaries[pool] == Tally(pods, pool)
    ensures Distinct(pods) ==> forall pool :: pool in summaries ==>
              && summaries[pool].standby == |StandbyPods(pods, pool)|
              && summaries[pool].pending == |PendingPods(pods, pool)|
              && summaries[pool].claimed == |ClaimedPods(pods, pool)|
  {
    summaries := map pool | pool in cfg :: NOTHING;
    for i := 0 to |pods|
      invariant summaries.Keys == cfg.Keys + PoolsOf(pods[..i])
      invariant forall pool :: SummaryAt(summaries, pool) == Tally(pods[..i], pool)
    {
      var p := pods[i];
      var sum := SummaryAt(summaries, p.pool);
      TallyGrows(pods, i);
      if p.deleting {
      } else if p.claimed {
        sum := sum.(claimed := sum.claimed + 1);
      } else if p.phase == Running && p.ready {
        sum := sum.(standby := sum.standby + 1);
      } else if p.phase != Succeeded && p.phase != PodTypes.Failed {
        sum := sum.(pending := sum.pending + 1);
      }
      ghost var before := summaries;
      summaries := summaries[p.pool := sum];
      assert forall pool :: SummaryAt(summaries, pool) == if pool == p.pool then sum else SummaryAt(before, pool);
    }
    assert pods[..|pods|] == pods;
    assert forall pool :: pool in summaries ==> summaries[pool] == SummaryAt(summaries, pool);
    if Distinct(pods) {
      forall pool | pool in summaries
        ensures Tally(pods, pool)
                == Summary(|StandbyPods(pods, pool)|, |PendingPods(pods, pool)|, |ClaimedPods(pods, pool)|)
      {
        TallyMeans(pods, pool);
      }
    }
  }

  // ---------------------------------------------------------------- agreement with the store

  /** The listed pods agree with the store on the live unclaimed pods. */
  ghost predicate Agrees(pods: seq<PodState>, m: map<string, Pod>) {
    && Keyed(m) && Distinct(pods)
    && (forall p :: p in pods && !p.deleting && !p.claimed ==> p.name in m && p == StateOf(m[p.name]))
    && (forall n :: n in m && !m[n].terminating && !NonEmpty(m[n].claimed) ==> StateOf(m[n]) in pods)
  }

  /** Standby and pending pods of a pool, by name. */
  function Waiting(pods: seq<PodState>, pool: string): set<string> {
    set p | p in pods && p.pool == pool && !p.deleting && !p.claimed && !Terminal(p.phase) :: p.name
  }

  lemma WaitingLast(pods: seq<PodState>, n: nat, pool: string)
    requires n + 1 == |pods| && Distinct(pods)
    ensures var rest, p := Waiting(pods[..n], pool), pods[n];
            && p.name !in rest
            && Waiting(pods, pool)
               == if p.pool == pool && !p.deleting && !p.claimed && !Terminal(p.phase) then rest + {p.name} else rest
  {
    assert pods == pods[..n] + [pods[n]];
  }

  lemma {:induction false} TallyIsWaiting(pods: seq<PodState>, pool: string)
    requires Distinct(pods)
    ensures Tally(pods, pool).standby + Tally(pods, pool).pending == |Waiting(pods, pool)|
  {
    if pods != [] {
      TallyIsWaiting(pods[..|pods| - 1], pool);
      WaitingLast(pods, |pods| - 1, pool);
    }
  }

  /** Over a settled store, every replica that agrees with it reports exactly the
      configured size as standby plus pending, and nothing for other pools. */
  lemma SettledPoolsReportTheirSize(cfg: Config, now: Time, pods: seq<PodState>, m: map<string, Pod>, pool: string)
    requires Settled(cfg, now, m) && Agrees(pods, m)
    ensures var t := Tally(pods, pool);
            t.standby + t.pending == if pool in cfg then Desired(cfg, pool) else 0
  {
    TallyIsWaiting(pods, pool);
    var waiting := Waiting(pods, pool);
    forall n | n in waiting ensures n in StandbyNames(cfg, now, pool, m) && pool in cfg {
      var p :| p in pods && p.pool == pool && !p.deleting && !p.claimed && !Terminal(p.phase) && p.name == n;
      assert p == StateOf(m[n]) && !Classify(cfg, now, StateOf(m[n])).Sweep?;
    }
    forall n | n in StandbyNames(cfg, now, pool, m) ensures n in waiting {
      assert StateOf(m[n]) in pods;
    }
    assert waiting == StandbyNames(cfg, now, pool, m);
    if pool !in cfg { assert waiting == {}; }
  }

  /** The entries of a delivered cache without late ones agree with the store, so
      its replica reports settled pools right. */
  lemma ConvergedCacheAgrees(run: seq<PodProtocol.Sys>, steps: seq<PodProtocol.Step>, k: nat, r: nat,
                             pods: seq<PodState>)
    requires PodSafety.IsRun(run, steps) && k < |run| && r in run[k].replicas
    requires run[k].replicas[r].late == {} && run[k].replicas[r].cursor == |run[k].server.log|
    requires var view := PodProtocol.View(run[k].replicas[r].cache);
             Distinct(pods) && forall p :: p in pods <==> p in view.Values
    ensures Agrees(pods, run[k].server.pods)
  {
    var cache, m := PodProtocol.View(run[k].replicas[r].cache), run[k].server.pods;
    PodSafety.RunsKeepInv(run, steps, k);
    forall n ensures n in cache ==> PodConvergence.AgreesAt(cache, m, n)
             ensures n in m && n !in cache ==> m[n].terminating {
      PodConvergence.CacheConverges(run, steps, k, r, n);
    }
    forall p | p in pods && !p.deleting && !p.claimed ensures p.name in m && p == StateOf(m[p.name]) {
      var n :| n in cache && cache[n] == p;
      assert PodConvergence.AgreesAt(cache, m, n) && m[n].name == n;
    }
    forall n | n in m && !m[n].terminating && !NonEmpty(m[n].claimed) ensures StateOf(m[n]) in pods {
      assert n in cache && PodConvergence.AgreesAt(cache, m, n);
      assert PodInvariants.SameMarks(cache[n], StateOf(m[n]));
      assert cache[n] in cache.Values;
    }
  }

  /** The cache of any replica in any run is keyed, so that its snapshot lists
      every pod once. */
  lemma CachesAreKeyed(run: seq<PodProtocol.Sys>, steps: seq<PodProtocol.Step>, k: nat, r: nat)
    requires PodSafety.IsRun(run, steps) && k < |run| && r in run[k].replicas
    ensures var view := PodProtocol.View(run[k].replicas[r].cache); forall n :: n in view ==> view[n].name == n
  {
    PodSafety.RunsKeepInv(run, steps, k);
    var view := PodProtocol.View(run[k].replicas[r].cache);
    forall n | n in view ensures view[n].name == n {
      assert PodInvariants.EntryOk(run[k].server, n, view[n]);
    }
  }
}
