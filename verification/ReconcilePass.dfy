/** The main results about one reconcile pass: it never over-provisions, and
    without interference it converges in one pass. */
module ReconcilePass {
  import opened Basics
  import opened PodTypes
  import opened PodPolicy
  import opened ReconcilePlan
  import opened ApiServer
  import opened PodManager
  import opened Reconcile
  import opened Sorting

  // ---------------------------------------------------------------- counting

  function NamesOf(pods: seq<PodState>): set<string> {
    set p | p in pods :: p.name
  }

  lemma {:induction false} DistinctNames(pods: seq<PodState>)
    ensures |NamesOf(pods)| <= |pods|
    ensures Distinct(pods) ==> |NamesOf(pods)| == |pods|
  {
    if pods != [] {
      DistinctNames(pods[1..]);
      assert pods == [pods[0]] + pods[1..];
      assert NamesOf(pods) == {pods[0].name} + NamesOf(pods[1..]);
    }
  }

  /** The standby pods of a listing are those of the store, each once. */
  lemma StandbyOfStore(cfg: Config, now: Time, pods: seq<PodState>, m: map<string, Pod>, pool: string)
    requires Listing(pods, m)
    ensures NamesOf(StandbyOf(cfg, now, pods, pool)) == StandbyNames(cfg, now, pool, m)
    ensures |StandbyOf(cfg, now, pods, pool)| == |StandbyNames(cfg, now, pool, m)|
  {
    var standby := StandbyOf(cfg, now, pods, pool);
    StandbyOfDistinct(cfg, now, pods, pool);
    DistinctNames(standby);
    forall n | n in StandbyNames(cfg, now, pool, m) ensures n in NamesOf(standby) {
      assert StateOf(m[n]) in standby;
    }
  }

  lemma GoneOrKept(cfg: Config, standby: seq<PodState>, pool: string, p: PodState)
    requires pool in cfg && Distinct(standby)
    ensures p in standby <==> p in Surplus(cfg, standby, pool) || p in Kept(cfg, standby, pool)
    ensures !(p in Surplus(cfg, standby, pool) && p in Kept(cfg, standby, pool))
  {
    var gone, kept := Surplus(cfg, standby, pool), Kept(cfg, standby, pool);
    TrimmingIsOptimal(cfg, standby, pool);
    assert p in standby <==> p in multiset(standby);
    assert p in multiset(gone) + multiset(kept) <==> p in gone || p in kept;
    if p in gone && p in kept {
      assert TrimsBefore(p, p);
      TrimOrderIsStrict();
    }
  }

  lemma TailIsDistinct(a: seq<PodState>, b: seq<PodState>)
    requires Distinct(a + b)
    ensures Distinct(b)
  {
    forall i, j | 0 <= i < j < |b| ensures b[i].name != b[j].name {
      assert (a + b)[|a| + i] == b[i] && (a + b)[|a| + j] == b[j];
    }
  }

  lemma KeptIsDistinct(cfg: Config, standby: seq<PodState>, pool: string)
    requires pool in cfg && Distinct(standby)
    ensures Distinct(Kept(cfg, standby, pool))
  {
    var gone, kept := Surplus(cfg, standby, pool), Kept(cfg, standby, pool);
    assert multiset(gone + kept) == multiset(standby) by { TrimmingIsOptimal(cfg, standby, pool); }
    SortedIsDistinct(standby, gone + kept);
    TailIsDistinct(gone, kept);
  }

  /** The kept pods of a pool bear different names. */
  lemma KeptNames(cfg: Config, standby: seq<PodState>, pool: string)
    requires pool in cfg && Distinct(standby)
    ensures |NamesOf(Kept(cfg, standby, pool))| == Min(|standby|, Desired(cfg, pool))
  {
    KeptIsDistinct(cfg, standby, pool);
    DistinctNames(Kept(cfg, standby, pool));
    TrimmingIsOptimal(cfg, standby, pool);
  }

  // ---------------------------------------------------------------- no over-provisioning

  /** The stuck and surplus pods of a pool whose delete did not succeed. */
  function Unswept(cfg: Config, now: Time, pods: seq<PodState>, pool: string, swept: set<string>): set<string> {
    set p | p in pods && p.pool == pool && p.name !in swept
            && (Doomed(cfg, now, pods, p, StuckStandby) || Doomed(cfg, now, pods, p, SurplusStandby)) :: p.name
  }

  lemma LiveIsKeptOrUnswept(cfg: Config, now: Time, pods: seq<PodState>, m: map<string, Pod>, pool: string,
                            swept: set<string>)
    requires Listing(pods, m) && pool in cfg
    ensures Live(cfg, pool, m) - swept
            <= NamesOf(Kept(cfg, StandbyOf(cfg, now, pods, pool), pool)) + Unswept(cfg, now, pods, pool, swept)
  {
    var standby := StandbyOf(cfg, now, pods, pool);
    StandbyOfDistinct(cfg, now, pods, pool);
    forall n | n in Live(cfg, pool, m) - swept
      ensures n in NamesOf(Kept(cfg, standby, pool)) + Unswept(cfg, now, pods, pool, swept)
    {
      var p := StateOf(m[n]);
      assert p in pods;
      if Classify(cfg, now, p) == Standby {
        GoneOrKept(cfg, standby, pool, p);
      }
    }
  }

  lemma UnionBound(s: set<string>, a: set<string>, b: set<string>, c: set<string>)
    requires s <= a + b + c
    ensures |s| <= |a| + |b| + |c|
  {
    Cardinality(s, a + b + c);
  }

  lemma {:induction false} Cardinality(s: set<string>, t: set<string>)
    requires s <= t
    ensures |s| <= |t|
  {
    if s != {} {
      var x :| x in s;
      Cardinality(s - {x}, t - {x});
    }
  }

  lemma NeverOverProvisions(cfg: Config, now: Time, pods: seq<PodState>, m0: map<string, Pod>, m1: map<string, Pod>,
                            m2: map<string, Pod>, sizes: map<string, nat>, swept: set<string>,
                            made: map<string, string>, calm: bool, pool: string)
    requires Listing(pods, m0) && Shrinks(cfg, m0, m1, swept) && Grows(cfg, m1, m2, made) && pool in cfg
    requires sizes.Keys == cfg.Keys && sizes[pool] == |StandbyOf(cfg, now, pods, pool)|
    requires Served(cfg, sizes, calm, made, {})
    ensures |Live(cfg, pool, m2)| <= Desired(cfg, pool) + |Unswept(cfg, now, pods, pool, swept)|
  {
    var standby := StandbyOf(cfg, now, pods, pool);
    var kept := NamesOf(Kept(cfg, standby, pool));
    StandbyOfDistinct(cfg, now, pods, pool);
    KeptNames(cfg, standby, pool);
    LiveIsKeptOrUnswept(cfg, now, pods, m0, pool, swept);
    assert Live(cfg, pool, m2) <= Live(cfg, pool, m1) + MadeFor(made, pool);
    UnionBound(Live(cfg, pool, m2), kept, Unswept(cfg, now, pods, pool, swept), MadeFor(made, pool));
  }

  // ---------------------------------------------------------------- convergence

  lemma NewIsStandby(cfg: Config, now: Time, pool: string, p: Pod)
    requires NewFor(cfg, now, pool, p)
    ensures Classify(cfg, now, StateOf(p)) == Standby && p.pool == pool
  {
  }

  /** A planned name belongs to a listed pod that is swept or surplus. */
  lemma PlannedPod(cfg: Config, now: Time, pods: seq<PodState>, m: map<string, Pod>, targets: seq<Target>, n: string)
    requires Listing(pods, m) && (forall t :: t in targets <==> Planned(cfg, now, pods, t)) && n in m
    ensures n in Names(targets) <==> exists reason :: Doomed(cfg, now, pods, StateOf(m[n]), reason)
  {
    var p := StateOf(m[n]);
    assert p in pods;
    var k :| 0 <= k < |pods| && pods[k] == p;
    if n in Names(targets) {
      var t :| t in targets && t.name == n;
      var i :| 0 <= i < |pods| && Doomed(cfg, now, pods, pods[i], t.reason) && t == TargetFor(pods[i], t.reason);
      assert pods[i] == p;
    }
    if reason :| Doomed(cfg, now, pods, p, reason) {
      assert Planned(cfg, now, pods, TargetFor(pods[k], reason));
      assert TargetFor(p, reason) in targets;
    }
  }

  lemma TargetsMatch(cfg: Config, now: Time, pods: seq<PodState>, m: map<string, Pod>, targets: seq<Target>)
    requires Listing(pods, m) && forall t :: t in targets <==> Planned(cfg, now, pods, t)
    ensures Matching(targets, m)
  {
    forall t | t in targets ensures t.name in m && m[t.name].version == t.version {
      var i :| 0 <= i < |pods| && Doomed(cfg, now, pods, pods[i], t.reason) && t == TargetFor(pods[i], t.reason);
      assert pods[i] in pods;
    }
  }

  /** After the deletes, exactly the kept pods of a pool classify as standby. */
  lemma SweptStandby(cfg: Config, now: Time, pods: seq<PodState>, m0: map<string, Pod>, m1: map<string, Pod>,
                     targets: seq<Target>, pool: string)
    requires Listing(pods, m0) && (forall t :: t in targets <==> Planned(cfg, now, pods, t)) && pool in cfg
    requires SweptFrom(m0, m1, Names(targets))
    ensures StandbyNames(cfg, now, pool, m1) == NamesOf(Kept(cfg, StandbyOf(cfg, now, pods, pool), pool))
  {
    var standby := StandbyOf(cfg, now, pods, pool);
    var kept := Kept(cfg, standby, pool);
    StandbyOfDistinct(cfg, now, pods, pool);
    forall n | n in StandbyNames(cfg, now, pool, m1) ensures n in NamesOf(kept) {
      PlannedPod(cfg, now, pods, m0, targets, n);
      var p := StateOf(m0[n]);
      assert n !in Names(targets) && p in standby;
      GoneOrKept(cfg, standby, pool, p);
      assert !Doomed(cfg, now, pods, p, SurplusStandby);
    }
    forall n | n in NamesOf(kept) ensures n in StandbyNames(cfg, now, pool, m1) {
      var p :| p in kept && p.name == n;
      GoneOrKept(cfg, standby, pool, p);
      assert p in standby && p in pods && p == StateOf(m0[n]);
      PlannedPod(cfg, now, pods, m0, targets, n);
      assert n !in Names(targets);
    }
  }

  lemma SweptHasNoTargets(cfg: Config, now: Time, pods: seq<PodState>, m0: map<string, Pod>, m1: map<string, Pod>,
                          targets: seq<Target>, n: string)
    requires Listing(pods, m0) && (forall t :: t in targets <==> Planned(cfg, now, pods, t))
    requires SweptFrom(m0, m1, Names(targets)) && n in m1
    ensures !Classify(cfg, now, StateOf(m1[n])).Sweep?
  {
    PlannedPod(cfg, now, pods, m0, targets, n);
    if Classify(cfg, now, StateOf(m1[n])).Sweep? {
      assert m1[n] == m0[n];
      assert Doomed(cfg, now, pods, StateOf(m0[n]), Classify(cfg, now, StateOf(m0[n])).reason);
    }
  }

  lemma Converges(cfg: Config, now: Time, pods: seq<PodState>, m0: map<string, Pod>, m1: map<string, Pod>,
                  m2: map<string, Pod>, targets: seq<Target>, sizes: map<string, nat>, made: map<string, string>)
    requires Listing(pods, m0) && (forall t :: t in targets <==> Planned(cfg, now, pods, t))
    requires SweptFrom(m0, m1, Names(targets)) && Filled(cfg, now, m1, m2, made)
    requires sizes.Keys == cfg.Keys && forall pool :: pool in cfg ==> sizes[pool] == |StandbyOf(cfg, now, pods, pool)|
    requires Served(cfg, sizes, true, made, {})
    ensures Settled(cfg, now, m2)
  {
    forall n | n in m2 ensures !Classify(cfg, now, StateOf(m2[n])).Sweep? {
      if n in made {
        NewIsStandby(cfg, now, made[n], m2[n]);
      } else {
        SweptHasNoTargets(cfg, now, pods, m0, m1, targets, n);
      }
    }
    forall pool | pool in cfg ensures |StandbyNames(cfg, now, pool, m2)| == Desired(cfg, pool) {
      var standby := StandbyOf(cfg, now, pods, pool);
      StandbyOfDistinct(cfg, now, pods, pool);
      KeptNames(cfg, standby, pool);
      SweptStandby(cfg, now, pods, m0, m1, targets, pool);
      FilledStandby(cfg, now, m1, m2, made, pool);
    }
  }

  lemma FilledStandbyName(cfg: Config, now: Time, m1: map<string, Pod>, m2: map<string, Pod>, made: map<string, string>,
                          pool: string, n: string)
    requires Filled(cfg, now, m1, m2, made)
    ensures n in StandbyNames(cfg, now, pool, m2)
            <==> n in StandbyNames(cfg, now, pool, m1) || n in MadeFor(made, pool)
    ensures !(n in StandbyNames(cfg, now, pool, m1) && n in MadeFor(made, pool))
  {
    if n in made { NewIsStandby(cfg, now, made[n], m2[n]); }
  }

  lemma FilledStandby(cfg: Config, now: Time, m1: map<string, Pod>, m2: map<string, Pod>, made: map<string, string>,
                      pool: string)
    requires Filled(cfg, now, m1, m2, made)
    ensures |StandbyNames(cfg, now, pool, m2)| == |StandbyNames(cfg, now, pool, m1)| + |MadeFor(made, pool)|
  {
    var before, after, more := StandbyNames(cfg, now, pool, m1), StandbyNames(cfg, now, pool, m2), MadeFor(made, pool);
    forall n ensures (n in after <==> n in before + more) && !(n in before && n in more) {
      FilledStandbyName(cfg, now, m1, m2, made, pool, n);
    }
    DisjointUnion(after, before, more);
  }

  lemma DisjointUnion(s: set<string>, a: set<string>, b: set<string>)
    requires forall n :: (n in s <==> n in a + b) && !(n in a && n in b)
    ensures |s| == |a| + |b|
  {
    assert s == a + b && a !! b;
  }

  /** A pod a pass leaves alone: on its way out, in use, or fit for use. */
  predicate LeftAlone(cfg: Config, now: Time, p: Pod) {
    || p.terminating
    || (!Terminal(p.phase)
        && if NonEmpty(p.claimed) then now <= LeaseInstant(p.lease)
           else p.pool in cfg && p.templateHash == cfg[p.pool].templateHash
                && (p.createdAt == ZERO_TIME || now - p.createdAt <= STUCK_STANDBY_TIMEOUT
                    || (p.phase == Running && ReadyCondition(p.conditions) && p.ip != "")))
  }

  /** Settled means: every pod is on its way out, in use under a running lease, or
      an unclaimed one of its pool's template that is ready or still young; and
      every pool has exactly its count of live unclaimed pods of its template. */
  lemma SettledMeans(cfg: Config, now: Time, m: map<string, Pod>)
    ensures Settled(cfg, now, m)
            <==> (forall n :: n in m ==> LeftAlone(cfg, now, m[n]))
                 && forall pool :: pool in cfg ==> |Live(cfg, pool, m)| == Desired(cfg, pool)
  {
    forall n | n in m ensures LeftAlone(cfg, now, m[n]) <==> !Classify(cfg, now, StateOf(m[n])).Sweep? {}
    if forall n :: n in m ==> LeftAlone(cfg, now, m[n]) {
      forall pool | pool in cfg ensures Live(cfg, pool, m) == StandbyNames(cfg, now, pool, m) {
        forall n | n in m ensures n in Live(cfg, pool, m) <==> n in StandbyNames(cfg, now, pool, m) {
          assert LeftAlone(cfg, now, m[n]);
        }
      }
    }
  }

  lemma SettledPlansNothing(cfg: Config, now: Time, pods: seq<PodState>, m: map<string, Pod>, t: Target)
    requires Listing(pods, m) && Settled(cfg, now, m)
    ensures !Planned(cfg, now, pods, t)
  {
    if Planned(cfg, now, pods, t) {
      var i :| 0 <= i < |pods| && Doomed(cfg, now, pods, pods[i], t.reason) && t == TargetFor(pods[i], t.reason);
      var p := pods[i];
      assert p in pods && !Classify(cfg, now, StateOf(m[p.name])).Sweep?;
      StandbyOfStore(cfg, now, pods, m, p.pool);
    }
  }

  // ---------------------------------------------------------------- the pass

  /** What an undisturbed pass does to the store: every pool is settled; exactly
      the doomed pods go or are marked, every other pod stays as it was; and all
      further pods are new ones for their pool. */
  ghost predicate Settles(cfg: Config, now: Time, pods: seq<PodState>, m0: map<string, Pod>, m2: map<string, Pod>) {
    && Settled(cfg, now, m2)
    && (forall n :: n in m0 ==>
          if AnyReason(cfg, now, pods, StateOf(m0[n])) then n in m2 ==> m2[n].terminating
          else n in m2 && m2[n] == m0[n])
    && (forall n :: n in m2 && n !in m0 ==> NewFor(cfg, now, m2[n].pool, m2[n]))
  }

  ghost predicate AnyReason(cfg: Config, now: Time, pods: seq<PodState>, p: PodState) {
    exists reason :: Doomed(cfg, now, pods, p, reason)
  }

  /** A claimed pod that has not terminated and whose lease runs has no reason to
      be deleted, whatever its template. */
  lemma LeasedPodsAreSpared(cfg: Config, now: Time, pods: seq<PodState>, p: PodState)
    requires p.claimed && !Terminal(p.phase) && now <= p.leaseExpires
    ensures !AnyReason(cfg, now, pods, p)
  {
    if AnyReason(cfg, now, pods, p) {
      var reason :| Doomed(cfg, now, pods, p, reason);
      SurplusIsStandby(cfg, StandbyOf(cfg, now, pods, p.pool), p.pool, p);
    }
  }

  lemma UndisturbedPass(cfg: Config, now: Time, pods: seq<PodState>, m0: map<string, Pod>, m1: map<string, Pod>,
                        m2: map<string, Pod>, targets: seq<Target>, sizes: map<string, nat>, made: map<string, string>)
    requires Listing(pods, m0) && (forall t :: t in targets <==> Planned(cfg, now, pods, t))
    requires SweptFrom(m0, m1, Names(targets)) && Filled(cfg, now, m1, m2, made)
    requires sizes.Keys == cfg.Keys && forall pool :: pool in cfg ==> sizes[pool] == |StandbyOf(cfg, now, pods, pool)|
    requires Served(cfg, sizes, true, made, {})
    requires forall n :: n in made ==> n !in m0
    ensures Settles(cfg, now, pods, m0, m2)
  {
    Converges(cfg, now, pods, m0, m1, m2, targets, sizes, made);
    forall n | n in m0
      ensures if AnyReason(cfg, now, pods, StateOf(m0[n])) then n in m2 ==> m2[n].terminating
              else n in m2 && m2[n] == m0[n]
    {
      PlannedPod(cfg, now, pods, m0, targets, n);
    }
  }

  /** The calls of a pass: the deletes, then the creates. `m1` is the store in
      between. */
  method Execute(m: Manager, api: Api, targets: seq<Target>, sizes: map<string, nat>, ghost now: Time)
    returns (swept: set<string>, ghost m1: map<string, Pod>, ghost made: map<string, string>, ghost names: seq<string>,
             ghost batches: seq<Batch>)
    requires Keyed(api.pods) && Admissible(api.world, now) && AllAhead(api.world, api.turn, api.pods, map[], {})
    requires sizes.Keys == m.cfg.Keys
    modifies m, api`pods, api`turn, api`deletes, api`creates
    ensures DeletesSent(old(api.deletes), api.deletes, targets, |targets|)
    ensures swept == AcceptedSince(old(api.deletes), api.deletes)
    ensures Ascending(names) && (forall pool :: pool in names <==> pool in m.cfg)
    ensures CreatesSent(m.cfg, sizes, old(api.creates), api.creates, names, batches)
    ensures Shrinks(m.cfg, old(api.pods), m1, swept) && Grows(m.cfg, m1, api.pods, made)
    ensures Served(m.cfg, sizes, Calm(api.world), made, {}) && Keyed(api.pods)
    ensures Calm(api.world) && Matching(targets, old(api.pods)) ==>
              SweptFrom(old(api.pods), m1, Names(targets)) && Filled(m.cfg, now, m1, api.pods, made)
    ensures made.Keys !! old(api.pods).Keys
    ensures targets == [] && NothingMissing(m.cfg, sizes) ==> api.turn == old(api.turn) && api.pods == old(api.pods)
  {
    swept := SweepAll(m, api, targets);
    m1 := api.pods;
    made, names, batches := TopUp(m, api, sizes, now, old(api.pods).Keys);
  }

  /** The standby pods counted for each pool. */
  function StandbySizes(cfg: Config, now: Time, pods: seq<PodState>): map<string, nat> {
    map pool | pool in cfg :: |StandbyOf(cfg, now, pods, pool)|
  }

  /** One reconcile pass over a listing of the store. It sends one delete for every
      planned pod, by reason and name, each on the condition that the version is still
      the listed one, whatever the answers; and then, pool by pool in name order, as
      many creates as standby pods are missing, or as far as the pool's first failing
      one. `swept` are exactly the names whose delete was answered Accepted. Whatever
      the rest of the world does and whichever calls fail, each pool ends with at most
      its size plus the stuck and surplus pods not among them; undisturbed, one pass
      settles the store; and a settled store needs no call. */
  method ReconcileStates(m: Manager, api: Api, pods: seq<PodState>, now: Time)
    returns (swept: set<string>, ghost targets: seq<Target>, ghost names: seq<string>, ghost batches: seq<Batch>)
    requires Listing(pods, api.pods) && Admissible(api.world, now) && AllAhead(api.world, api.turn, api.pods, map[], {})
    modifies m, api`pods, api`turn, api`deletes, api`creates
    ensures forall t :: t in targets <==> Planned(m.cfg, now, pods, t)
    ensures SortedBy(targets, TargetLess) && DistinctTargets(targets)
    ensures DeletesSent(old(api.deletes), api.deletes, targets, |targets|)
    ensures swept == AcceptedSince(old(api.deletes), api.deletes)
    ensures Ascending(names) && (forall pool :: pool in names <==> pool in m.cfg)
    ensures CreatesSent(m.cfg, StandbySizes(m.cfg, now, pods), old(api.creates), api.creates, names, batches)
    ensures forall pool :: pool in m.cfg ==>
              |Live(m.cfg, pool, api.pods)| <= Desired(m.cfg, pool) + |Unswept(m.cfg, now, pods, pool, swept)|
    ensures Calm(api.world) ==> Settles(m.cfg, now, pods, old(api.pods), api.pods)
    ensures Settled(m.cfg, now, old(api.pods)) ==> api.turn == old(api.turn) && api.pods == old(api.pods)
    ensures Keyed(api.pods)
  {
    ghost var m0 := api.pods;
    var plan, sizes := Plan(m.cfg, now, pods);
    targets := plan;
    if Settled(m.cfg, now, m0) {
      SettledIsFull(m.cfg, now, pods, m0, targets, sizes);
    }
    TargetsMatch(m.cfg, now, pods, m0, targets);
    assert sizes == StandbySizes(m.cfg, now, pods);
    ghost var m1, made;
    swept, m1, made, names, batches := Execute(m, api, plan, sizes, now);
    PassKeepsBound(m.cfg, now, pods, m0, m1, api.pods, sizes, swept, made, Calm(api.world));
    if Calm(api.world) {
      UndisturbedPass(m.cfg, now, pods, m0, m1, api.pods, targets, sizes, made);
    }
  }

  lemma PassKeepsBound(cfg: Config, now: Time, pods: seq<PodState>, m0: map<string, Pod>, m1: map<string, Pod>,
                       m2: map<string, Pod>, sizes: map<string, nat>, swept: set<string>, made: map<string, string>,
                       calm: bool)
    requires Listing(pods, m0) && Shrinks(cfg, m0, m1, swept) && Grows(cfg, m1, m2, made)
    requires sizes.Keys == cfg.Keys && forall pool :: pool in cfg ==> sizes[pool] == |StandbyOf(cfg, now, pods, pool)|
    requires Served(cfg, sizes, calm, made, {})
    ensures forall pool :: pool in cfg ==>
              |Live(cfg, pool, m2)| <= Desired(cfg, pool) + |Unswept(cfg, now, pods, pool, swept)|
  {
    forall pool | pool in cfg
      ensures |Live(cfg, pool, m2)| <= Desired(cfg, pool) + |Unswept(cfg, now, pods, pool, swept)|
    {
      NeverOverProvisions(cfg, now, pods, m0, m1, m2, sizes, swept, made, calm, pool);
    }
  }

  lemma SettledIsFull(cfg: Config, now: Time, pods: seq<PodState>, m: map<string, Pod>, targets: seq<Target>,
                      sizes: map<string, nat>)
    requires Listing(pods, m) && Settled(cfg, now, m) && forall t :: t in targets <==> Planned(cfg, now, pods, t)
    requires sizes.Keys == cfg.Keys && forall pool :: pool in cfg ==> sizes[pool] == |StandbyOf(cfg, now, pods, pool)|
    ensures targets == [] && NothingMissing(cfg, sizes)
  {
    assert targets == [] || targets[0] in targets;
    forall t ensures t !in targets {
      SettledPlansNothing(cfg, now, pods, m, t);
    }
    forall pool | pool in cfg ensures Deficit(cfg, sizes, pool) == 0 {
      StandbyOfStore(cfg, now, pods, m, pool);
    }
  }
}
