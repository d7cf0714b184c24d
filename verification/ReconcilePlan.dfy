/** What one reconcile pass decides to delete, and how pools are trimmed. */
module ReconcilePlan {
  import opened Basics
  import opened PodTypes
  import opened PodPolicy
  import opened Sorting

  datatype Target = Target(name: string, version: ResourceVersion, reason: Reason)

  function TargetFor(p: PodState, reason: Reason): Target {
    Target(p.name, p.version, reason)
  }

  function Max(a: int, b: int): int { if a < b then b else a }

  function Min(a: int, b: int): int { if a < b then a else b }

  predicate Distinct(pods: seq<PodState>) {
    forall i, j :: 0 <= i < j < |pods| ==> pods[i].name != pods[j].name
  }

  // ---------------------------------------------------------------- specification

  /** The pods a pass counts as standby capacity of a pool, in listing order. */
  function StandbyOf(cfg: Config, now: Time, pods: seq<PodState>, pool: string): (r: seq<PodState>)
    ensures forall p :: p in r <==> p in pods && p.pool == pool && Classify(cfg, now, p) == Standby
  {
    if pods == [] then []
    else
      var n := |pods| - 1;
      var rest := StandbyOf(cfg, now, pods[..n], pool);
      assert pods == pods[..n] + [pods[n]];
      if pods[n].pool == pool && Classify(cfg, now, pods[n]) == Standby then rest + [pods[n]] else rest
  }

  /** The size a pool is kept at. */
  function Desired(cfg: Config, pool: string): nat
    requires pool in cfg
  {
    Max(cfg[pool].count, 0)
  }

  /** Trimming order: pods that cannot be handed out first, then newer names. */
  predicate TrimsBefore(p: PodState, q: PodState) {
    if ReadyStandby(p) != ReadyStandby(q) then !ReadyStandby(p) else NameLess(q.name, p.name)
  }

  function SurplusCount(cfg: Config, standby: seq<PodState>, pool: string): (k: nat)
    requires pool in cfg
    ensures k <= |standby| && |standby| - k == Min(|standby|, Desired(cfg, pool))
  {
    Max(|standby| - Desired(cfg, pool), 0)
  }

  /** The pods trimmed from a pool: the first ones of the trimming order. */
  function Surplus(cfg: Config, standby: seq<PodState>, pool: string): seq<PodState>
    requires pool in cfg
  {
    SortLength(standby, TrimsBefore);
    Sort(standby, TrimsBefore)[..SurplusCount(cfg, standby, pool)]
  }

  /** The pods of a pool that stay. */
  function Kept(cfg: Config, standby: seq<PodState>, pool: string): seq<PodState>
    requires pool in cfg
  {
    SortLength(standby, TrimsBefore);
    Sort(standby, TrimsBefore)[SurplusCount(cfg, standby, pool)..]
  }

  lemma {:induction false} SortLength<T>(s: seq<T>, less: (T, T) -> bool)
    ensures |Sort(s, less)| == |s|
  {
    if s != [] {
      SortLength(s[1..], less);
      InsertLength(s[0], Sort(s[1..], less), less);
    }
  }

  lemma {:induction false} InsertLength<T>(x: T, s: seq<T>, less: (T, T) -> bool)
    ensures |Insert(x, s, less)| == |s| + 1
  {
    if s != [] && less(s[0], x) { InsertLength(x, s[1..], less); }
  }

  /** Why a pass deletes the listed pod `p`, if it does. */
  predicate Doomed(cfg: Config, now: Time, pods: seq<PodState>, p: PodState, reason: Reason) {
    || Classify(cfg, now, p) == Sweep(reason)
    || (reason == SurplusStandby && p.pool in cfg
        && p in Surplus(cfg, StandbyOf(cfg, now, pods, p.pool), p.pool))
  }

  predicate Planned(cfg: Config, now: Time, pods: seq<PodState>, t: Target) {
    exists i :: 0 <= i < |pods| && Doomed(cfg, now, pods, pods[i], t.reason) && t == TargetFor(pods[i], t.reason)
  }

  // ---------------------------------------------------------------- the trimming order

  lemma TrimOrderIsStrict()
    ensures StrictOrder(TrimsBefore)
  {
    forall p, q | TrimsBefore(p, q) ensures !TrimsBefore(q, p) {
      NameLessIsTotal(p.name, q.name);
    }
    forall p, q, z | TrimsBefore(p, q) && !TrimsBefore(z, q) ensures TrimsBefore(p, z) {
      NameLessIsTotal(q.name, z.name);
      if ReadyStandby(p) == ReadyStandby(z) && ReadyStandby(z) == ReadyStandby(q) && q.name != z.name {
        NameLessIsTransitive(z.name, q.name, p.name);
      }
    }
  }

  function CountReady(pods: seq<PodState>): (n: nat)
    ensures n <= |pods|
  {
    if pods == [] then 0
    else (if ReadyStandby(pods[0]) then 1 else 0) + CountReady(pods[1..])
  }

  lemma {:induction false} CountReadyAppend(a: seq<PodState>, b: seq<PodState>)
    ensures CountReady(a + b) == CountReady(a) + CountReady(b)
  {
    if a == [] {
      assert a + b == b;
    } else {
      assert (a + b)[1..] == a[1..] + b;
      CountReadyAppend(a[1..], b);
    }
  }

  lemma {:induction false} CountReadyInsert(p: PodState, s: seq<PodState>)
    ensures CountReady(Insert(p, s, TrimsBefore)) == CountReady([p] + s)
  {
    if s != [] && TrimsBefore(s[0], p) {
      CountReadyInsert(p, s[1..]);
      assert ([p] + s)[1..] == s && ([p] + s[1..])[1..] == s[1..];
    }
  }

  lemma {:induction false} CountReadySort(s: seq<PodState>)
    ensures CountReady(Sort(s, TrimsBefore)) == CountReady(s)
  {
    if s != [] {
      CountReadySort(s[1..]);
      CountReadyInsert(s[0], Sort(s[1..], TrimsBefore));
      assert ([s[0]] + Sort(s[1..], TrimsBefore))[1..] == Sort(s[1..], TrimsBefore);
    }
  }

  lemma {:induction false} CountReadyUniform(s: seq<PodState>)
    ensures (forall p :: p in s ==> ReadyStandby(p)) ==> CountReady(s) == |s|
    ensures (forall p :: p in s ==> !ReadyStandby(p)) ==> CountReady(s) == 0
  {
    if s != [] {
      CountReadyUniform(s[1..]);
      assert s == [s[0]] + s[1..];
    }
  }

  lemma SortedPrecedes(sorted: seq<PodState>, k: nat, p: PodState, q: PodState)
    requires k <= |sorted| && SortedBy(sorted, TrimsBefore) && Distinct(sorted)
    requires p in sorted[..k] && q in sorted[k..]
    ensures TrimsBefore(p, q)
  {
    var i :| 0 <= i < k && sorted[i] == p;
    var j :| k <= j < |sorted| && sorted[j] == q;
    assert !TrimsBefore(sorted[j], sorted[i]);
    NameLessIsTotal(p.name, q.name);
  }

  lemma TrimmedPrecedes(standby: seq<PodState>, k: nat, p: PodState, q: PodState)
    requires Distinct(standby) && k <= |Sort(standby, TrimsBefore)|
    requires p in Sort(standby, TrimsBefore)[..k] && q in Sort(standby, TrimsBefore)[k..]
    ensures TrimsBefore(p, q)
  {
    TrimOrderIsStrict();
    SortSorts(standby, TrimsBefore);
    SortedIsDistinct(standby, Sort(standby, TrimsBefore));
    SortedPrecedes(Sort(standby, TrimsBefore), k, p, q);
  }

  /** Trimming is optimal: trimmed and kept pods together are the pool's standby
      pods; every trimmed pod precedes every kept one in the trimming order; a
      ready pod is trimmed only if every kept pod is ready; and the kept pods
      hold as many ready ones as the size allows. */
  lemma TrimmingIsOptimal(cfg: Config, standby: seq<PodState>, pool: string)
    requires pool in cfg && Distinct(standby)
    ensures var gone, kept := Surplus(cfg, standby, pool), Kept(cfg, standby, pool);
            && multiset(gone) + multiset(kept) == multiset(standby)
            && |kept| == Min(|standby|, Desired(cfg, pool))
            && (forall p, q :: p in gone && q in kept ==> TrimsBefore(p, q))
            && ((exists p :: p in gone && ReadyStandby(p)) ==> forall q :: q in kept ==> ReadyStandby(q))
            && CountReady(kept) == Min(|kept|, CountReady(standby))
  {
    var gone, kept := Surplus(cfg, standby, pool), Kept(cfg, standby, pool);
    var sorted := Sort(standby, TrimsBefore);
    var k := SurplusCount(cfg, standby, pool);
    SortLength(standby, TrimsBefore);
    assert sorted == gone + kept;
    assert multiset(gone) + multiset(kept) == multiset(standby) by { SortKeeps(standby, TrimsBefore); }
    forall p, q | p in gone && q in kept ensures TrimsBefore(p, q) {
      TrimmedPrecedes(standby, k, p, q);
    }
    ReadyCounts(standby, gone, kept);
  }

  /** Among equally ready pods the newer names are trimmed. */
  lemma NewerNamesGoFirst(cfg: Config, standby: seq<PodState>, pool: string, p: PodState, q: PodState)
    requires pool in cfg && Distinct(standby)
    requires p in Surplus(cfg, standby, pool) && q in Kept(cfg, standby, pool) && ReadyStandby(p) == ReadyStandby(q)
    ensures NameLess(q.name, p.name)
  {
    TrimmingIsOptimal(cfg, standby, pool);
    assert TrimsBefore(p, q);
  }

  lemma ReadyCounts(standby: seq<PodState>, gone: seq<PodState>, kept: seq<PodState>)
    requires Sort(standby, TrimsBefore) == gone + kept
    requires (exists p :: p in gone && ReadyStandby(p)) ==> forall q :: q in kept ==> ReadyStandby(q)
    ensures CountReady(kept) == Min(|kept|, CountReady(standby))
  {
    CountReadySort(standby);
    CountReadyAppend(gone, kept);
    if forall p :: p in gone ==> !ReadyStandby(p) {
      CountReadyUniform(gone);
    } else {
      CountReadyUniform(kept);
    }
  }

  lemma SortedIsDistinct(s: seq<PodState>, sorted: seq<PodState>)
    requires Distinct(s) && multiset(sorted) == multiset(s)
    ensures Distinct(sorted)
  {
    forall i, j | 0 <= i < j < |sorted| ensures sorted[i].name != sorted[j].name {
      assert sorted[i] in multiset(s) && sorted[j] in multiset(s);
      if sorted[i] == sorted[j] {
        TwiceInSeq(sorted, i, j);
        DistinctOnce(s, sorted[i]);
      }
    }
  }

  lemma {:induction false} DistinctOnce(s: seq<PodState>, p: PodState)
    requires Distinct(s)
    ensures multiset(s)[p] <= 1
  {
    if s != [] {
      DistinctOnce(s[1..], p);
      assert s == [s[0]] + s[1..];
      if s[0] == p { assert p !in s[1..]; }
    }
  }

  // ---------------------------------------------------------------- the planning loops

  function StandbyAt(standby: map<string, seq<PodState>>, pool: string): seq<PodState> {
    if pool in standby then standby[pool] else []
  }

  predicate SweptBy(cfg: Config, now: Time, pods: seq<PodState>, t: Target) {
    exists i :: 0 <= i < |pods| && Classify(cfg, now, pods[i]) == Sweep(t.reason) && t == TargetFor(pods[i], t.reason)
  }

  lemma SweptByLast(cfg: Config, now: Time, pods: seq<PodState>, n: nat, t: Target)
    requires n < |pods|
    ensures SweptBy(cfg, now, pods[..n + 1], t) <==>
              SweptBy(cfg, now, pods[..n], t)
              || (Classify(cfg, now, pods[n]) == Sweep(t.reason) && t == TargetFor(pods[n], t.reason))
  {
    var more, less := pods[..n + 1], pods[..n];
    if SweptBy(cfg, now, less, t) {
      var i :| 0 <= i < |less| && Classify(cfg, now, less[i]) == Sweep(t.reason) && t == TargetFor(less[i], t.reason);
      assert more[i] == less[i];
    }
    if SweptBy(cfg, now, more, t) {
      var i :| 0 <= i < |more| && Classify(cfg, now, more[i]) == Sweep(t.reason) && t == TargetFor(more[i], t.reason);
      assert i < n ==> less[i] == more[i];
    }
    if Classify(cfg, now, pods[n]) == Sweep(t.reason) && t == TargetFor(pods[n], t.reason) {
      assert more[n] == pods[n];
    }
  }

  lemma NewTargetDiffers(cfg: Config, now: Time, pods: seq<PodState>, n: nat, sweeps: seq<Target>)
    requires n < |pods| && Distinct(pods) && forall t :: t in sweeps ==> SweptBy(cfg, now, pods[..n], t)
    ensures forall t :: t in sweeps ==> t.name != pods[n].name
  {
    forall t | t in sweeps ensures t.name != pods[n].name {
      var less := pods[..n];
      var i :| 0 <= i < n && Classify(cfg, now, less[i]) == Sweep(t.reason) && t == TargetFor(less[i], t.reason);
      assert pods[i] == less[i];
    }
  }

  /** The classification loop. */
  method ClassifyPods(cfg: Config, now: Time, pods: seq<PodState>)
    returns (sweeps: seq<Target>, standby: map<string, seq<PodState>>)
    ensures forall t :: t in sweeps <==> SweptBy(cfg, now, pods, t)
    ensures Distinct(pods) ==> DistinctTargets(sweeps)
    ensures standby.Keys <= cfg.Keys
    ensures forall pool :: pool in cfg ==> StandbyAt(standby, pool) == StandbyOf(cfg, now, pods, pool)
  {
    sweeps, standby := [], map[];
    for n := 0 to |pods|
      invariant forall t :: t in sweeps <==> SweptBy(cfg, now, pods[..n], t)
      invariant Distinct(pods) ==> DistinctTargets(sweeps)
      invariant standby.Keys <= cfg.Keys
      invariant forall pool :: pool in cfg ==> StandbyAt(standby, pool) == StandbyOf(cfg, now, pods[..n], pool)
    {
      var p := pods[n];
      ghost var before := sweeps;
      assert pods[..n + 1][..n] == pods[..n];
      match Classify(cfg, now, p) {
        case Ignore =>
        case Sweep(reason) =>
          if Distinct(pods) { NewTargetDiffers(cfg, now, pods, n, sweeps); }
          sweeps := sweeps + [TargetFor(p, reason)];
        case Standby => standby := standby[p.pool := StandbyAt(standby, p.pool) + [p]];
      }
      forall t ensures t in sweeps <==> SweptBy(cfg, now, pods[..n + 1], t) {
        SweptByLast(cfg, now, pods, n, t);
        assert t in before <==> SweptBy(cfg, now, pods[..n], t);
      }
    }
    assert pods[..|pods|] == pods;
  }

  predicate TrimmedFrom(cfg: Config, standby: map<string, seq<PodState>>, pools: set<string>, t: Target) {
    exists pool :: pool in pools && pool in standby && pool in cfg && TrimTarget(cfg, standby[pool], pool, t)
  }

  predicate TrimTarget(cfg: Config, standby: seq<PodState>, pool: string, t: Target)
    requires pool in cfg
  {
    exists p :: p in Surplus(cfg, standby, pool) && t == TargetFor(p, SurplusStandby)
  }

  function TargetsOf(pods: seq<PodState>): (r: seq<Target>)
    ensures |r| == |pods| && forall i :: 0 <= i < |pods| ==> r[i] == TargetFor(pods[i], SurplusStandby)
  {
    seq(|pods|, i requires 0 <= i < |pods| => TargetFor(pods[i], SurplusStandby))
  }

  /** The pods trimmed from the pools, pool by pool. */
  function TrimsOf(cfg: Config, standby: map<string, seq<PodState>>, order: seq<string>): seq<Target>
    requires standby.Keys <= cfg.Keys && forall pool :: pool in order ==> pool in standby
  {
    if order == [] then []
    else
      var pool := order[|order| - 1];
      TrimsOf(cfg, standby, order[..|order| - 1]) + TargetsOf(Surplus(cfg, standby[pool], pool))
  }

  lemma {:induction false} TrimsAre(cfg: Config, standby: map<string, seq<PodState>>, order: seq<string>, t: Target)
    requires standby.Keys <= cfg.Keys && forall pool :: pool in order ==> pool in standby
    ensures t in TrimsOf(cfg, standby, order) <==> TrimmedFrom(cfg, standby, (set pool | pool in order), t)
  {
    if order != [] {
      var n := |order| - 1;
      var pool := order[n];
      var trims := TargetsOf(Surplus(cfg, standby[pool], pool));
      assert order == order[..n] + [pool];
      TrimsAre(cfg, standby, order[..n], t);
      assert t in trims <==> TrimTarget(cfg, standby[pool], pool, t);
    }
  }

  /** One pool of the trimming loop. */
  method TrimPool(cfg: Config, pool: string, standby: seq<PodState>) returns (pods: seq<PodState>, gone: seq<Target>)
    requires pool in cfg
    ensures |pods| == |standby| && gone == TargetsOf(Surplus(cfg, standby, pool))
  {
    pods, gone := standby, [];
    var surplus := |pods| - Max(cfg[pool].count, 0);
    SortLength(pods, TrimsBefore);
    if surplus > 0 {
      pods := Sort(pods, TrimsBefore);
      for k := 0 to surplus
        invariant gone == TargetsOf(pods[..k])
      {
        gone := gone + [TargetFor(pods[k], SurplusStandby)];
      }
    }
  }

  /** The trimming loop; it sorts the pools it trims in place. `order` is the order
      it happens to take them in. */
  method TrimPools(cfg: Config, standby: map<string, seq<PodState>>, sweeps: seq<Target>)
    returns (trimmed: map<string, seq<PodState>>, all: seq<Target>, ghost order: seq<string>)
    requires standby.Keys <= cfg.Keys
    ensures trimmed.Keys == standby.Keys
    ensures forall pool :: pool in standby ==> |trimmed[pool]| == |standby[pool]|
    ensures NoRepeats(order) && forall pool :: pool in order <==> pool in standby
    ensures all == sweeps + TrimsOf(cfg, standby, order)
  {
    trimmed, all, order := standby, sweeps, [];
    var todo := standby.Keys;
    while todo != {}
      invariant todo <= standby.Keys && trimmed.Keys == standby.Keys
      invariant NoRepeats(order) && forall pool :: pool in order <==> pool in standby && pool !in todo
      invariant forall pool :: pool in todo ==> trimmed[pool] == standby[pool]
      invariant forall pool :: pool in standby ==> |trimmed[pool]| == |standby[pool]|
      invariant all == sweeps + TrimsOf(cfg, standby, order)
    {
      var pool :| pool in todo;
      var pods, gone := TrimPool(cfg, pool, trimmed[pool]);
      trimmed, all := trimmed[pool := pods], all + gone;
      todo := todo - {pool};
      TrimsOneMore(cfg, standby, order, pool, sweeps);
      order := order + [pool];
    }
  }

  lemma TrimsOneMore(cfg: Config, standby: map<string, seq<PodState>>, order: seq<string>, pool: string,
                     sweeps: seq<Target>)
    requires standby.Keys <= cfg.Keys && pool in standby && forall p :: p in order ==> p in standby
    ensures sweeps + TrimsOf(cfg, standby, order + [pool])
            == sweeps + TrimsOf(cfg, standby, order) + TargetsOf(Surplus(cfg, standby[pool], pool))
  {
    assert (order + [pool])[..|order|] == order;
  }

  // ---------------------------------------------------------------- one delete a pod

  predicate DistinctTargets(targets: seq<Target>) {
    forall i, j :: 0 <= i < j < |targets| ==> targets[i].name != targets[j].name
  }

  lemma SurplusIsDistinct(cfg: Config, standby: seq<PodState>, pool: string)
    requires pool in cfg && Distinct(standby)
    ensures DistinctTargets(TargetsOf(Surplus(cfg, standby, pool)))
  {
    TrimOrderIsStrict();
    SortSorts(standby, TrimsBefore);
    SortedIsDistinct(standby, Sort(standby, TrimsBefore));
  }

  /** The standby pods of the pools, and the pods swept, are different pods. */
  ghost predicate PoolsApart(standby: map<string, seq<PodState>>, sweeps: seq<Target>) {
    && (forall pool :: pool in standby ==> Distinct(standby[pool]))
    && (forall a, b, p, q :: a in standby && b in standby && a != b && p in standby[a] && q in standby[b] ==>
          p.name != q.name)
    && (forall a, p, t :: a in standby && p in standby[a] && t in sweeps ==> p.name != t.name)
  }

  lemma TrimsAreStandby(cfg: Config, standby: map<string, seq<PodState>>, order: seq<string>, t: Target)
    returns (pool: string, p: PodState)
    requires standby.Keys <= cfg.Keys && (forall x :: x in order ==> x in standby)
    requires t in TrimsOf(cfg, standby, order)
    ensures pool in order && p in standby[pool] && p.name == t.name
  {
    TrimsAre(cfg, standby, order, t);
    pool :| pool in order && pool in standby && TrimTarget(cfg, standby[pool], pool, t);
    p :| p in Surplus(cfg, standby[pool], pool) && t == TargetFor(p, SurplusStandby);
    SurplusIsStandby(cfg, standby[pool], pool, p);
  }

  lemma AppendDistinct(a: seq<Target>, b: seq<Target>)
    requires DistinctTargets(a) && DistinctTargets(b) && forall s, t :: s in a && t in b ==> s.name != t.name
    ensures DistinctTargets(a + b)
  {
    forall i, j | 0 <= i < j < |a + b| ensures (a + b)[i].name != (a + b)[j].name {
      if i < |a| <= j { assert a[i] in a && b[j - |a|] in b; }
    }
  }

  lemma ApartByName(standby: map<string, seq<PodState>>, sweeps: seq<Target>, a: string, b: string, p: PodState,
                    q: PodState)
    requires PoolsApart(standby, sweeps) && a in standby && b in standby && a != b && p in standby[a] && q in standby[b]
    ensures p.name != q.name
  {
  }

  lemma SurplusTarget(cfg: Config, standby: seq<PodState>, pool: string, t: Target) returns (q: PodState)
    requires pool in cfg && t in TargetsOf(Surplus(cfg, standby, pool))
    ensures q in standby && q.name == t.name
  {
    q :| q in Surplus(cfg, standby, pool) && t == TargetFor(q, SurplusStandby);
    SurplusIsStandby(cfg, standby, pool, q);
  }

  lemma TrimsOfPoolsDiffer(cfg: Config, standby: map<string, seq<PodState>>, order: seq<string>, sweeps: seq<Target>,
                           s: Target, t: Target)
    requires standby.Keys <= cfg.Keys && NoRepeats(order) && (forall x :: x in order ==> x in standby) && order != []
    requires PoolsApart(standby, sweeps) && s in TrimsOf(cfg, standby, order[..|order| - 1])
    requires var pool := order[|order| - 1]; t in TargetsOf(Surplus(cfg, standby[pool], pool))
    ensures s.name != t.name
  {
    var n := |order| - 1;
    var other, p := TrimsAreStandby(cfg, standby, order[..n], s);
    var q := SurplusTarget(cfg, standby[order[n]], order[n], t);
    assert other != order[n];
    ApartByName(standby, sweeps, other, order[n], p, q);
  }

  lemma {:induction false} TrimsAreDistinct(cfg: Config, standby: map<string, seq<PodState>>, order: seq<string>,
                                            sweeps: seq<Target>)
    requires standby.Keys <= cfg.Keys && NoRepeats(order) && forall x :: x in order ==> x in standby
    requires PoolsApart(standby, sweeps)
    ensures DistinctTargets(TrimsOf(cfg, standby, order))
  {
    if order != [] {
      var n := |order| - 1;
      var pool := order[n];
      var trims, last := TrimsOf(cfg, standby, order[..n]), TargetsOf(Surplus(cfg, standby[pool], pool));
      TrimsAreDistinct(cfg, standby, order[..n], sweeps);
      SurplusIsDistinct(cfg, standby[pool], pool);
      forall s, t | s in trims && t in last ensures s.name != t.name {
        TrimsOfPoolsDiffer(cfg, standby, order, sweeps, s, t);
      }
      AppendDistinct(trims, last);
    }
  }

  /** A pod is never the target of two deletes. */
  lemma AllTargetsDiffer(cfg: Config, standby: map<string, seq<PodState>>, order: seq<string>, sweeps: seq<Target>)
    requires standby.Keys <= cfg.Keys && NoRepeats(order) && forall x :: x in order ==> x in standby
    requires PoolsApart(standby, sweeps) && DistinctTargets(sweeps)
    ensures DistinctTargets(sweeps + TrimsOf(cfg, standby, order))
  {
    TrimsAreDistinct(cfg, standby, order, sweeps);
    var trims := TrimsOf(cfg, standby, order);
    forall s, t | s in sweeps && t in trims ensures s.name != t.name {
      var pool, p := TrimsAreStandby(cfg, standby, order, t);
    }
    AppendDistinct(sweeps, trims);
  }

  lemma StandbyAreApart(cfg: Config, now: Time, pods: seq<PodState>, standby: map<string, seq<PodState>>,
                        sweeps: seq<Target>)
    requires Distinct(pods) && standby.Keys <= cfg.Keys
    requires forall pool :: pool in cfg ==> StandbyAt(standby, pool) == StandbyOf(cfg, now, pods, pool)
    requires forall t :: t in sweeps ==> SweptBy(cfg, now, pods, t)
    ensures PoolsApart(standby, sweeps)
  {
    forall pool | pool in standby ensures Distinct(standby[pool]) {
      assert standby[pool] == StandbyOf(cfg, now, pods, pool);
      StandbyOfDistinct(cfg, now, pods, pool);
    }
    forall a, p | a in standby && p in standby[a]
      ensures p in pods && p.pool == a && Classify(cfg, now, p) == Standby
    {
      assert standby[a] == StandbyOf(cfg, now, pods, a);
    }
    forall p, q | p in pods && q in pods && p != q ensures p.name != q.name {
      var i :| 0 <= i < |pods| && pods[i] == p;
      var j :| 0 <= j < |pods| && pods[j] == q;
      assert i < j || j < i;
    }
    forall a, p, t | a in standby && p in standby[a] && t in sweeps ensures p.name != t.name {
      var i :| 0 <= i < |pods| && Classify(cfg, now, pods[i]) == Sweep(t.reason) && t == TargetFor(pods[i], t.reason);
      assert pods[i] in pods && pods[i] != p;
    }
  }

  lemma {:induction false} StandbyOfDistinct(cfg: Config, now: Time, pods: seq<PodState>, pool: string)
    requires Distinct(pods)
    ensures Distinct(StandbyOf(cfg, now, pods, pool))
  {
    if pods != [] {
      var n := |pods| - 1;
      var rest := StandbyOf(cfg, now, pods[..n], pool);
      StandbyOfDistinct(cfg, now, pods[..n], pool);
      forall i | 0 <= i < |rest| ensures rest[i].name != pods[n].name {
        assert rest[i] in pods[..n];
      }
    }
  }

  lemma SortKeepsTargetsApart(all: seq<Target>, sorted: seq<Target>)
    requires DistinctTargets(all) && multiset(sorted) == multiset(all)
    ensures DistinctTargets(sorted)
  {
    assert NoRepeats(all);
    RepeatsStayAway(all, sorted);
    forall i, j | 0 <= i < j < |sorted| ensures sorted[i].name != sorted[j].name {
      assert sorted[i] in multiset(all) && sorted[j] in multiset(all);
      var k :| 0 <= k < |all| && all[k] == sorted[i];
      var l :| 0 <= l < |all| && all[l] == sorted[j];
      assert k < l || l < k;
    }
  }

  // ---------------------------------------------------------------- the order of deletes

  /** The reason as the source spells it. */
  function ReasonText(reason: Reason): string {
    match reason
    case Terminated => "terminated"
    case ExpiredLease => "expired-lease"
    case StaleTemplate => "stale-template"
    case StuckStandby => "stuck-standby"
    case SurplusStandby => "surplus-standby"
  }

  function Rank(reason: Reason): int {
    match reason
    case ExpiredLease => 0
    case StaleTemplate => 1
    case StuckStandby => 2
    case SurplusStandby => 3
    case Terminated => 4
  }

  lemma PartsAt(a: Reason, b: Reason, i: nat)
    requires PartAt(ReasonText(a), ReasonText(b), i)
    ensures NameLess(ReasonText(a), ReasonText(b))
  {
    NameLessMeans(ReasonText(a), ReasonText(b));
  }

  lemma {:induction false} TextsAscend(a: Reason, b: Reason)
    requires Rank(a) < Rank(b)
    ensures NameLess(ReasonText(a), ReasonText(b))
    decreases Rank(b)
  {
    if b == StaleTemplate {
      PartsAt(a, b, 0);
    } else {
      var c := match b case Terminated => SurplusStandby case SurplusStandby => StuckStandby case _ => StaleTemplate;
      PartsAt(c, b, match b case Terminated => 0 case SurplusStandby => 1 case _ => 2);
      if a != c {
        TextsAscend(a, c);
        NameLessIsTransitive(ReasonText(a), ReasonText(c), ReasonText(b));
      }
    }
  }

  /** Ranks order reasons as their texts sort. */
  lemma RanksAreTexts(a: Reason, b: Reason)
    ensures Rank(a) < Rank(b) <==> NameLess(ReasonText(a), ReasonText(b))
  {
    NameLessIsTotal(ReasonText(a), ReasonText(b));
    if Rank(a) < Rank(b) { TextsAscend(a, b); }
    if Rank(b) < Rank(a) { TextsAscend(b, a); }
  }

  /** The order of the delete loop: by reason, then by name. */
  predicate TargetLess(s: Target, t: Target) {
    if s.reason != t.reason then Rank(s.reason) < Rank(t.reason) else NameLess(s.name, t.name)
  }

  lemma TargetOrderIsStrict()
    ensures StrictOrder(TargetLess)
  {
    forall s, t | TargetLess(s, t) ensures !TargetLess(t, s) {
      NameLessIsTotal(s.name, t.name);
    }
    forall s, t, u | TargetLess(s, t) && !TargetLess(u, t) ensures TargetLess(s, u) {
      NameLessIsTotal(t.name, u.name);
      if s.reason == t.reason == u.reason && t.name != u.name {
        NameLessIsTransitive(s.name, t.name, u.name);
      }
    }
  }

  lemma SurplusIsStandby(cfg: Config, standby: seq<PodState>, pool: string, p: PodState)
    requires pool in cfg && p in Surplus(cfg, standby, pool)
    ensures p in standby
  {
    TrimOrderIsStrict();
    SortSorts(standby, TrimsBefore);
    assert p in multiset(Sort(standby, TrimsBefore));
  }

  lemma PlanIsComplete(cfg: Config, now: Time, pods: seq<PodState>, standby: map<string, seq<PodState>>, t: Target)
    requires standby.Keys <= cfg.Keys
    requires forall pool :: pool in cfg ==> StandbyAt(standby, pool) == StandbyOf(cfg, now, pods, pool)
    ensures Planned(cfg, now, pods, t) <==> SweptBy(cfg, now, pods, t) || TrimmedFrom(cfg, standby, standby.Keys, t)
  {
    if TrimmedFrom(cfg, standby, standby.Keys, t) {
      var pool :| pool in standby && TrimTarget(cfg, standby[pool], pool, t);
      var p :| p in Surplus(cfg, standby[pool], pool) && t == TargetFor(p, SurplusStandby);
      SurplusIsStandby(cfg, standby[pool], pool, p);
      assert p in StandbyOf(cfg, now, pods, pool);
      var i :| 0 <= i < |pods| && pods[i] == p;
      assert Doomed(cfg, now, pods, pods[i], t.reason);
    }
    if Planned(cfg, now, pods, t) {
      var i :| 0 <= i < |pods| && Doomed(cfg, now, pods, pods[i], t.reason) && t == TargetFor(pods[i], t.reason);
      if Classify(cfg, now, pods[i]) != Sweep(t.reason) {
        var pool := pods[i].pool;
        assert pods[i] in Surplus(cfg, StandbyOf(cfg, now, pods, pool), pool);
        SurplusIsStandby(cfg, StandbyOf(cfg, now, pods, pool), pool, pods[i]);
        assert pool in standby;
      }
    }
  }

  lemma TargetsDiffer(cfg: Config, now: Time, pods: seq<PodState>, standby: map<string, seq<PodState>>,
                      sweeps: seq<Target>, order: seq<string>, targets: seq<Target>)
    requires Distinct(pods) && standby.Keys <= cfg.Keys && DistinctTargets(sweeps)
    requires forall pool :: pool in cfg ==> StandbyAt(standby, pool) == StandbyOf(cfg, now, pods, pool)
    requires forall t :: t in sweeps ==> SweptBy(cfg, now, pods, t)
    requires NoRepeats(order) && forall pool :: pool in order <==> pool in standby
    requires multiset(targets) == multiset(sweeps + TrimsOf(cfg, standby, order))
    ensures DistinctTargets(targets)
  {
    StandbyAreApart(cfg, now, pods, standby, sweeps);
    AllTargetsDiffer(cfg, standby, order, sweeps);
    SortKeepsTargetsApart(sweeps + TrimsOf(cfg, standby, order), targets);
  }

  lemma PlannedTargets(cfg: Config, now: Time, pods: seq<PodState>, standby: map<string, seq<PodState>>,
                       sweeps: seq<Target>, order: seq<string>, targets: seq<Target>)
    requires standby.Keys <= cfg.Keys && forall pool :: pool in order <==> pool in standby
    requires forall pool :: pool in cfg ==> StandbyAt(standby, pool) == StandbyOf(cfg, now, pods, pool)
    requires forall t :: t in sweeps <==> SweptBy(cfg, now, pods, t)
    requires multiset(targets) == multiset(sweeps + TrimsOf(cfg, standby, order))
    ensures forall t :: t in targets <==> Planned(cfg, now, pods, t)
  {
    var all := sweeps + TrimsOf(cfg, standby, order);
    assert (set pool | pool in order) == standby.Keys;
    forall t ensures t in targets <==> Planned(cfg, now, pods, t) {
      PlanIsComplete(cfg, now, pods, standby, t);
      TrimsAre(cfg, standby, order, t);
      assert t in targets <==> t in multiset(targets);
      assert t in all <==> t in multiset(all);
    }
  }

  /** The deletes in order, and the sizes counted before trimming. */
  method TrimAndSort(cfg: Config, standby: map<string, seq<PodState>>, sweeps: seq<Target>)
    returns (targets: seq<Target>, sizes: map<string, nat>, ghost order: seq<string>)
    requires standby.Keys <= cfg.Keys
    ensures NoRepeats(order) && forall pool :: pool in order <==> pool in standby
    ensures multiset(targets) == multiset(sweeps + TrimsOf(cfg, standby, order)) && SortedBy(targets, TargetLess)
    ensures sizes.Keys == cfg.Keys && forall pool :: pool in cfg ==> sizes[pool] == |StandbyAt(standby, pool)|
  {
    var trimmed, all;
    trimmed, all, order := TrimPools(cfg, standby, sweeps);
    TargetOrderIsStrict();
    SortSorts(all, TargetLess);
    targets := Sort(all, TargetLess);
    sizes := map pool | pool in cfg :: |StandbyAt(trimmed, pool)|;
  }

  /** All a pass decides before its first call: the deletes, in order, and the
      number of standby pods each pool is counted with. */
  method Plan(cfg: Config, now: Time, pods: seq<PodState>)
    returns (targets: seq<Target>, sizes: map<string, nat>)
    ensures forall t :: t in targets <==> Planned(cfg, now, pods, t)
    ensures SortedBy(targets, TargetLess) && (Distinct(pods) ==> DistinctTargets(targets))
    ensures sizes.Keys == cfg.Keys
    ensures forall pool :: pool in cfg ==> sizes[pool] == |StandbyOf(cfg, now, pods, pool)|
  {
    var sweeps, standby := ClassifyPods(cfg, now, pods);
    ghost var order;
    targets, sizes, order := TrimAndSort(cfg, standby, sweeps);
    if Distinct(pods) { TargetsDiffer(cfg, now, pods, standby, sweeps, order, targets); }
    PlannedTargets(cfg, now, pods, standby, sweeps, order, targets);
  }
}
