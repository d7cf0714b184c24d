/** One reconcile pass: plan, delete, top up. */
module Reconcile {
  import opened Basics
  import opened PodTypes
  import opened PodPolicy
  import opened PodCache
  import opened ReconcilePlan
  import opened ApiServer
  import opened PodManager
  import opened Sorting

  // ---------------------------------------------------------------- what a pass is for

  /** A live, unclaimed pod of the pool's current template. */
  predicate Eligible(cfg: Config, pool: string, p: Pod) {
    && pool in cfg && p.pool == pool && p.templateHash == cfg[pool].templateHash
    && !p.terminating && !Terminal(p.phase) && !NonEmpty(p.claimed)
  }

  function Live(cfg: Config, pool: string, m: map<string, Pod>): set<string> {
    set n | n in m && Eligible(cfg, pool, m[n])
  }

  function StandbyNames(cfg: Config, now: Time, pool: string, m: map<string, Pod>): set<string> {
    set n | n in m && m[n].pool == pool && Classify(cfg, now, StateOf(m[n])) == Standby
  }

  /** Nothing is left to delete, and every pool has exactly its size. */
  ghost predicate Settled(cfg: Config, now: Time, m: map<string, Pod>) {
    && (forall n :: n in m ==> !Classify(cfg, now, StateOf(m[n])).Sweep?)
    && (forall pool :: pool in cfg ==> |StandbyNames(cfg, now, pool, m)| == Desired(cfg, pool))
  }

  /** `pods` lists the store: every pod once, in any order. */
  ghost predicate Listing(pods: seq<PodState>, m: map<string, Pod>) {
    && Keyed(m) && Distinct(pods)
    && (forall p :: p in pods ==> p.name in m && p == StateOf(m[p.name]))
    && (forall n :: n in m ==> StateOf(m[n]) in pods)
  }

  // ---------------------------------------------------------------- the delete loop

  /** `m1` is `m0` after doomed pods went or were marked, all else untouched. */
  ghost predicate SweptFrom(m0: map<string, Pod>, m1: map<string, Pod>, gone: set<string>) {
    && m1.Keys <= m0.Keys
    && (forall n :: n in m0 && n !in gone ==> n in m1 && m1[n] == m0[n])
    && (forall n :: n in m1 && n in gone ==> m1[n].terminating && m1[n].name == n)
  }

  ghost predicate Matching(targets: seq<Target>, m: map<string, Pod>) {
    forall t :: t in targets ==> t.name in m && m[t.name].version == t.version
  }

  function Names(targets: seq<Target>): set<string> {
    set t | t in targets :: t.name
  }

  /** No pool has live pods in `m'` that it did not have in `m`, nor any of `gone`. */
  ghost predicate Shrinks(cfg: Config, m: map<string, Pod>, m': map<string, Pod>, gone: set<string>) {
    forall pool :: pool in cfg ==> Live(cfg, pool, m') <= Live(cfg, pool, m) - gone
  }

  lemma DriftShrinks(cfg: Config, m0: map<string, Pod>, m: map<string, Pod>, m': map<string, Pod>, gone: set<string>)
    requires Shrinks(cfg, m0, m, gone) && Drifts(m, m')
    ensures Shrinks(cfg, m0, m', gone)
  {
    forall pool, n | pool in cfg && n in Live(cfg, pool, m') ensures n in Live(cfg, pool, m0) - gone {
      assert n in Live(cfg, pool, m);
    }
  }

  lemma DoomShrinks(cfg: Config, m0: map<string, Pod>, m: map<string, Pod>, name: string, w: World, k: nat,
                    gone: set<string>)
    requires Shrinks(cfg, m0, m, gone) && name in m
    ensures Shrinks(cfg, m0, Doom(m, name, w, k), gone + {name})
  {
    forall pool, n | pool in cfg && n in Live(cfg, pool, Doom(m, name, w, k))
      ensures n in Live(cfg, pool, m0) - (gone + {name})
    {
      assert n in Live(cfg, pool, m);
    }
  }

  /** The store after one round of the delete loop that starts with call `k`. */
  function AfterSweep(w: World, k: nat, m: map<string, Pod>, t: Target): map<string, Pod> {
    var done := AfterDelete(w, k, m, t.name, t.version);
    if CallOutcome(w, k, m, t.name, t.version) == Conflict then w.drift(k + 1, done) else done
  }

  lemma SweepShrinks(cfg: Config, m0: map<string, Pod>, m: map<string, Pod>, w: World, k: nat, t: Target,
                     gone: set<string>)
    requires Shrinks(cfg, m0, m, gone) && Keyed(m) && forall j, x :: Drifts(x, w.drift(j, x))
    ensures var m' := AfterSweep(w, k, m, t);
            && m'.Keys <= m.Keys && Keyed(m')
            && var accepted := CallOutcome(w, k, m, t.name, t.version) == Accepted;
               Shrinks(cfg, m0, m', if accepted then gone + {t.name} else gone)
  {
    var seen := w.drift(k, m);
    var done := AfterDelete(w, k, m, t.name, t.version);
    assert Drifts(m, seen) && Drifts(done, w.drift(k + 1, done));
    DriftShrinks(cfg, m0, m, seen, gone);
    if t.name in seen { DoomShrinks(cfg, m0, seen, t.name, w, k, gone); }
    if CallOutcome(w, k, m, t.name, t.version) == Conflict {
      DriftShrinks(cfg, m0, done, w.drift(k + 1, done), gone);
    }
  }

  lemma CalmSweep(m0: map<string, Pod>, m: map<string, Pod>, w: World, k: nat, t: Target, gone: set<string>)
    requires Calm(w) && Keyed(m0) && SweptFrom(m0, m, gone) && t.name in m0 && m0[t.name].version == t.version
    ensures SweptFrom(m0, AfterSweep(w, k, m, t), gone + {t.name})
    ensures t.name !in gone ==> CallOutcome(w, k, m, t.name, t.version) == Accepted
  {
  }

  ghost predicate SameElsewhere(before: Cache, after: Cache, name: string) {
    forall n :: n != name ==> Find(after, n) == Find(before, n)
  }

  /** What a Get as call `k`, which meets `pods`, does to the cache: a fetched pod is
      applied as an event, a missing one forgotten, a failure ignored. */
  ghost predicate Refreshes(w: World, k: nat, pods: map<string, Pod>, name: string, before: Cache, after: Cache) {
    if w.fails(k) then after == before
    else if name in pods then after == AfterEvent(before, Modified(pods[name]))
    else after == before - {name}
  }

  /** Repairs one cache entry after a delete lost a race. */
  method RefreshPod(m: Manager, api: Api, name: string)
    modifies m, api`pods, api`turn
    ensures api.turn == old(api.turn) + 1 && api.pods == api.world.drift(old(api.turn), old(api.pods))
    ensures Refreshes(api.world, old(api.turn), api.pods, name, old(m.View()), m.View())
    ensures Keyed(api.pods) ==> SameElsewhere(old(m.View()), m.View(), name)
  {
    var outcome, pod := api.Get(name);
    match outcome {
      case Accepted => m.ApplyEvent(Modified(pod.value));
      case NotFound => m.ForgetPod(name, NO_VERSION);
      case _ =>
    }
  }

  /** One round of the delete loop: a delete on the condition that the version is
      still the listed one, and what its answer does to the cache. */
  method SweepOne(m: Manager, api: Api, t: Target) returns (swept: bool)
    requires Keyed(api.pods) && forall j, x :: Drifts(x, api.world.drift(j, x))
    modifies m, api`pods, api`turn, api`deletes
    ensures api.turn > old(api.turn)
    ensures api.pods == AfterSweep(api.world, old(api.turn), old(api.pods), t)
    ensures swept == (CallOutcome(api.world, old(api.turn), old(api.pods), t.name, t.version) == Accepted)
    ensures SameElsewhere(old(m.View()), m.View(), t.name)
    ensures var outcome := CallOutcome(api.world, old(api.turn), old(api.pods), t.name, t.version);
            && api.deletes == old(api.deletes) + [DeleteCall(t.name, t.version, outcome)]
            && match outcome
               case Accepted => m.View() == Forgotten(old(m.View()), t.name, t.version)
               case NotFound => m.View() == old(m.View()) - {t.name}
               case Conflict =>
                 Refreshes(api.world, old(api.turn) + 1, api.pods, t.name, old(m.View()), m.View())
               case Refused => m.View() == old(m.View())
  {
    SweepShrinks(m.cfg, api.pods, api.pods, api.world, api.turn, t, {});
    var outcome := api.Delete(t.name, t.version);
    swept := outcome == Accepted;
    match outcome {
      case Accepted => m.ForgetPod(t.name, t.version);
      case NotFound => m.ForgetPod(t.name, NO_VERSION);
      case Conflict => RefreshPod(m, api, t.name);
      case Refused =>
    }
  }

  /** The cache without the entry of the given version, or of any version for the
      empty one. */
  function Forgotten(cache: Cache, name: string, version: ResourceVersion): Cache {
    if name in cache && (version == NO_VERSION || cache[name].version == version) then cache - {name} else cache
  }

  /** The names whose delete was answered Accepted since `past`. */
  ghost function AcceptedSince(past: seq<DeleteCall>, deletes: seq<DeleteCall>): set<string> {
    set i | |past| <= i < |deletes| && deletes[i].outcome == Accepted :: deletes[i].name
  }

  lemma OneMoreAccepted(past: seq<DeleteCall>, deletes: seq<DeleteCall>, call: DeleteCall)
    requires past <= deletes
    ensures AcceptedSince(past, deletes + [call])
            == if call.outcome == Accepted then AcceptedSince(past, deletes) + {call.name}
               else AcceptedSince(past, deletes)
  {
    var longer := deletes + [call];
    forall n | n in AcceptedSince(past, deletes) ensures n in AcceptedSince(past, longer) {
      var i :| |past| <= i < |deletes| && deletes[i].outcome == Accepted && deletes[i].name == n;
      assert longer[i] == deletes[i];
    }
    if call.outcome == Accepted { assert longer[|deletes|] == call; }
  }

  /** The deletes sent since `past`: one for each of the first `n` targets, in order,
      on the condition that its version is still the listed one. */
  ghost predicate DeletesSent(past: seq<DeleteCall>, deletes: seq<DeleteCall>, targets: seq<Target>, n: nat) {
    && past <= deletes && n <= |targets| && |deletes| == |past| + n
    && forall k :: |past| <= k < |deletes| ==>
         deletes[k].name == targets[k - |past|].name && deletes[k].version == targets[k - |past|].version
  }

  /** One round of the delete loop, seen from the start of the loop at `m0`. */
  lemma RoundKeeps(cfg: Config, m0: map<string, Pod>, m: map<string, Pod>, w: World, k: nat, targets: seq<Target>,
                   i: nat, swept: set<string>)
    requires i < |targets| && Shrinks(cfg, m0, m, swept) && Keyed(m0) && Keyed(m)
    requires forall j, x :: Drifts(x, w.drift(j, x))
    requires Calm(w) && Matching(targets, m0) ==> swept == Names(targets[..i]) && SweptFrom(m0, m, swept)
    ensures var t := targets[i]; var m' := AfterSweep(w, k, m, t);
            var swept' := if CallOutcome(w, k, m, t.name, t.version) == Accepted then swept + {t.name} else swept;
            && m'.Keys <= m.Keys && Keyed(m') && Shrinks(cfg, m0, m', swept')
            && Names(targets[..i + 1]) == Names(targets[..i]) + {t.name}
            && (Calm(w) && Matching(targets, m0) ==> swept' == Names(targets[..i + 1]) && SweptFrom(m0, m', swept'))
  {
    var t := targets[i];
    assert targets[..i + 1] == targets[..i] + [t];
    assert Names(targets[..i + 1]) == Names(targets[..i]) + {t.name};
    SweepShrinks(cfg, m0, m, w, k, t, swept);
    if Calm(w) && Matching(targets, m0) { CalmSweep(m0, m, w, k, t, swept); }
  }

  /** What holds before round `i` of the delete loop, seen from its start. */
  ghost predicate SweepingAt(cfg: Config, w: World, m0: map<string, Pod>, m: map<string, Pod>, past: seq<DeleteCall>,
                             deletes: seq<DeleteCall>, targets: seq<Target>, i: nat, swept: set<string>)
    requires i <= |targets|
  {
    && swept <= Names(targets[..i]) && Keyed(m) && m.Keys <= m0.Keys
    && DeletesSent(past, deletes, targets, i) && swept == AcceptedSince(past, deletes)
    && Shrinks(cfg, m0, m, swept)
    && (Calm(w) && Matching(targets, m0) ==> swept == Names(targets[..i]) && SweptFrom(m0, m, swept))
  }

  lemma SweptOneMore(cfg: Config, w: World, k: nat, m0: map<string, Pod>, m: map<string, Pod>, past: seq<DeleteCall>,
                     deletes: seq<DeleteCall>, targets: seq<Target>, i: nat, swept: set<string>)
    requires i < |targets| && SweepingAt(cfg, w, m0, m, past, deletes, targets, i, swept)
    requires Keyed(m0) && forall j, x :: Drifts(x, w.drift(j, x))
    ensures var t := targets[i];
            var outcome := CallOutcome(w, k, m, t.name, t.version);
            SweepingAt(cfg, w, m0, AfterSweep(w, k, m, t), past, deletes + [DeleteCall(t.name, t.version, outcome)],
                       targets, i + 1, if outcome == Accepted then swept + {t.name} else swept)
  {
    var t := targets[i];
    RoundKeeps(cfg, m0, m, w, k, targets, i, swept);
    OneMoreAccepted(past, deletes, DeleteCall(t.name, t.version, CallOutcome(w, k, m, t.name, t.version)));
  }

  /** The delete loop: one delete for each target, in order, whatever the answers.
      `swept` collects exactly the names whose delete was answered Accepted. */
  method SweepAll(m: Manager, api: Api, targets: seq<Target>) returns (swept: set<string>)
    requires Keyed(api.pods) && forall j, x :: Drifts(x, api.world.drift(j, x))
    modifies m, api`pods, api`turn, api`deletes
    ensures api.turn >= old(api.turn) && (targets == [] ==> api.turn == old(api.turn) && api.pods == old(api.pods))
    ensures swept <= Names(targets) && Keyed(api.pods) && api.pods.Keys <= old(api.pods).Keys
    ensures DeletesSent(old(api.deletes), api.deletes, targets, |targets|)
    ensures swept == AcceptedSince(old(api.deletes), api.deletes)
    ensures Shrinks(m.cfg, old(api.pods), api.pods, swept)
    ensures Calm(api.world) && Matching(targets, old(api.pods)) ==>
              swept == Names(targets) && SweptFrom(old(api.pods), api.pods, swept)
    ensures forall n :: n !in Names(targets) ==> Find(m.View(), n) == Find(old(m.View()), n)
  {
    swept := {};
    ghost var m0, past := api.pods, api.deletes;
    for i := 0 to |targets|
      invariant api.turn >= old(api.turn) && (i == 0 ==> api.turn == old(api.turn) && api.pods == m0)
      invariant SweepingAt(m.cfg, api.world, m0, api.pods, past, api.deletes, targets, i, swept)
      invariant forall n :: n !in Names(targets) ==> Find(m.View(), n) == Find(old(m.View()), n)
    {
      var t := targets[i];
      SweptOneMore(m.cfg, api.world, api.turn, m0, api.pods, past, api.deletes, targets, i, swept);
      var accepted := SweepOne(m, api, t);
      if accepted { swept := swept + {t.name}; }
    }
    assert targets[..|targets|] == targets;
  }

  // ---------------------------------------------------------------- the top-up loop

  /** The pods made for a pool; `made` maps a name to the pool it was made for. */
  function MadeFor(made: map<string, string>, pool: string): set<string> {
    set n | n in made && made[n] == pool
  }

  /** Live pods of `m` were live in `m0` or were made for their pool. */
  ghost predicate Grows(cfg: Config, m0: map<string, Pod>, m: map<string, Pod>, made: map<string, string>) {
    forall pool :: pool in cfg ==> Live(cfg, pool, m) <= Live(cfg, pool, m0) + MadeFor(made, pool)
  }

  predicate NewFor(cfg: Config, now: Time, pool: string, p: Pod) {
    && pool in cfg && p.pool == pool && p.templateHash == cfg[pool].templateHash
    && !p.terminating && (p.phase == Unset || p.phase == Phase.Pending)
    && p.claimed == Absent && p.createdAt > now - SECOND
  }

  /** `m` is `m0` and, besides, exactly the new pods of `made`. */
  ghost predicate Filled(cfg: Config, now: Time, m0: map<string, Pod>, m: map<string, Pod>, made: map<string, string>) {
    && m.Keys == m0.Keys + made.Keys && m0.Keys !! made.Keys
    && (forall n :: n in m0 ==> m[n] == m0[n])
    && (forall n :: n in made ==> NewFor(cfg, now, made[n], m[n]))
  }

  /** Names still to be given out are not in use, nor were given out before. */
  ghost predicate AllAhead(w: World, turn: nat, m: map<string, Pod>, made: map<string, string>, used: set<string>) {
    forall k :: k >= turn ==> w.names(k) !in m && w.names(k) !in made && w.names(k) !in used
  }

  /** What holds throughout the top-up loops. */
  ghost predicate ToppingUp(cfg: Config, now: Time, w: World, turn: nat,
                            m0: map<string, Pod>, m: map<string, Pod>, made: map<string, string>, used: set<string>) {
    && AllAhead(w, turn, m, made, used) && made.Keys !! used && Keyed(m) && Grows(cfg, m0, m, made)
    && (Calm(w) ==> Filled(cfg, now, m0, m, made))
  }

  lemma MadeForMore(made: map<string, string>, name: string, pool: string)
    requires name !in made
    ensures MadeFor(made[name := pool], pool) == MadeFor(made, pool) + {name}
    ensures forall p :: p != pool ==> MadeFor(made[name := pool], p) == MadeFor(made, p)
  {
  }

  lemma CreateGrows(cfg: Config, m0: map<string, Pod>, m: map<string, Pod>, made: map<string, string>,
                    w: World, k: nat, pool: string)
    requires Drifts(m, w.drift(k, m)) && Grows(cfg, m0, m, made) && pool in cfg && w.names(k) !in made
    ensures Grows(cfg, m0, AfterCreate(w, k, m, pool, cfg[pool].templateHash), made[w.names(k) := pool])
  {
    var name := w.names(k);
    var m' := AfterCreate(w, k, m, pool, cfg[pool].templateHash);
    MadeForMore(made, name, pool);
    forall p, n | p in cfg && n in Live(cfg, p, m') ensures n in Live(cfg, p, m0) + MadeFor(made[name := pool], p) {
      if n != name { assert n in Live(cfg, p, m); }
    }
  }

  lemma CalmCreateFills(cfg: Config, now: Time, m0: map<string, Pod>, m: map<string, Pod>, made: map<string, string>,
                        w: World, k: nat, pool: string)
    requires w.drift(k, m) == m && !w.fails(k) && Filled(cfg, now, m0, m, made) && pool in cfg && w.names(k) !in m
    requires (w.phase(k) == Unset || w.phase(k) == Phase.Pending) && w.birth(k) > now - SECOND
    ensures Filled(cfg, now, m0, AfterCreate(w, k, m, pool, cfg[pool].templateHash), made[w.names(k) := pool])
  {
  }

  lemma CreateKeepsUp(cfg: Config, now: Time, m0: map<string, Pod>, m: map<string, Pod>, made: map<string, string>,
                      used: set<string>, w: World, k: nat, pool: string)
    requires Admissible(w, now) && ToppingUp(cfg, now, w, k, m0, m, made, used) && pool in cfg
    ensures w.names(k) !in made
    ensures var m' := AfterCreate(w, k, m, pool, cfg[pool].templateHash);
            ToppingUp(cfg, now, w, k + 1, m0, m', made[w.names(k) := pool], used)
  {
    assert Drifts(m, w.drift(k, m));
    CreateGrows(cfg, m0, m, made, w, k, pool);
    if Calm(w) { CalmCreateFills(cfg, now, m0, m, made, w, k, pool); }
  }

  /** The creates sent for one pool, which lacks `need` pods: those between `before`
      and `after`. */
  datatype Batch = Batch(pool: string, need: nat, before: seq<CreateCall>, after: seq<CreateCall>)

  /** All creates of the pool's current template succeeded but the last; and there
      are as many as needed, unless the last one failed. */
  ghost predicate BatchOf(cfg: Config, b: Batch) {
    && b.before <= b.after && |b.after| <= |b.before| + b.need && b.pool in cfg
    && (forall k :: |b.before| <= k < |b.after| ==>
          b.after[k].pool == b.pool && b.after[k].hash == cfg[b.pool].templateHash)
    && (forall k :: |b.before| <= k < |b.after| - 1 ==> b.after[k].created)
    && (|b.after| < |b.before| + b.need ==> |b.after| > |b.before| && !b.after[|b.after| - 1].created)
  }

  /** All creates between `before` and `creates` are the pool's and succeeded. */
  ghost predicate AllCreated(cfg: Config, pool: string, before: seq<CreateCall>, creates: seq<CreateCall>) {
    && before <= creates && pool in cfg
    && forall k :: |before| <= k < |creates| ==>
         creates[k] == CreateCall(pool, cfg[pool].templateHash, true)
  }

  lemma OneMoreCreate(cfg: Config, pool: string, need: nat, before: seq<CreateCall>, creates: seq<CreateCall>,
                      created: bool)
    requires AllCreated(cfg, pool, before, creates) && |creates| < |before| + need
    ensures var more := creates + [CreateCall(pool, cfg[pool].templateHash, created)];
            if created then AllCreated(cfg, pool, before, more) else BatchOf(cfg, Batch(pool, need, before, more))
  {
    var more := creates + [CreateCall(pool, cfg[pool].templateHash, created)];
    assert forall k :: |before| <= k < |creates| ==> more[k] == creates[k];
  }

  lemma FullBatch(cfg: Config, pool: string, need: nat, before: seq<CreateCall>, creates: seq<CreateCall>)
    requires AllCreated(cfg, pool, before, creates) && |creates| == |before| + need
    ensures BatchOf(cfg, Batch(pool, need, before, creates))
  {
  }

  /** Creates one standby pod and records it at once. */
  method CreatePod(m: Manager, api: Api, pool: string) returns (ok: bool)
    requires pool in m.cfg
    modifies m, api`pods, api`turn, api`creates
    ensures api.creates == old(api.creates) + [CreateCall(pool, m.cfg[pool].templateHash, ok)]
    ensures api.turn == old(api.turn) + 1
    ensures api.pods == AfterCreate(api.world, old(api.turn), old(api.pods), pool, m.cfg[pool].templateHash)
    ensures ok == !api.world.fails(old(api.turn))
    ensures var w, k := api.world, old(api.turn);
            var made := NewPod(w.names(k), pool, m.cfg[pool].templateHash, w, k);
            m.View() == if ok then old(m.View())[w.names(k) := StateOf(made)] else old(m.View())
  {
    var created := api.Create(pool, m.cfg[pool].templateHash);
    ok := created.Some?;
    if ok {
      m.Decide(created.value.name, Replace(StateOf(created.value)));
    }
  }

  function Deficit(cfg: Config, sizes: map<string, nat>, pool: string): nat
    requires pool in cfg && sizes.Keys == cfg.Keys
  {
    Max(cfg[pool].count - sizes[pool], 0)
  }

  /** Every pool outside `todo` got its deficit at most, and exactly if all is calm. */
  ghost predicate Served(cfg: Config, sizes: map<string, nat>, calm: bool, made: map<string, string>, todo: set<string>)
    requires sizes.Keys == cfg.Keys
  {
    forall pool :: pool in cfg ==>
      var n := |MadeFor(made, pool)|;
      if pool in todo then MadeFor(made, pool) == {}
      else n <= Deficit(cfg, sizes, pool) && (calm ==> n == Deficit(cfg, sizes, pool))
  }

  ghost predicate NothingMissing(cfg: Config, sizes: map<string, nat>)
    requires sizes.Keys == cfg.Keys
  {
    forall pool :: pool in cfg ==> Deficit(cfg, sizes, pool) == 0
  }

  lemma ServeOne(cfg: Config, sizes: map<string, nat>, calm: bool, made: map<string, string>, more: map<string, string>,
                 todo: set<string>, pool: string)
    requires sizes.Keys == cfg.Keys && Served(cfg, sizes, calm, made, todo) && pool in cfg
    requires forall p :: p != pool ==> MadeFor(more, p) == MadeFor(made, p)
    requires |MadeFor(more, pool)| <= Deficit(cfg, sizes, pool)
    requires calm ==> |MadeFor(more, pool)| == Deficit(cfg, sizes, pool)
    ensures Served(cfg, sizes, calm, more, todo - {pool})
  {
  }

  /** One create for a pool that lacks pods; `before` were sent before the pool's
      turn. */
  method CreateNext(m: Manager, api: Api, pool: string, ghost need: nat, ghost before: seq<CreateCall>, ghost now: Time,
                    ghost m0: map<string, Pod>, ghost made: map<string, string>, ghost used: set<string>)
    returns (ok: bool, ghost more: map<string, string>)
    requires Admissible(api.world, now) && ToppingUp(m.cfg, now, api.world, api.turn, m0, api.pods, made, used)
    requires AllCreated(m.cfg, pool, before, api.creates) && |api.creates| < |before| + need
    modifies m, api`pods, api`turn, api`creates
    ensures |api.creates| == |old(api.creates)| + 1
    ensures if ok then AllCreated(m.cfg, pool, before, api.creates)
            else BatchOf(m.cfg, Batch(pool, need, before, api.creates)) && !Calm(api.world)
    ensures ToppingUp(m.cfg, now, api.world, api.turn, m0, api.pods, more, used)
    ensures |MadeFor(more, pool)| == |MadeFor(made, pool)| + 1
    ensures forall p :: p != pool ==> MadeFor(more, p) == MadeFor(made, p)
  {
    ghost var k := api.turn;
    CreateKeepsUp(m.cfg, now, m0, api.pods, made, used, api.world, k, pool);
    MadeForMore(made, api.world.names(k), pool);
    OneMoreCreate(m.cfg, pool, need, before, api.creates, !api.world.fails(k));
    ok := CreatePod(m, api, pool);
    more := made[api.world.names(k) := pool];
  }

  /** Fills one pool from its counted size up to its count; an error ends the
      pool. */
  method TopUpPool(m: Manager, api: Api, pool: string, size: nat, ghost need: nat, ghost now: Time,
                   ghost m0: map<string, Pod>, ghost made: map<string, string>, ghost used: set<string>)
    returns (ghost more: map<string, string>)
    requires pool in m.cfg && MadeFor(made, pool) == {} && need == Max(m.cfg[pool].count - size, 0)
    requires Admissible(api.world, now) && ToppingUp(m.cfg, now, api.world, api.turn, m0, api.pods, made, used)
    modifies m, api`pods, api`turn, api`creates
    ensures BatchOf(m.cfg, Batch(pool, need, old(api.creates), api.creates))
    ensures ToppingUp(m.cfg, now, api.world, api.turn, m0, api.pods, more, used)
    ensures forall p :: p != pool ==> MadeFor(more, p) == MadeFor(made, p)
    ensures |MadeFor(more, pool)| <= need && (Calm(api.world) ==> |MadeFor(more, pool)| == need)
    ensures size >= m.cfg[pool].count ==> api.turn == old(api.turn) && api.pods == old(api.pods)
  {
    more := made;
    var i := size;
    ghost var before := api.creates;
    while i < m.cfg[pool].count
      invariant size <= i <= Max(m.cfg[pool].count, size)
      invariant AllCreated(m.cfg, pool, before, api.creates) && |api.creates| == |before| + (i - size)
      invariant ToppingUp(m.cfg, now, api.world, api.turn, m0, api.pods, more, used)
      invariant forall p :: p != pool ==> MadeFor(more, p) == MadeFor(made, p)
      invariant |MadeFor(more, pool)| == i - size
      invariant size >= m.cfg[pool].count ==> api.turn == old(api.turn) && api.pods == old(api.pods)
    {
      var ok;
      ok, more := CreateNext(m, api, pool, need, before, now, m0, more, used);
      if !ok { return; }
      i := i + 1;
    }
    FullBatch(m.cfg, pool, need, before, api.creates);
  }

  /** One pool of the top-up loop. */
  method TopUpNext(m: Manager, api: Api, sizes: map<string, nat>, pool: string, ghost now: Time,
                   ghost m0: map<string, Pod>, ghost made: map<string, string>, ghost used: set<string>,
                   ghost todo: set<string>)
    returns (ghost more: map<string, string>)
    requires sizes.Keys == m.cfg.Keys && pool in m.cfg && pool in todo
    requires Admissible(api.world, now) && ToppingUp(m.cfg, now, api.world, api.turn, m0, api.pods, made, used)
    requires Served(m.cfg, sizes, Calm(api.world), made, todo)
    modifies m, api`pods, api`turn, api`creates
    ensures BatchOf(m.cfg, Batch(pool, Deficit(m.cfg, sizes, pool), old(api.creates), api.creates))
    ensures ToppingUp(m.cfg, now, api.world, api.turn, m0, api.pods, more, used)
    ensures Served(m.cfg, sizes, Calm(api.world), more, todo - {pool})
    ensures Deficit(m.cfg, sizes, pool) == 0 ==> api.turn == old(api.turn) && api.pods == old(api.pods)
  {
    more := TopUpPool(m, api, pool, sizes[pool], Deficit(m.cfg, sizes, pool), now, m0, made, used);
    ServeOne(m.cfg, sizes, Calm(api.world), made, more, todo, pool);
  }

  /** The creates sent since `past`: pool by pool, in the order of `names`, each pool
      that lacks pods getting its whole deficit or as far as its own last create,
      which failed. */
  ghost predicate CreatesSent(cfg: Config, sizes: map<string, nat>, past: seq<CreateCall>, creates: seq<CreateCall>,
                              names: seq<string>, batches: seq<Batch>)
    requires sizes.Keys == cfg.Keys
  {
    && |batches| == |names|
    && (forall i :: 0 <= i < |names| ==>
          && names[i] in cfg && BatchOf(cfg, batches[i])
          && batches[i].pool == names[i] && batches[i].need == Deficit(cfg, sizes, names[i]))
    && (batches != [] ==> batches[0].before == past)
    && (forall i :: 0 < i < |batches| ==> Follow(batches[i - 1], batches[i]))
    && creates == if batches == [] then past else batches[|batches| - 1].after
  }

  predicate Follow(a: Batch, b: Batch) {
    b.before == a.after
  }

  lemma OneMoreBatch(cfg: Config, sizes: map<string, nat>, past: seq<CreateCall>, creates: seq<CreateCall>,
                     names: seq<string>, batches: seq<Batch>, b: Batch)
    requires sizes.Keys == cfg.Keys && CreatesSent(cfg, sizes, past, creates, names, batches)
    requires b.pool in cfg && BatchOf(cfg, b) && b.before == creates && b.need == Deficit(cfg, sizes, b.pool)
    ensures CreatesSent(cfg, sizes, past, b.after, names + [b.pool], batches + [b])
  {
    var all := batches + [b];
    forall i | 0 < i < |all| ensures Follow(all[i - 1], all[i]) {
      if i < |batches| {
        assert Follow(batches[i - 1], batches[i]);
      } else {
        assert all[i - 1] == batches[|batches| - 1];
      }
    }
  }

  /** One round of the top-up loop. */
  method TopUpAt(m: Manager, api: Api, sizes: map<string, nat>, pools: seq<string>, i: nat, ghost now: Time,
                 ghost m0: map<string, Pod>, ghost made: map<string, string>, ghost used: set<string>,
                 ghost past: seq<CreateCall>, ghost batches: seq<Batch>)
    returns (ghost more: map<string, string>, ghost longer: seq<Batch>)
    requires sizes.Keys == m.cfg.Keys && i < |pools| && pools[i] in m.cfg && Ascending(pools)
    requires Admissible(api.world, now) && ToppingUp(m.cfg, now, api.world, api.turn, m0, api.pods, made, used)
    requires Served(m.cfg, sizes, Calm(api.world), made, NamesFrom(pools, i))
    requires CreatesSent(m.cfg, sizes, past, api.creates, pools[..i], batches)
    modifies m, api`pods, api`turn, api`creates
    ensures CreatesSent(m.cfg, sizes, past, api.creates, pools[..i + 1], longer)
    ensures ToppingUp(m.cfg, now, api.world, api.turn, m0, api.pods, more, used)
    ensures Served(m.cfg, sizes, Calm(api.world), more, NamesFrom(pools, i + 1))
    ensures NothingMissing(m.cfg, sizes) ==> api.turn == old(api.turn) && api.pods == old(api.pods)
  {
    NextName(pools, i);
    more := TopUpNext(m, api, sizes, pools[i], now, m0, made, used, NamesFrom(pools, i));
    ghost var b := Batch(pools[i], Deficit(m.cfg, sizes, pools[i]), old(api.creates), api.creates);
    OneMoreBatch(m.cfg, sizes, past, old(api.creates), pools[..i], batches, b);
    longer := batches + [b];
  }

  lemma TopUpStarts(cfg: Config, sizes: map<string, nat>, now: Time, w: World, turn: nat, m: map<string, Pod>,
                    used: set<string>, creates: seq<CreateCall>, pools: seq<string>)
    requires sizes.Keys == cfg.Keys && (forall pool :: pool in pools <==> pool in cfg)
    requires Keyed(m) && AllAhead(w, turn, m, map[], used)
    ensures ToppingUp(cfg, now, w, turn, m, m, map[], used)
    ensures Served(cfg, sizes, Calm(w), map[], NamesFrom(pools, 0))
    ensures CreatesSent(cfg, sizes, creates, creates, pools[..0], [])
    ensures pools[..|pools|] == pools && NamesFrom(pools, |pools|) == {}
  {
    assert pools[0..] == pools;
  }

  /** The top-up loop over all pools, by name. `made` says what was created for which. */
  method TopUp(m: Manager, api: Api, sizes: map<string, nat>, ghost now: Time, ghost used: set<string>)
    returns (ghost made: map<string, string>, ghost names: seq<string>, ghost batches: seq<Batch>)
    requires sizes.Keys == m.cfg.Keys
    requires Admissible(api.world, now) && Keyed(api.pods) && AllAhead(api.world, api.turn, api.pods, map[], used)
    modifies m, api`pods, api`turn, api`creates
    ensures Ascending(names) && (forall pool :: pool in names <==> pool in m.cfg)
    ensures CreatesSent(m.cfg, sizes, old(api.creates), api.creates, names, batches)
    ensures ToppingUp(m.cfg, now, api.world, api.turn, old(api.pods), api.pods, made, used)
    ensures Served(m.cfg, sizes, Calm(api.world), made, {})
    ensures NothingMissing(m.cfg, sizes) ==> api.turn == old(api.turn) && api.pods == old(api.pods)
  {
    made, batches := map[], [];
    var pools := SortedNames(m.cfg.Keys);
    names := pools;
    ghost var m0, past := api.pods, api.creates;
    TopUpStarts(m.cfg, sizes, now, api.world, api.turn, m0, used, past, pools);
    for i := 0 to |pools|
      invariant ToppingUp(m.cfg, now, api.world, api.turn, m0, api.pods, made, used)
      invariant Served(m.cfg, sizes, Calm(api.world), made, NamesFrom(pools, i))
      invariant CreatesSent(m.cfg, sizes, past, api.creates, pools[..i], batches)
      invariant NothingMissing(m.cfg, sizes) ==> api.turn == old(api.turn) && api.pods == m0
    {
      made, batches := TopUpAt(m, api, sizes, pools, i, now, m0, made, used, past, batches);
    }
  }

  function NamesFrom(names: seq<string>, i: nat): set<string>
    requires i <= |names|
  {
    set n | n in names[i..]
  }

  lemma NextName(names: seq<string>, i: nat)
    requires i < |names| && Ascending(names)
    ensures names[i] in NamesFrom(names, i) && NamesFrom(names, i + 1) == NamesFrom(names, i) - {names[i]}
    ensures names[..i + 1] == names[..i] + [names[i]]
  {
    assert names[i..] == [names[i]] + names[i + 1..];
    forall j | i < j < |names| ensures names[j] != names[i] {
      NameLessIsTotal(names[i], names[j]);
    }
    assert names[i] !in names[i + 1..];
  }
}
