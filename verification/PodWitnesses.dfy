/** Concrete runs showing where results cannot be stronger. */
module PodWitnesses {
  import opened Basics
  import opened PodTypes
  import opened PodCache
  import opened PodProtocol
  import opened PodSafety
  import opened PodConvergence

  ghost predicate Reaches(s: Sys) {
    exists run, steps :: IsRun(run, steps) && run[|run| - 1] == s
  }

  lemma Takes(s: Sys, step: Step, s': Sys)
    requires Reaches(s) && Enabled(s, step) && s' == Next(s, step)
    ensures Reaches(s')
  {
    var run, steps :| IsRun(run, steps) && run[|run| - 1] == s;
    RunExtends(run, steps, step, s');
    assert (run + [s'])[|run|] == s';
  }

  lemma RunExtends(run: seq<Sys>, steps: seq<Step>, step: Step, s': Sys)
    requires IsRun(run, steps) && Enabled(run[|steps|], step) && s' == Next(run[|steps|], step)
    ensures IsRun(run + [s'], steps + [step])
  {
    var longer, more := run + [s'], steps + [step];
    assert longer[0] == run[0];
    forall k | 0 <= k < |more| ensures Enabled(longer[k], more[k]) && longer[k + 1] == Next(longer[k], more[k]) {
      assert longer[k] == run[k];
      if k < |steps| {
        assert more[k] == steps[k] && longer[k + 1] == run[k + 1];
      } else {
        assert more[k] == step && longer[k + 1] == s';
      }
    }
  }

  // ---------------------------------------------------------------- one pod's versions

  const CFG: Config := map["p" := PoolConfig(1, "h")]

  const CREATED := Pod("a", "p", "h", "", Phase.Pending, [], false, Absent, Absent, Version(0), 0)
  const RUNNING :=
    CREATED.(ip := "ip", phase := Running, conditions := [Condition("Ready", "True")], version := Version(1))
  const MARKED := RUNNING.(claimed := Stamp(0), lease := Stamp(2), version := Version(2))
  const ENDING := MARKED.(terminating := true, version := Version(3))

  const LOG := [Wrote(CREATED), Wrote(RUNNING), Wrote(MARKED), Wrote(ENDING)]

  /** The store while its newest version of the only pod is `pod`, which is the
      record at position `at`. */
  function Stored(pod: Pod, at: nat): Server
    requires at < 4
  {
    Server(map["a" := pod], LOG[..at + 1])
  }

  function Entry(id: nat, pod: Pod): map<string, Slot> {
    map["a" := Slot(id, StateOf(pod))]
  }

  function Replicas(cache: map<string, Slot>, feed: Feed, cursor: nat): map<nat, Replica> {
    map[0 := Replica(CFG, cache, feed, cursor, {}, {})]
  }

  const LISTED := Listed(map["a" := StateOf(RUNNING)], 2)

  const READY := StatusUpdate("a", "ip", Running, [Condition("Ready", "True")])

  // ---------------------------------------------------------------- the common beginning

  function Start(): Sys { Sys(0, Server(map[], []), Replicas(map[], Idle, 0), map[], 0, []) }
  function Asked(): Sys { Start().(ops := map[0 := Creating(0, "p")], next := 1) }
  function Made(): Sys { Asked().(server := Stored(CREATED, 0), ops := map[0 := Created(0, CREATED)]) }

  lemma StartReached()
    ensures Reaches(Start())
  {
    assert IsRun([Start()], []);
  }

  lemma AskedReached()
    ensures Reaches(Asked())
  {
    StartReached();
    Takes(Start(), StartCreate(0, "p"), Asked());
  }

  lemma MadeReached()
    ensures Reaches(Made())
  {
    AskedReached();
    assert LOG[..1] == [Wrote(CREATED)];
    Takes(Asked(), ServeCreate(0, "a", Phase.Pending), Made());
  }

  // ---------------------------------------------------------------- a create answer that lands late

  function Ran(): Sys { Made().(server := Stored(RUNNING, 1)) }
  function Fetched(): Sys { Ran().(replicas := Replicas(map[], LISTED, 0)) }
  function Seen(): Sys { Ran().(replicas := Replicas(Entry(1, RUNNING), Watching, 2), next := 2) }

  lemma RanReached()
    ensures Reaches(Ran())
  {
    MadeReached();
    assert LOG[..2] == LOG[..1] + [Wrote(RUNNING)];
    Takes(Made(), READY, Ran());
  }

  lemma FetchedReached()
    ensures Reaches(Fetched())
  {
    RanReached();
    assert StatesOf(Stored(RUNNING, 1).pods) == map["a" := StateOf(RUNNING)];
    Takes(Ran(), ListFetch(0), Fetched());
  }

  lemma SeenReached()
    ensures Reaches(Seen())
  {
    FetchedReached();
    assert Installed(Fetched().replicas[0], 1).cache == Entry(1, RUNNING);
    Takes(Fetched(), ListInstall(0), Seen());
  }

  function Rewound(): Sys {
    Seen().(replicas := map[0 := Replica(CFG, Entry(2, CREATED), Watching, 2, {"a"}, {})], ops := map[], next := 3)
  }

  lemma SeenRewinds()
    ensures Enabled(Seen(), LandCreate(0)) && Rewinds(Seen(), LandCreate(0), 0, "a")
    ensures Next(Seen(), LandCreate(0)) == Rewound()
  {
    assert RecordOf(LOG[..2][1], "a");
    assert Later(LOG[..2], "a", 0, 2);
    assert Decided(Seen().replicas[0], LOG[..2], "a", Replace(StateOf(CREATED)), 2) == Rewound().replicas[0];
  }

  /** The answer of a create that lands after its pod was listed rewinds the
      entry. Before, the cache agreed with the store; after, nothing is in flight,
      every record is delivered, the watch runs, and the entry is an older version
      than the store's. */
  lemma LateCreateAnswerRewindsCache()
    ensures exists s: Sys :: Reaches(s) && AgreesAndRewinds(s) && EndsBehind(Next(s, LandCreate(0)))
  {
    SeenReached();
    SeenAgrees();
    SeenRewinds();
    assert EndsBehind(Rewound());
  }

  /** Cache and store agree, and the answer of a create that lands now rewinds the
      entry. */
  ghost predicate AgreesAndRewinds(s: Sys) {
    && 0 in s.replicas && AgreesAt(View(s.replicas[0].cache), s.server.pods, "a")
    && Enabled(s, LandCreate(0)) && Rewinds(s, LandCreate(0), 0, "a")
  }

  lemma SeenAgrees()
    ensures AgreesAndRewinds(Seen())
  {
    SeenRewinds();
    assert View(Seen().replicas[0].cache) == map["a" := StateOf(RUNNING)];
  }

  ghost predicate EndsBehind(s: Sys) {
    && s.ops == map[] && 0 in s.replicas && s.replicas[0].feed == Watching
    && s.replicas[0].cursor == |s.server.log| && "a" in s.server.pods && "a" in s.replicas[0].cache
    && Older(s.replicas[0].cache["a"].state.version, s.server.pods["a"].version)
  }

  // ---------------------------------------------------------------- a claim, its renewal and its release

  const KIND := Claim(CFG, "p")
  const LEASE := 2 * SECOND
  const GRANTED := [Claimed(3, CFG, "p", RUNNING, 0, LEASE, 2, 2)]
  const GIVEN := GRANTED + [Returned(3, "a")]

  function Kept(): Sys { Sys(0, Stored(CREATED, 0), Replicas(Entry(1, CREATED), Idle, 0), map[], 2, []) }
  function Up(): Sys { Kept().(server := Stored(RUNNING, 1)) }
  function Listing(): Sys { Up().(replicas := Replicas(Entry(1, CREATED), LISTED, 0)) }
  function Known(): Sys { Up().(replicas := Replicas(Entry(2, RUNNING), Watching, 2), next := 3) }
  function Picked(): Sys { Known().(ops := map[3 := Chosen(0, KIND, StateOf(RUNNING), LEASE, 0)], next := 4) }
  function SentOff(): Sys {
    Picked().(ops := map[3 := Patching(0, KIND, StateOf(RUNNING), LEASE, 0, Some(Slot(2, StateOf(RUNNING))))])
  }
  function Taken(): Sys {
    SentOff().(server := Stored(MARKED, 2), journal := GRANTED,
               ops := map[3 := Patched(0, KIND, Some(Slot(2, StateOf(RUNNING))), MARKED)])
  }
  function Told(): Sys { Taken().(replicas := Replicas(Entry(4, MARKED), Watching, 3), next := 5) }
  function Owned(): Sys { Told().(ops := map[], next := 6, journal := GIVEN) }

  lemma KeptReached()
    ensures Reaches(Kept())
  {
    MadeReached();
    assert Decided(Made().replicas[0], LOG[..1], "a", Replace(StateOf(CREATED)), 1) == Kept().replicas[0];
    Takes(Made(), LandCreate(0), Kept());
  }

  lemma UpReached()
    ensures Reaches(Up())
  {
    KeptReached();
    assert LOG[..2] == LOG[..1] + [Wrote(RUNNING)];
    Takes(Kept(), READY, Up());
  }

  lemma ListingReached()
    ensures Reaches(Listing())
  {
    UpReached();
    assert StatesOf(Stored(RUNNING, 1).pods) == map["a" := StateOf(RUNNING)];
    Takes(Up(), ListFetch(0), Listing());
  }

  lemma KnownReached()
    ensures Reaches(Known())
  {
    ListingReached();
    assert Installed(Listing().replicas[0], 2).cache == Entry(2, RUNNING);
    Takes(Listing(), ListInstall(0), Known());
  }

  lemma PickedReached()
    ensures Reaches(Picked())
  {
    KnownReached();
    assert Condition("Ready", "True") in RUNNING.conditions;
    Takes(Known(), PickClaim(0, "p", "a", LEASE), Picked());
  }

  lemma SentOffReached()
    ensures Reaches(SentOff())
  {
    PickedReached();
    Takes(Picked(), SendPatch(3, 0), SentOff());
  }

  lemma TakenReached()
    ensures Reaches(Taken())
  {
    SentOffReached();
    assert LOG[..3] == LOG[..2] + [Wrote(MARKED)];
    Takes(SentOff(), ServePatch(3), Taken());
  }

  lemma MarkedDelivered()
    ensures Delivered(Taken().replicas[0], Wrote(MARKED), 4) == Told().replicas[0]
    ensures Taken().server.log[2] == Wrote(MARKED)
  {
  }

  lemma ToldReached()
    ensures Reaches(Told())
  {
    TakenReached();
    MarkedDelivered();
    Takes(Taken(), Deliver(0), Told());
  }

  lemma ToldKeeps()
    ensures Enabled(Told(), LandPatch(3))
    ensures NextLandPatch(Told(), 3)
            == Store(Finish(Told(), 3), 0, "a", Keep).(journal := GRANTED + [Returned(3, "a")])
  {
  }

  lemma KeepsOwned()
    ensures Store(Finish(Told(), 3), 0, "a", Keep).(journal := GRANTED + [Returned(3, "a")]) == Owned()
  {
    assert Decided(Told().replicas[0], LOG[..3], "a", Keep, 5) == Owned().replicas[0];
  }

  lemma OwnedReached()
    ensures Reaches(Owned())
  {
    ToldReached();
    ToldKeeps();
    KeepsOwned();
    Takes(Told(), LandPatch(3), Owned());
  }

  function Renewing(): Sys { Owned().(ops := map[6 := Chosen(0, Renewal, StateOf(MARKED), SECOND, 0)], next := 7) }
  function Renewed(): Sys {
    Renewing().(ops := map[6 := Patching(0, Renewal, StateOf(MARKED), SECOND, 0, Some(Slot(4, StateOf(MARKED))))])
  }

  lemma RenewedReached()
    ensures Reaches(Renewed())
  {
    OwnedReached();
    Takes(Owned(), PickRenew(0, "a", SECOND), Renewing());
    Takes(Renewing(), SendPatch(6, 0), Renewed());
  }

  /** A renewal that is accepted may move the deadline back: asking for a second
      right after being granted two. */
  lemma RenewalMovesDeadlineBack()
    ensures exists s: Sys, id :: Reaches(s) && Enabled(s, ServePatch(id)) && s.ops[id].kind.Renewal?
              && PatchAccepted(s.server, s.ops[id]) && MovesBack(s, Next(s, ServePatch(id)), s.ops[id].st.name)
  {
    RenewedReached();
    assert MovesBack(Renewed(), Next(Renewed(), ServePatch(6)), "a");
  }

  function Leaving(): Sys { Owned().(ops := map[6 := Deleting(0, StateOf(MARKED), ByRelease, 0)], next := 7) }
  function Doomed(): Sys {
    Leaving().(server := Stored(ENDING, 3), ops := map[6 := Deleted(0, StateOf(MARKED), ByRelease, Accepted)],
               journal := GIVEN + [Act.Doomed(ByRelease, MARKED, 0)])
  }
  function Warned(): Sys { Doomed().(replicas := Replicas(Entry(7, ENDING), Watching, 4), next := 8) }

  lemma LeavingReached()
    ensures Reaches(Leaving())
  {
    OwnedReached();
    Takes(Owned(), StartRelease(0, "a"), Leaving());
  }

  lemma DoomedReached()
    ensures Reaches(Doomed())
  {
    LeavingReached();
    assert LOG[..4] == LOG[..3] + [Wrote(ENDING)];
    Takes(Leaving(), ServeDelete(6, false), Doomed());
  }

  lemma EndingDelivered()
    ensures Delivered(Doomed().replicas[0], Wrote(ENDING), 7) == Warned().replicas[0]
    ensures Doomed().server.log[3] == Wrote(ENDING)
  {
  }

  lemma WarnedReached()
    ensures Reaches(Warned())
  {
    DoomedReached();
    EndingDelivered();
    Takes(Doomed(), Deliver(0), Warned());
  }

  function Dropped(): Sys {
    Warned().(replicas := map[0 := Replica(CFG, map[], Watching, 4, {}, {"a"})], ops := map[], next := 9)
  }

  lemma LogHoldsPod()
    ensures LOG[..4] == LOG && Present(LOG, "a", 4) && !PodConvergence.Pending(LOG, "a", 4)
  {
    assert RecordOf(LOG[0], "a");
  }

  lemma WarnedLands()
    ensures Enabled(Warned(), LandDelete(6)) && Lands(Warned(), LandDelete(6))
    ensures LandingOf(Warned(), LandDelete(6)) == Landing(0, "a", Remove)
    ensures Next(Warned(), LandDelete(6)) == Store(Finish(Warned(), 6), 0, "a", Remove)
  {
  }

  lemma WarnedDrops()
    ensures Enabled(Warned(), LandDelete(6)) && DropsForGood(Warned(), LandDelete(6), 0, "a")
  {
    WarnedLands();
    LogHoldsPod();
  }

  lemma StoreDrops()
    ensures Store(Finish(Warned(), 6), 0, "a", Remove) == Dropped()
  {
    LogHoldsPod();
    assert Decided(Warned().replicas[0], LOG, "a", Remove, 8) == Dropped().replicas[0];
  }

  lemma WarnedToDropped()
    ensures Enabled(Warned(), LandDelete(6)) && Next(Warned(), LandDelete(6)) == Dropped()
  {
    WarnedLands();
    StoreDrops();
  }

  ghost predicate EndsWithout(s: Sys) {
    && s.ops == map[] && 0 in s.replicas && s.replicas[0].feed == Watching
    && s.replicas[0].cursor == |s.server.log| && s.replicas[0].late == {}
    && "a" in s.server.pods && s.server.pods["a"].terminating && "a" !in s.replicas[0].cache
    && exists act :: act in s.journal && act.Doomed? && act.cause == ByRelease && act.pod.name == "a"
  }

  /** The answer of a release that lands after the watch showed the deletion mark
      drops the entry for good: nothing is in flight, every record is delivered, no
      entry is late, and the stored, terminating, released pod is not cached. */
  lemma ReleasedPodMayBeUncached()
    ensures exists s: Sys :: Reaches(s) && 0 in s.replicas && Enabled(s, LandDelete(6))
              && DropsForGood(s, LandDelete(6), 0, "a") && EndsWithout(Next(s, LandDelete(6)))
  {
    WarnedReached();
    WarnedDrops();
    WarnedToDropped();
    assert Dropped().journal[2] in Dropped().journal && Dropped().journal[2].Doomed?;
    assert EndsWithout(Dropped());
  }
}
