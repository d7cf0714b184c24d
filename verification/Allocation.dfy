/** What clients ask of the pod manager: a sandbox, more time for it, its end. */
module Allocation {
  import opened Basics
  import opened PodTypes
  import opened PodPolicy
  import opened PodCache
  import opened ApiServer
  import opened PodManager
  import opened Sorting

  datatype Failure = UnknownPool | NoSandboxAvailable | NotFound | NotAllocated | ApiFailed

  datatype Answer = Given(state: PodState) | Denied(why: Failure)

  /** The rest of the world may do anything, also create pods, but stores every
      pod under its name. */
  ghost predicate KeepsNames(w: World) {
    forall k, m :: ApiServer.Keyed(m) ==> ApiServer.Keyed(w.drift(k, m))
  }

  /** The pod manager's own checks as answers. */
  function AnswerOf(r: Result): Answer {
    match r
    case Ok(state) => Given(state)
    case Err(SandboxNotFound) => Denied(Failure.NotFound)
    case Err(SandboxNotAllocated) => Denied(NotAllocated)
  }

  /** The error for a sandbox that may not be renewed or released. */
  function WhyNot(cache: Cache, name: string): Failure {
    if name in cache && !cache[name].claimed then NotAllocated else Failure.NotFound
  }

  /** The state promised to a client is the stored pod, claimed, with a lease less
      than a second short of the time of the request plus the lease asked for. */
  predicate Promised(m: map<string, Pod>, state: PodState, now: Time, lease: Time) {
    && state.name in m && state == StateOf(m[state.name]) && state.claimed
    && state.leaseExpires <= now + lease < state.leaseExpires + SECOND
  }

  /** What a patch sent while the cache was `before` leaves of it: the events that
      arrived meanwhile, then the answer. */
  function AfterAnswer(before: Cache, meanwhile: seq<Event>, name: string, state: Option<PodState>): Cache {
    var heard := AfterEvents(before, meanwhile);
    if state.None? then heard
    else
      var untouched := name in before && LeaveAlone(before, meanwhile, name);
      Apply(heard, name, OnPatched(Find(heard, name), untouched, state.value))
  }

  /** The entry under a name, whose reference is its identity. */
  ghost predicate EntryIs(m: Manager, name: string, before: Entry?)
    reads m
  {
    before == if name in m.pods then m.pods[name] else null
  }

  /** From request to answer: the events that arrive meanwhile, then the answer, if
      the patch was accepted. */
  method MirrorAnswer(m: Manager, before: Entry?, name: string, meanwhile: seq<Event>, answer: Option<Pod>)
    returns (state: Option<PodState>)
    requires EntryIs(m, name, before) && (answer.Some? ==> answer.value.name == name)
    modifies m
    ensures state == if answer.Some? then Some(StateOf(answer.value)) else None
    ensures m.View() == AfterAnswer(old(m.View()), meanwhile, name, state)
  {
    ghost var cache := m.View();
    m.ApplyEvents(meanwhile);
    if answer.None? { return None; }
    assert (name in m.pods && m.pods[name] == before)
        == (name in m.pods && name in cache && LeaveAlone(cache, meanwhile, name));
    assert Find(m.View(), name) == Find(AfterEvents(cache, meanwhile), name);
    var next := m.MirrorPatch(before, answer.value);
    state := Some(next);
  }

  /** One metadata patch and the mirroring of its answer; `meanwhile` are the events
      that reach the cache between request and answer. */
  method PatchPod(m: Manager, api: Api, name: string, version: ResourceVersion, patch: Patch, meanwhile: seq<Event>)
    returns (outcome: Outcome, state: Option<PodState>)
    requires Keyed(api.pods) && KeepsNames(api.world)
    modifies m, api
    ensures api.turn == old(api.turn) + 1 && Keyed(api.pods)
    ensures outcome == CallOutcome(api.world, old(api.turn), old(api.pods), name, version)
    ensures api.pods == AfterPatch(api.world, old(api.turn), old(api.pods), name, version, patch)
    ensures api.patches == old(api.patches) + [PatchCall(name, version, patch, outcome)]
    ensures api.claims == if patch.claim && TakesEffect(api.world, old(api.turn), old(api.pods), name, version)
                          then old(api.claims) + [api.world.drift(old(api.turn), old(api.pods))[name]]
                          else old(api.claims)
    ensures state == if outcome == Accepted then Some(StateOf(api.pods[name])) else None
    ensures m.View() == AfterAnswer(old(m.View()), meanwhile, name, state)
  {
    assert Keyed(api.world.drift(api.turn, api.pods));
    var before: Entry? := if name in m.pods then m.pods[name] else null;
    var pod;
    outcome, pod := api.Patch(name, version, patch);
    assert Keyed(api.pods);
    state := MirrorAnswer(m, before, name, meanwhile, pod);
  }

  predicate LostRace(outcome: Outcome) {
    outcome == Conflict || outcome == Outcome.NotFound
  }

  /** The patches sent between `before` and `after`, from call `turn` on: one claim
      for each of the first offers, in order, on the condition that its version is
      still the one offered; all but the last lost their race. */
  ghost predicate ClaimsSent(before: seq<PatchCall>, after: seq<PatchCall>, offers: seq<PodState>, turn: nat,
                             now: nat -> Time, lease: Time)
  {
    && before <= after && |after| <= |before| + |offers|
    && (forall k :: |before| <= k < |after| ==>
          var i := k - |before|;
          after[k].name == offers[i].name && after[k].version == offers[i].version
          && after[k].patch == Patch.Patch(true, now(turn + i), lease))
    && (forall k :: |before| <= k < |after| - 1 ==> LostRace(after[k].outcome))
  }

  /** How these claims ended: every offer tried and every race lost, or the last
      claim accepted, or refused. */
  predicate Ended(before: seq<PatchCall>, after: seq<PatchCall>, offers: seq<PodState>, answer: Option<Answer>) {
    match answer
    case None =>
      |after| == |before| + |offers| && (|after| > |before| ==> LostRace(after[|after| - 1].outcome))
    case Some(Given(_)) => |after| > |before| && after[|after| - 1].outcome == Accepted
    case Some(Denied(why)) => |after| > |before| && after[|after| - 1].outcome == Refused && why == ApiFailed
  }

  /** A claim that was accepted: the stored pod as it was just before, the offer the
      claim was made for, and when it was made. */
  datatype Win = Win(met: Pod, offer: PodState, now: Time)

  /** The pod met becomes the one promised: it has the version of the offer, and
      only its marks and version change. */
  ghost predicate Claimed(win: Win, m: map<string, Pod>, state: PodState, lease: Time) {
    var met, offer := win.met, win.offer;
    && met.name == offer.name == state.name && (offer.version == NO_VERSION || met.version == offer.version)
    && Promised(m, state, win.now, lease)
    && var pod := m[state.name];
       pod == met.(claimed := pod.claimed, lease := pod.lease, version := pod.version)
  }

  /** The last of these claims won: it was of an offered pod, and sent when the lease
      is counted from. */
  ghost predicate Won(before: seq<PatchCall>, after: seq<PatchCall>, offers: seq<PodState>, win: Win,
                      m: map<string, Pod>, state: PodState, lease: Time)
  {
    && |before| < |after| <= |before| + |offers|
    && win.offer == offers[|after| - |before| - 1] && win.now == after[|after| - 1].patch.now
    && Claimed(win, m, state, lease)
  }

  lemma OneMoreClaim(before: seq<PatchCall>, after: seq<PatchCall>, call: PatchCall, offers: seq<PodState>, turn: nat,
                     now: nat -> Time, lease: Time)
    requires ClaimsSent(before, after, offers, turn, now, lease) && |after| < |before| + |offers|
    requires |after| > |before| ==> LostRace(after[|after| - 1].outcome)
    requires var i := |after| - |before|;
             call.name == offers[i].name && call.version == offers[i].version
             && call.patch == Patch.Patch(true, now(turn + i), lease)
    ensures ClaimsSent(before, after + [call], offers, turn, now, lease)
  {
    forall k | |before| <= k < |after| ensures LostRace((after + [call])[k].outcome) {
      assert (after + [call])[k] == after[k];
    }
  }

  /** One claim of an offered pod, on the condition that its version is still the
      one offered. */
  method Claim(m: Manager, api: Api, st: PodState, now: Time, lease: Time, meanwhile: seq<Event>)
    returns (outcome: Outcome, state: Option<PodState>, ghost win: Option<Win>)
    requires Keyed(api.pods) && KeepsNames(api.world)
    modifies m, api
    ensures Keyed(api.pods) && api.turn == old(api.turn) + 1
    ensures api.patches == old(api.patches) + [PatchCall(st.name, st.version, Patch.Patch(true, now, lease), outcome)]
    ensures outcome == Accepted <==> state.Some?
    ensures outcome == Accepted ==>
              && win.Some? && win.value.offer == st && win.value.now == now
              && api.claims == old(api.claims) + [win.value.met] && Claimed(win.value, api.pods, state.value, lease)
    ensures LostRace(outcome) ==> api.claims == old(api.claims) && m.View() == AfterEvents(old(m.View()), meanwhile)
    ensures old(api.claims) <= api.claims && |api.claims| <= |old(api.claims)| + 1
  {
    assert Keyed(api.world.drift(api.turn, api.pods));
    ghost var seen := api.world.drift(api.turn, api.pods);
    win := if st.name in seen then Some(Win(seen[st.name], st, now)) else None;
    outcome, state := PatchPod(m, api, st.name, st.version, Patch.Patch(true, now, lease), meanwhile);
  }

  /** One round over the candidates: the first claim that is accepted wins, a lost
      race moves on, any other failure ends the round. `now` is the clock at each
      call, `events` reach the cache during it, and `heard` collects those that came
      before the last call. */
  method TryCandidates(m: Manager, api: Api, candidates: seq<PodState>, now: nat -> Time, lease: Time,
                       events: nat -> seq<Event>)
    returns (answer: Option<Answer>, ghost heard: seq<Event>, ghost win: Option<Win>)
    requires Keyed(api.pods) && KeepsNames(api.world)
    modifies m, api
    ensures Keyed(api.pods) && ClaimsSent(old(api.patches), api.patches, candidates, old(api.turn), now, lease)
    ensures Ended(old(api.patches), api.patches, candidates, answer)
    ensures api.turn == old(api.turn) + |api.patches| - |old(api.patches)|
    ensures answer == None ==> api.claims == old(api.claims) && m.View() == AfterEvents(old(m.View()), heard)
    ensures answer.Some? && answer.value.Given? ==>
              && win.Some? && api.claims == old(api.claims) + [win.value.met]
              && Won(old(api.patches), api.patches, candidates, win.value, api.pods, answer.value.state, lease)
    ensures old(api.claims) <= api.claims && |api.claims| <= |old(api.claims)| + 1
  {
    heard, win := [], None;
    ghost var before := api.patches;
    for i := 0 to |candidates|
      invariant Keyed(api.pods) && api.claims == old(api.claims)
      invariant |api.patches| == |before| + i && api.turn == old(api.turn) + i
      invariant ClaimsSent(before, api.patches, candidates, old(api.turn), now, lease)
      invariant i > 0 ==> LostRace(api.patches[|api.patches| - 1].outcome)
      invariant m.View() == AfterEvents(old(m.View()), heard)
    {
      var st := candidates[i];
      var meanwhile := events(api.turn);
      ghost var sent, patch := api.patches, Patch.Patch(true, now(api.turn), lease);
      EventsAppend(old(m.View()), heard, meanwhile);
      var outcome, state;
      outcome, state, win := Claim(m, api, st, now(api.turn), lease, meanwhile);
      OneMoreClaim(before, sent, PatchCall(st.name, st.version, patch, outcome), candidates, old(api.turn), now, lease);
      match outcome {
        case Accepted => return Some(Given(state.value)), heard, win;
        case Refused => return Some(Denied(ApiFailed)), heard, win;
        case _ => heard := heard + meanwhile;
      }
    }
    answer := None;
  }

  lemma {:induction false} EventsAppend(cache: Cache, a: seq<Event>, b: seq<Event>)
    ensures AfterEvents(cache, a + b) == AfterEvents(AfterEvents(cache, a), b)
  {
    if b == [] {
      assert a + b == a;
    } else {
      var n := |b| - 1;
      assert (a + b)[..|a| + n] == a + b[..n] && (a + b)[|a| + n] == b[n];
      EventsAppend(cache, a, b[..n]);
    }
  }

  /** A round of an allocation: the events heard before it began, the pods it
      offers, the call it began with, and the patches sent before and after it. */
  datatype Round = Round(heard: seq<Event>, offers: seq<PodState>, turn: nat, before: seq<PatchCall>,
                         after: seq<PatchCall>)

  /** The offers are the claimable pods of the pool that the cache shows, by name. */
  ghost predicate OffersOf(cache: Cache, cfg: Config, pool: string, offers: seq<PodState>) {
    SortedBy(offers, ByName) && forall p :: p in offers <==> p in cache.Values && Candidate(cfg, pool, p)
  }

  /** The round offers what the cache shows when it begins, and claims it in order. */
  ghost predicate RoundOf(cache: Cache, cfg: Config, pool: string, round: Round, now: nat -> Time, lease: Time) {
    && OffersOf(AfterEvents(cache, round.heard), cfg, pool, round.offers)
    && ClaimsSent(round.before, round.after, round.offers, round.turn, now, lease)
  }

  ghost predicate AllRounds(cache: Cache, cfg: Config, pool: string, rounds: seq<Round>, now: nat -> Time,
                            lease: Time)
  {
    forall round :: round in rounds ==> RoundOf(cache, cfg, pool, round, now, lease)
  }

  /** Rounds follow one another, and all but the last lose every race. */
  predicate InTurn(rounds: seq<Round>, patches: seq<PatchCall>) {
    && (rounds != [] ==> rounds[0].before == patches)
    && (forall i :: 0 < i < |rounds| ==> NextRound(rounds[i - 1], rounds[i]))
  }

  predicate NextRound(last: Round, next: Round) {
    next.before == last.after && Ended(last.before, last.after, last.offers, None)
  }

  /** The patches sent by the end of the rounds. */
  function SentBy(rounds: seq<Round>, patches: seq<PatchCall>): seq<PatchCall> {
    if rounds == [] then patches else rounds[|rounds| - 1].after
  }

  /** Every round so far lost all its races. */
  ghost predicate AllLost(rounds: seq<Round>) {
    rounds != [] ==> var last := rounds[|rounds| - 1]; Ended(last.before, last.after, last.offers, None)
  }

  lemma OneMoreRound(rounds: seq<Round>, patches: seq<PatchCall>, round: Round)
    requires InTurn(rounds, patches) && AllLost(rounds) && round.before == SentBy(rounds, patches)
    ensures InTurn(rounds + [round], patches) && SentBy(rounds + [round], patches) == round.after
  {
    var all := rounds + [round];
    forall i | 0 < i < |all| ensures NextRound(all[i - 1], all[i]) {
      if i < |rounds| {
        assert NextRound(rounds[i - 1], rounds[i]);
      } else {
        assert all[i - 1] == rounds[|rounds| - 1];
      }
    }
  }

  /** Cached versions tell: an entry of the pod at its version is the pod. */
  ghost predicate VersionsTell(cache: Cache, pod: Pod) {
    forall st :: st in cache.Values && st.name == pod.name ==>
      st.version != NO_VERSION && (st.version == pod.version ==> st == StateOf(pod))
  }

  /** The claimed pod was offered by the cache for the pool asked for; and it was
      free when it was claimed, if versions tell pods. */
  ghost predicate WasOffered(cache: Cache, cfg: Config, pool: string, win: Win) {
    && win.offer in cache.Values && Candidate(cfg, pool, win.offer)
    && (VersionsTell(cache, win.met) ==> Free(cfg, pool, win.met))
  }

  lemma ClaimedWasFree(win: Win, cache: Cache, cfg: Config, pool: string, offers: seq<PodState>)
    requires win.met.name == win.offer.name
    requires win.offer.version == NO_VERSION || win.met.version == win.offer.version
    requires win.offer in offers && OffersOf(cache, cfg, pool, offers)
    ensures WasOffered(cache, cfg, pool, win)
  {
  }

  /** One round: the candidates of the moment are tried. */
  method TryRound(m: Manager, api: Api, pool: string, now: nat -> Time, lease: Time, events: nat -> seq<Event>,
                  ghost heard: seq<Event>)
    returns (answer: Option<Answer>, ghost more: seq<Event>, ghost round: Round, ghost win: Option<Win>)
    requires Keyed(api.pods) && KeepsNames(api.world) && pool in m.cfg
    modifies m, api
    ensures Keyed(api.pods) && api.turn == old(api.turn) + |api.patches| - |old(api.patches)|
    ensures round == Round(heard, round.offers, old(api.turn), old(api.patches), api.patches)
    ensures OffersOf(old(m.View()), m.cfg, pool, round.offers)
    ensures ClaimsSent(round.before, round.after, round.offers, round.turn, now, lease)
    ensures Ended(round.before, round.after, round.offers, answer)
    ensures answer == None ==> api.claims == old(api.claims) && m.View() == AfterEvents(old(m.View()), more)
    ensures answer.Some? && answer.value.Given? ==>
              && win.Some? && api.claims == old(api.claims) + [win.value.met]
              && Won(round.before, round.after, round.offers, win.value, api.pods, answer.value.state, lease)
              && WasOffered(old(m.View()), m.cfg, pool, win.value)
    ensures old(api.claims) <= api.claims && |api.claims| <= |old(api.claims)| + 1
  {
    ghost var cache := m.View();
    var candidates := m.Candidates(pool);
    round := Round(heard, candidates, api.turn, api.patches, api.patches);
    answer, more, win := TryCandidates(m, api, candidates, now, lease, events);
    round := round.(after := api.patches);
    if answer.Some? && answer.value.Given? { ClaimedWasFree(win.value, cache, m.cfg, pool, candidates); }
  }

  /** Allocation: rounds over the claimable pods until one claim is accepted, the
      API fails or patience runs out. `events` reach the cache during each call and
      `pauses` between rounds, and the rest of the world may do anything, such as
      topping up the pool. The calls sent are one conditioned claim for each pod
      offered, round by round, up to the first that does not lose its race; so a call
      that finds nothing tried every pod of every round. A call never claims more
      than one pod; an accepted claim is the one returned, of a pod that the cache
      offered for the pool asked for when its round began, at that very version:
      free when it was claimed, if versions tell pods. */
  method Allocate(m: Manager, api: Api, pool: string, now: nat -> Time, lease: Time, patience: nat,
                  events: nat -> seq<Event>, pauses: nat -> seq<Event>)
    returns (answer: Answer, ghost heard: seq<Event>, ghost rounds: seq<Round>, ghost win: Option<Win>)
    requires Keyed(api.pods) && KeepsNames(api.world)
    modifies m, api
    ensures Keyed(api.pods) && api.turn == old(api.turn) + |api.patches| - |old(api.patches)|
    ensures answer == Denied(UnknownPool) <==> pool !in m.cfg
    ensures pool !in m.cfg ==>
              api.patches == old(api.patches) && api.pods == old(api.pods) && m.View() == old(m.View())
    ensures AllRounds(old(m.View()), m.cfg, pool, rounds, now, lease)
    ensures InTurn(rounds, old(api.patches)) && SentBy(rounds, old(api.patches)) == api.patches
    ensures answer == Denied(NoSandboxAvailable) ==>
              |rounds| == patience + 1 && AllLost(rounds) && m.View() == AfterEvents(old(m.View()), heard)
    ensures answer.Given? || answer == Denied(ApiFailed) ==>
              && rounds != []
              && var last := rounds[|rounds| - 1]; Ended(last.before, last.after, last.offers, Some(answer))
    ensures answer.Given? ==>
              && win.Some? && api.claims == old(api.claims) + [win.value.met]
              && var last := rounds[|rounds| - 1];
                 last.heard == heard
                 && Won(last.before, last.after, last.offers, win.value, api.pods, answer.state, lease)
                 && WasOffered(AfterEvents(old(m.View()), heard), m.cfg, pool, win.value)
    ensures answer.Denied? ==> answer.why in {UnknownPool, NoSandboxAvailable, ApiFailed}
    ensures answer.Denied? && answer.why != ApiFailed ==> api.claims == old(api.claims)
    ensures old(api.claims) <= api.claims && |api.claims| <= |old(api.claims)| + 1
  {
    heard, rounds, win := [], [], None;
    if pool !in m.cfg {
      answer := Denied(UnknownPool);
      return;
    }
    for n := 0 to patience + 1
      invariant Keyed(api.pods) && api.claims == old(api.claims) && |rounds| == n
      invariant api.turn == old(api.turn) + |api.patches| - |old(api.patches)|
      invariant AllRounds(old(m.View()), m.cfg, pool, rounds, now, lease)
      invariant InTurn(rounds, old(api.patches)) && SentBy(rounds, old(api.patches)) == api.patches && AllLost(rounds)
      invariant m.View() == AfterEvents(old(m.View()), heard)
    {
      var tried;
      ghost var more, round;
      tried, more, round, win := TryRound(m, api, pool, now, lease, events, heard);
      OneMoreRound(rounds, old(api.patches), round);
      rounds := rounds + [round];
      if tried.Some? {
        answer := tried.value;
        return;
      }
      m.ApplyEvents(pauses(n));
      EventsAppend(old(m.View()), heard, more);
      EventsAppend(old(m.View()), heard + more, pauses(n));
      heard := heard + more + pauses(n);
    }
    answer := Denied(NoSandboxAvailable);
  }

  /** Renewal: refused without a call unless the cache holds a running lease;
      otherwise one unconditioned patch of the lease. */
  method Renew(m: Manager, api: Api, name: string, now: Time, lease: Time, meanwhile: seq<Event>)
    returns (answer: Answer)
    requires Keyed(api.pods) && KeepsNames(api.world)
    modifies m, api
    ensures api.claims == old(api.claims)
    ensures if !(name in old(m.View()) && Renewable(old(m.View())[name], now)) then
              && answer == Denied(WhyNot(old(m.View()), name)) && api.patches == old(api.patches)
              && api.turn == old(api.turn) && api.pods == old(api.pods) && m.View() == old(m.View())
            else
              var outcome := CallOutcome(api.world, old(api.turn), old(api.pods), name, NO_VERSION);
              && api.turn == old(api.turn) + 1
              && api.patches == old(api.patches)
                                + [PatchCall(name, NO_VERSION, Patch.Patch(false, now, lease), outcome)]
              && api.pods == AfterPatch(api.world, old(api.turn), old(api.pods), name, NO_VERSION,
                                        Patch.Patch(false, now, lease))
              && outcome != Conflict
              && (if outcome == Accepted then
                    && answer.Given? && answer.state.name == name
                    && name in api.pods && answer.state == StateOf(api.pods[name])
                    && answer.state.leaseExpires <= now + lease < answer.state.leaseExpires + SECOND
                    && m.View() == AfterAnswer(old(m.View()), meanwhile, name, Some(answer.state))
                  else
                    && answer == Denied(if outcome == Outcome.NotFound then Failure.NotFound else ApiFailed)
                    && m.View() == AfterEvents(old(m.View()), meanwhile))
  {
    var checked := m.CheckRenew(name, now);
    if checked.Err? { return AnswerOf(checked); }
    var outcome, state := PatchPod(m, api, name, NO_VERSION, Patch.Patch(false, now, lease), meanwhile);
    match outcome {
      case Accepted => answer := Given(state.value);
      case NotFound => answer := Denied(Failure.NotFound);
      case _ => answer := Denied(ApiFailed);
    }
  }

  /** Release: one unconditional delete of a claimed pod. The entry goes unless
      the API fails. */
  method Release(m: Manager, api: Api, name: string, meanwhile: seq<Event>) returns (answer: Answer)
    modifies m, api
    ensures api.claims == old(api.claims)
    ensures if !(name in old(m.View()) && Releasable(old(m.View())[name])) then
              && answer == Denied(WhyNot(old(m.View()), name)) && api.deletes == old(api.deletes)
              && api.turn == old(api.turn) && api.pods == old(api.pods) && m.View() == old(m.View())
            else
              var outcome := CallOutcome(api.world, old(api.turn), old(api.pods), name, NO_VERSION);
              && api.turn == old(api.turn) + 1
              && api.deletes == old(api.deletes) + [DeleteCall(name, NO_VERSION, outcome)]
              && api.pods == AfterDelete(api.world, old(api.turn), old(api.pods), name, NO_VERSION)
              && m.View() == (if outcome == Refused then AfterEvents(old(m.View()), meanwhile)
                              else AfterEvents(old(m.View()), meanwhile) - {name})
              && answer == (if outcome == Accepted then Given(old(m.View())[name])
                            else if outcome == Outcome.NotFound then Denied(Failure.NotFound)
                            else Denied(ApiFailed))
  {
    var checked := m.CheckRelease(name);
    if checked.Err? { return AnswerOf(checked); }
    var outcome := api.Delete(name, NO_VERSION);
    m.ApplyEvents(meanwhile);
    match outcome {
      case Accepted =>
        m.Decide(name, Remove);
        answer := Given(checked.state);
      case NotFound =>
        m.Decide(name, Remove);
        answer := Denied(Failure.NotFound);
      case _ =>
        answer := Denied(ApiFailed);
    }
  }
}
