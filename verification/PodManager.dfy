/** The pod manager of one replica: the in-memory pod map and the operations
    that update it under its lock. */
module PodManager {
  import opened Basics
  import opened PodTypes
  import opened PodPolicy
  import opened PodCache
  import opened Sorting
  import opened ReconcilePlan

  /** A cache entry; entries are replaced wholesale, so the reference is the
      identity that patch answers compare. */
  class Entry {
    const state: PodState

    constructor (state: PodState)
      ensures this.state == state
    {
      this.state := state;
    }
  }

  datatype Event = Added(pod: Pod) | Modified(pod: Pod) | Deletion(name: string) | Foreign

  datatype Error = SandboxNotFound | SandboxNotAllocated

  datatype Result = Ok(state: PodState) | Err(error: Error)

  function DecideEvent(current: Option<PodState>, ev: Event): Decision {
    match ev
    case Added(pod) => OnUpsert(current, pod)
    case Modified(pod) => OnUpsert(current, pod)
    case Deletion(name) => Remove
    case Foreign => Keep
  }

  function EventName(ev: Event): string {
    match ev
    case Added(pod) => pod.name
    case Modified(pod) => pod.name
    case Deletion(name) => name
    case Foreign => ""
  }

  function EventDecision(cache: Cache, ev: Event): Decision {
    DecideEvent(Find(cache, EventName(ev)), ev)
  }

  /** The cache after an event. */
  function AfterEvent(cache: Cache, ev: Event): Cache {
    Apply(cache, EventName(ev), EventDecision(cache, ev))
  }

  /** The cache after some events. */
  function AfterEvents(cache: Cache, events: seq<Event>): Cache {
    if events == [] then cache
    else AfterEvent(AfterEvents(cache, events[..|events| - 1]), events[|events| - 1])
  }

  /** The events leave the entry, if there is one, the very object it was. */
  predicate LeaveAlone(cache: Cache, events: seq<Event>, name: string) {
    events == []
    || (LeaveAlone(cache, events[..|events| - 1], name)
        && var last := events[|events| - 1];
           EventName(last) != name || EventDecision(AfterEvents(cache, events[..|events| - 1]), last) == Keep)
  }

  /** The state a full list seeds; a later item of the same name wins. */
  function Listed(items: seq<Pod>): Cache {
    if items == [] then map[]
    else
      var last := items[|items| - 1];
      Listed(items[..|items| - 1])[last.name := StateOf(last)]
  }

  /** The last item of a name; the only one, when names are different. */
  predicate IsLastOf(items: seq<Pod>, n: string, i: int) {
    0 <= i < |items| && items[i].name == n && forall j :: i < j < |items| ==> items[j].name != n
  }

  lemma {:induction false} ListedItem(items: seq<Pod>, n: string, i: int)
    requires IsLastOf(items, n, i)
    ensures n in Listed(items) && Listed(items)[n] == StateOf(items[i])
  {
    var k := |items| - 1;
    if i < k {
      assert items[k].name != n;
      ListedItem(items[..k], n, i);
    }
  }

  lemma {:induction false} ListedFrom(items: seq<Pod>, n: string) returns (i: int)
    requires n in Listed(items)
    ensures IsLastOf(items, n, i)
  {
    var k := |items| - 1;
    if items[k].name == n { return k; }
    i := ListedFrom(items[..k], n);
  }

  /** A name is listed if and only if an item bears it, with the state of the last
      item that does. */
  lemma ListedMeans(items: seq<Pod>, n: string)
    ensures n in Listed(items) <==> exists i :: IsLastOf(items, n, i)
    ensures forall i :: IsLastOf(items, n, i) ==> n in Listed(items) && Listed(items)[n] == StateOf(items[i])
  {
    if n in Listed(items) { var i := ListedFrom(items, n); }
    forall i | IsLastOf(items, n, i) ensures n in Listed(items) && Listed(items)[n] == StateOf(items[i]) {
      ListedItem(items, n, i);
    }
  }

  /** Everything the controller derives from a pod; the loop decides readiness. An
      empty allocation mark does not count, and a lease that does not parse is long
      over. */
  method PodStateFrom(pod: Pod) returns (state: PodState)
    ensures state == StateOf(pod)
    ensures state.ready <==> exists i :: 0 <= i < |pod.conditions|
                                         && pod.conditions[i].kind == "Ready" && pod.conditions[i].status == "True"
    ensures state.claimed <==> pod.claimed.Stamp? || (pod.claimed.Text? && pod.claimed.text != "")
    ensures state.leaseExpires == if pod.lease.Stamp? then pod.lease.seconds * 1_000_000_000 else ZERO_TIME
    ensures state.name == pod.name && state.pool == pod.pool && state.ip == pod.ip && state.phase == pod.phase
    ensures state.deleting == pod.terminating && state.templateHash == pod.templateHash
    ensures state.version == pod.version && state.createdAt == pod.createdAt
  {
    var ready := false;
    for i := 0 to |pod.conditions|
      invariant ready <==> exists j :: 0 <= j < i && pod.conditions[j] == Condition("Ready", "True")
    {
      assert pod.conditions[i] == Condition(pod.conditions[i].kind, pod.conditions[i].status);
      if pod.conditions[i].kind == "Ready" && pod.conditions[i].status == "True" {
        ready := true;
      }
    }
    assert ready <==> ReadyCondition(pod.conditions);
    state := PodState(
      pod.name, pod.pool, pod.ip, pod.phase, ready, pod.terminating, NonEmpty(pod.claimed),
      LeaseInstant(pod.lease), pod.templateHash, pod.version, pod.createdAt);
  }

  predicate ByName(p: PodState, q: PodState) {
    NameLess(p.name, q.name)
  }

  class Manager {
    const cfg: Config
    var pods: map<string, Entry>

    /** The abstract value of the in-memory map. */
    ghost function View(): Cache
      reads this
    {
      map n | n in pods :: pods[n].state
    }

    constructor (cfg: Config)
      ensures this.cfg == cfg && View() == map[]
    {
      this.cfg := cfg;
      this.pods := map[];
    }

    /** Sets one entry; every other entry stays the same object. */
    method Decide(name: string, decision: Decision)
      modifies this
      ensures View() == Apply(old(View()), name, decision)
      ensures forall n :: n != name ==> Find(pods, n) == Find(old(pods), n)
      ensures decision == Keep ==> pods == old(pods)
      ensures decision.Replace? ==> name in pods && fresh(pods[name])
    {
      match decision {
        case Keep =>
        case Replace(state) =>
          var entry := new Entry(state);
          pods := pods[name := entry];
        case Remove => pods := pods - {name};
      }
    }

    method CurrentState(name: string) returns (current: Option<PodState>)
      ensures current == Find(View(), name)
    {
      current := if name in pods then Some(pods[name].state) else None;
    }

    /** The list loop; the fresh map replaces the old one at the end. */
    method List(items: seq<Pod>)
      modifies this
      ensures View() == Listed(items)
    {
      var seeded: map<string, Entry> := map[];
      for i := 0 to |items|
        invariant (map n | n in seeded :: seeded[n].state) == Listed(items[..i])
      {
        assert items[..i + 1][..i] == items[..i];
        var state := PodStateFrom(items[i]);
        var entry := new Entry(state);
        seeded := seeded[items[i].name := entry];
      }
      assert items[..|items|] == items;
      pods := seeded;
    }

    /** A deletion drops the pod; a whole pod replaces its entry, unless both versions
        are numbers and the entry's is at least as new; anything else is ignored. */
    method ApplyEvent(ev: Event)
      modifies this
      ensures View() == AfterEvent(old(View()), ev)
      ensures ev.Deletion? ==> View() == old(View()) - {ev.name}
      ensures ev.Added? || ev.Modified? ==>
                var n := ev.pod.name;
                if n in old(View()) && ev.pod.version.Version? && old(View())[n].version.Version?
                   && ev.pod.version.n <= old(View())[n].version.n
                then View() == old(View())
                else View() == old(View())[n := StateOf(ev.pod)]
      ensures ev == Foreign ==> View() == old(View())
      ensures forall n :: n != EventName(ev) ==> Find(pods, n) == Find(old(pods), n)
      ensures EventDecision(old(View()), ev) == Keep ==> pods == old(pods)
      ensures EventDecision(old(View()), ev) != Keep && EventName(ev) in pods ==> fresh(pods[EventName(ev)])
    {
      var name := EventName(ev);
      var current := CurrentState(name);
      Decide(name, DecideEvent(current, ev));
    }

    /** Events reaching the cache one after the other. */
    method ApplyEvents(events: seq<Event>)
      modifies this
      ensures View() == AfterEvents(old(View()), events)
      ensures forall n :: LeaveAlone(old(View()), events, n) ==> Find(pods, n) == Find(old(pods), n)
      ensures forall n :: !LeaveAlone(old(View()), events, n) && n in pods ==> fresh(pods[n])
    {
      for i := 0 to |events|
        invariant View() == AfterEvents(old(View()), events[..i])
        invariant forall n :: LeaveAlone(old(View()), events[..i], n) ==> Find(pods, n) == Find(old(pods), n)
        invariant forall n :: !LeaveAlone(old(View()), events[..i], n) && n in pods ==> fresh(pods[n])
      {
        ghost var before := pods;
        assert events[..i + 1][..i] == events[..i];
        ApplyEvent(events[i]);
        forall n | n in pods && n != EventName(events[i]) ensures n in before && pods[n] == before[n] {
          assert Find(pods, n) == Find(before, n);
        }
      }
      assert events[..|events|] == events;
    }

    /** Drops an entry of the given version, or any entry for the empty version. */
    method ForgetPod(name: string, version: ResourceVersion)
      modifies this
      ensures View() == Apply(old(View()), name, OnForget(Find(old(View()), name), version))
      ensures if name in old(View()) && (version == Unparseable("") || old(View())[name].version == version)
              then View() == old(View()) - {name} else View() == old(View())
      ensures forall n :: n != name ==> Find(pods, n) == Find(old(pods), n)
    {
      var current := CurrentState(name);
      Decide(name, OnForget(current, version));
    }

    /** The locked part of patchPod: mirrors the answer `pod` of a patch sent when
        the entry was `before`; an entry that is another object by now was touched. */
    method MirrorPatch(before: Entry?, pod: Pod) returns (state: PodState)
      modifies this
      ensures state == StateOf(pod)
      ensures var untouched := pod.name in old(pods) && old(pods)[pod.name] == before;
              View() == Apply(old(View()), pod.name, OnPatched(Find(old(View()), pod.name), untouched, state))
      ensures forall n :: n != pod.name ==> Find(pods, n) == Find(old(pods), n)
    {
      state := PodStateFrom(pod);
      var current := CurrentState(pod.name);
      var untouched := pod.name in pods && pods[pod.name] == before;
      Decide(pod.name, OnPatched(current, untouched, state));
    }

    /** Only a claimed sandbox that is not terminating and whose lease runs may be
        renewed. */
    method CheckRenew(name: string, now: Time) returns (r: Result)
      ensures r.Ok? ==>
                && name in View() && r.state == View()[name]
                && r.state.claimed && !r.state.deleting && now <= r.state.leaseExpires
      ensures r == Err(SandboxNotAllocated) <==> name in View() && !View()[name].claimed
      ensures r == Err(SandboxNotFound)
              <==> name !in View()
                   || (View()[name].claimed && (View()[name].deleting || now > View()[name].leaseExpires))
    {
      var current := CurrentState(name);
      if current.None? { return Err(SandboxNotFound); }
      var st := current.value;
      if !st.claimed { return Err(SandboxNotAllocated); }
      if st.deleting { return Err(SandboxNotFound); }
      if now > st.leaseExpires { return Err(SandboxNotFound); }
      r := Ok(st);
    }

    /** Only a claimed sandbox that is not terminating may be released. */
    method CheckRelease(name: string) returns (r: Result)
      ensures r.Ok? ==> name in View() && r.state == View()[name] && r.state.claimed && !r.state.deleting
      ensures r == Err(SandboxNotAllocated) <==> name in View() && !View()[name].claimed
      ensures r == Err(SandboxNotFound) <==> name !in View() || (View()[name].claimed && View()[name].deleting)
    {
      var current := CurrentState(name);
      if current.None? { return Err(SandboxNotFound); }
      var st := current.value;
      if !st.claimed { return Err(SandboxNotAllocated); }
      if st.deleting { return Err(SandboxNotFound); }
      r := Ok(st);
    }

    /** Every entry is stored under its pod's name. */
    ghost predicate Keyed()
      reads this
    {
      forall n :: n in View() ==> View()[n].name == n
    }

    /** All entries, in the map's arbitrary order. */
    method Collect() returns (out: seq<PodState>)
      ensures forall p :: p in out <==> p in View().Values
      ensures |out| == |View()| && (Keyed() ==> Distinct(out))
    {
      out := [];
      var todo := pods.Keys;
      ghost var view := View();
      assert view.Keys == pods.Keys;
      while todo != {}
        invariant todo <= view.Keys
        invariant forall p :: p in out ==> p in view.Values
        invariant forall n :: n in view.Keys - todo ==> view[n] in out
        invariant |out| + |todo| == |view.Keys|
        invariant Keyed() ==> Distinct(out) && forall p :: p in out ==> p.name !in todo
      {
        var n :| n in todo;
        assert view[n] in view.Values;
        out := out + [pods[n].state];
        todo := todo - {n};
      }
    }

    /** A snapshot of all entries, sorted by name. */
    method Pods() returns (out: seq<PodState>)
      ensures SortedBy(out, ByName)
      ensures forall p :: p in out <==> p in View().Values
      ensures |out| == |View()| && (Keyed() ==> Distinct(out))
    {
      var collected := Collect();
      NamesAreOrdered();
      SortSorts(collected, ByName);
      out := Sort(collected, ByName);
      forall p ensures p in out <==> p in collected {
        assert p in out <==> p in multiset(out);
        assert p in collected <==> p in multiset(collected);
      }
      if Keyed() { SortedIsDistinct(collected, out); }
    }

    /** The claimable pods of a pool, sorted by name. */
    method Candidates(pool: string) returns (out: seq<PodState>)
      requires pool in cfg
      ensures SortedBy(out, ByName)
      ensures forall p :: p in out <==> p in View().Values && Candidate(cfg, pool, p)
    {
      var all := Pods();
      out := [];
      for i := 0 to |all|
        invariant forall p :: p in out <==> p in all[..i] && Candidate(cfg, pool, p)
        invariant SortedBy(out, ByName)
      {
        assert all[..i + 1] == all[..i] + [all[i]];
        if Candidate(cfg, pool, all[i]) {
          forall j | 0 <= j < |out| ensures !ByName(all[i], out[j]) {
            assert out[j] in all[..i];
          }
          out := out + [all[i]];
        }
      }
      assert all[..|all|] == all;
    }
  }

  lemma NamesAreOrdered()
    ensures StrictOrder(ByName)
  {
    forall p: PodState, q: PodState | ByName(p, q) ensures !ByName(q, p) {
      NameLessIsTotal(p.name, q.name);
    }
    forall p: PodState, q: PodState, z: PodState | ByName(p, q) && !ByName(z, q) ensures ByName(p, z) {
      NameLessIsTotal(q.name, z.name);
      if q.name != z.name { NameLessIsTransitive(p.name, q.name, z.name); }
    }
  }
}
