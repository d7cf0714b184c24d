/** The code that runs is the protocol that is proved: the pod manager's methods move
    its cache, and the API server its store, exactly as the protocol's steps do. */
module CacheRefinement {
  import opened Basics
  import opened PodTypes
  import opened PodCache
  import opened PodProtocol
  import PodSteps
  import ApiServer
  import PodManager

  // ---------------------------------------------------------------- the watch

  /** The watch event that reports a record. */
  function EventOf(record: Record): PodManager.Event {
    match record
    case Wrote(pod) => PodManager.Modified(pod)
    case Removed(name) => PodManager.Deletion(name)
    case Unrelated => PodManager.Foreign
  }

  lemma SlotsFollow(cache: map<string, Slot>, name: string, d: Decision, id: nat)
    ensures View(ApplySlot(cache, name, d, id)) == Apply(View(cache), name, d)
    ensures EntryState(cache, name) == Find(View(cache), name)
  {
  }

  /** Delivering a record is applying its event. */
  lemma DeliveryIsApplyEvent(rep: Replica, record: Record, id: nat)
    ensures View(Delivered(rep, record, id).cache) == PodManager.AfterEvent(View(rep.cache), EventOf(record))
  {
    match record
    case Wrote(pod) => SlotsFollow(rep.cache, pod.name, OnUpsert(EntryState(rep.cache, pod.name), pod), id);
    case Removed(name) => SlotsFollow(rep.cache, name, Remove, id);
    case Unrelated =>
  }

  /** Records delivered one after the other. */
  function DeliveredAll(rep: Replica, records: seq<Record>, id: nat): Replica {
    if records == [] then rep
    else
      var n := |records| - 1;
      Delivered(DeliveredAll(rep, records[..n], id), records[n], id + n)
  }

  function EventsOf(records: seq<Record>): seq<PodManager.Event> {
    if records == [] then [] else EventsOf(records[..|records| - 1]) + [EventOf(records[|records| - 1])]
  }

  lemma OneMoreEvent(cache: Cache, events: seq<PodManager.Event>, ev: PodManager.Event)
    ensures PodManager.AfterEvents(cache, events + [ev])
            == PodManager.AfterEvent(PodManager.AfterEvents(cache, events), ev)
  {
    assert (events + [ev])[..|events|] == events;
  }

  lemma OneMoreDelivery(rep: Replica, records: seq<Record>, record: Record, id: nat)
    ensures DeliveredAll(rep, records + [record], id)
            == Delivered(DeliveredAll(rep, records, id), record, id + |records|)
    ensures EventsOf(records + [record]) == EventsOf(records) + [EventOf(record)]
  {
    assert (records + [record])[..|records|] == records;
  }

  /** Delivering records is applying their events in order. */
  lemma {:induction false} DeliveriesAreApplyEvents(rep: Replica, records: seq<Record>, id: nat)
    ensures View(DeliveredAll(rep, records, id).cache) == PodManager.AfterEvents(View(rep.cache), EventsOf(records))
  {
    if records != [] {
      var before, last := records[..|records| - 1], records[|records| - 1];
      DeliveriesAreApplyEvents(rep, before, id);
      DeliveryIsApplyEvent(DeliveredAll(rep, before, id), last, id + |before|);
      OneMoreEvent(View(rep.cache), EventsOf(before), EventOf(last));
      OneMoreDelivery(rep, before, last, id);
      assert records == before + [last];
    }
  }

  // ---------------------------------------------------------------- the list

  /** The items of a list: every stored pod, in any order. */
  ghost predicate ItemsOf(items: seq<Pod>, pods: map<string, Pod>) {
    && (forall i :: 0 <= i < |items| ==> items[i].name in pods && pods[items[i].name] == items[i])
    && (forall n :: n in pods ==> pods[n].name == n && pods[n] in items)
  }

  lemma LastItem(items: seq<Pod>, n: string, k: int) returns (i: int)
    requires 0 <= k < |items| && items[k].name == n
    ensures PodManager.IsLastOf(items, n, i)
  {
    i := k;
    for j := k + 1 to |items|
      invariant k <= i < j && items[i].name == n && forall l :: i < l < j ==> items[l].name != n
    {
      if items[j].name == n { i := j; }
    }
  }

  /** Installing a fetched list is seeding the map from its items. */
  lemma InstallIsList(items: seq<Pod>, pods: map<string, Pod>, rep: Replica, id: nat)
    requires ItemsOf(items, pods) && rep.feed.Listed? && rep.feed.snapshot == StatesOf(pods)
    ensures View(Installed(rep, id).cache) == PodManager.Listed(items)
  {
    var listed := PodManager.Listed(items);
    forall n | n in listed ensures n in pods && listed[n] == StateOf(pods[n]) {
      var i := PodManager.ListedFrom(items, n);
      PodManager.ListedItem(items, n, i);
    }
    forall n | n in pods ensures n in listed {
      var k :| 0 <= k < |items| && items[k] == pods[n];
      var i := LastItem(items, n, k);
      PodManager.ListedItem(items, n, i);
    }
    assert View(Installed(rep, id).cache) == StatesOf(pods);
  }

  // ---------------------------------------------------------------- answers

  /** The cache of the replica whose request `id` is. */
  function CacheAt(s: Sys, r: nat): Cache
    requires r in s.replicas
  {
    View(s.replicas[r].cache)
  }

  /** The answer of a patch lands as MirrorPatch does it. */
  lemma PatchLandsAsMirrored(s: Sys, id: nat)
    requires id in s.ops && s.ops[id].Patched? && s.ops[id].r in s.replicas
    ensures var op := s.ops[id]; var r, name := op.r, op.reply.name;
            var untouched := name in s.replicas[r].cache && op.before == Some(s.replicas[r].cache[name]);
            CacheAt(NextLandPatch(s, id), r)
            == Apply(CacheAt(s, r), name, OnPatched(Find(CacheAt(s, r), name), untouched, StateOf(op.reply)))
  {
    var op := s.ops[id];
    SlotsFollow(s.replicas[op.r].cache, op.reply.name, PodSteps.PatchDecision(s, id), s.next);
  }

  /** The answer of a release drops the entry; that of a sweep forgets the listed
      version if it was accepted, any version if there was no pod, and nothing if
      it lost a race. */
  lemma DeleteLandsAsForgotten(s: Sys, id: nat)
    requires id in s.ops && s.ops[id].Deleted? && s.ops[id].r in s.replicas
    ensures var op := s.ops[id]; var name, before := op.st.name, CacheAt(s, op.r);
            var after := CacheAt(NextLandDelete(s, id), op.r);
            if op.cause.ByRelease? then after == before - {name}
            else if op.outcome == Conflict then
              after == before && NextLandDelete(s, id).ops[id] == Refreshing(op.r, name)
            else
              var version := if op.outcome == Accepted then op.st.version else NO_VERSION;
              after == Apply(before, name, OnForget(Find(before, name), version))
  {
    var op := s.ops[id];
    SlotsFollow(s.replicas[op.r].cache, op.st.name, DeleteDecision(s, id), s.next);
  }

  /** The answer of a refresh is applied as an event, or the entry forgotten. */
  lemma RefreshLandsAsEvent(s: Sys, id: nat)
    requires id in s.ops && s.ops[id].Refreshed? && s.ops[id].r in s.replicas
    requires s.ops[id].found.Some? ==> s.ops[id].found.value.name == s.ops[id].name
    ensures var op := s.ops[id]; var before, after := CacheAt(s, op.r), CacheAt(NextLandRefresh(s, id), op.r);
            after == if op.found.Some? then PodManager.AfterEvent(before, PodManager.Modified(op.found.value))
                     else before - {op.name}
  {
    var op := s.ops[id];
    var cache := s.replicas[op.r].cache;
    var current := EntryState(cache, op.name);
    var d := if op.found.Some? then OnUpsert(current, op.found.value) else OnForget(current, NO_VERSION);
    SlotsFollow(cache, op.name, d, s.next);
  }

  /** The answer of a create is cached at once. */
  lemma CreateLandsAtOnce(s: Sys, id: nat)
    requires id in s.ops && s.ops[id].Created? && s.ops[id].r in s.replicas
    ensures var op := s.ops[id];
            CacheAt(NextLandCreate(s, id), op.r) == CacheAt(s, op.r)[op.pod.name := StateOf(op.pod)]
  {
    var op := s.ops[id];
    SlotsFollow(s.replicas[op.r].cache, op.pod.name, Replace(StateOf(op.pod)), s.next);
  }

  // ---------------------------------------------------------------- the API server

  /** The precondition a patch is sent with. */
  function PatchVersion(op: Op): ResourceVersion
    requires op.Patching?
  {
    if op.kind.Claim? then op.st.version else NO_VERSION
  }

  function DeleteVersion(op: Op): ResourceVersion
    requires op.Deleting?
  {
    if op.cause.BySweep? then op.st.version else NO_VERSION
  }

  /** The server of the protocol and the one the code calls decide alike on patches,
      and store the same pod, version aside. */
  lemma ServersPatchAlike(sv: Server, op: Op, stamp: ResourceVersion)
    requires op.Patching? && op.st.version != NO_VERSION
    requires op.st.name in sv.pods ==> sv.pods[op.st.name].name == op.st.name
    ensures PatchAccepted(sv, op) <==> ApiServer.Accepts(sv.pods, op.st.name, PatchVersion(op))
    ensures PatchAccepted(sv, op) ==>
              var name, sv' := op.st.name, ServerAfterPatch(sv, op);
              var patch := ApiServer.Patch.Patch(op.kind.Claim?, op.now, op.lease);
              sv'.pods == sv.pods[name := ApiServer.Patched(sv.pods[name], patch, stamp)
                                          .(version := sv'.pods[name].version)]
  {
  }

  /** They also answer deletes alike. */
  lemma ServersDeleteAlike(sv: Server, op: Op)
    requires op.Deleting? && op.st.version != NO_VERSION
    ensures var accepts := ApiServer.Accepts(sv.pods, op.st.name, DeleteVersion(op));
            DeleteOutcome(sv, op)
            == if accepts then Accepted else if op.st.name in sv.pods then Conflict else NotFound
  {
  }
}
