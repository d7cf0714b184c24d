# Verified model of ironhive

A Dafny model of the four parts of ironhive where correctness does not show
from reading one function, with the properties each part is built for proved
over every input, run or reachable state. `dafny verify dfyconfig.toml` checks
all of it.

## The parts

**The pod protocol** (`controller/pods.go`). Any number of controller replicas
share one API server. Each keeps a cache that may be stale, and acts on it by
claiming (a patch conditioned on a resource version), renewing (an
unconditioned patch), releasing (an unconditioned delete) and, on the leader,
sweeping and creating. `PodTypes`, `PodPolicy` and `PodCache` hold the rules
for one pod and one cache entry. `PodProtocol` is the transition system: the
server with its log of records, per-replica caches with list and watch, requests
in flight whose answers land late or never, one clock, and a journal of what
the server accepted. `PodInvariants` and `PodSteps` show what every step keeps;
`PodSafety` draws the results about whole runs, `PodConvergence` says exactly
when a cache agrees with the store, and `PodWitnesses` gives concrete runs that
show where results cannot be stronger. The same rules run as
code in the `PodManager.Manager` class, in `Allocation` (what clients ask for)
and in `ReconcilePlan`, `Reconcile` and `ReconcilePass` (one reconcile pass
against `ApiServer`, where the rest of the world may act between any two calls
and any call may fail, applied or not). `ApiServer` records every call as it is
sent, with its precondition and answer, so that contracts can say what a method
asked for and not only what came of it. `CacheRefinement` shows that these methods
move cache and store exactly as the protocol's steps do, and `PassWorld` that what
a pass assumes of the others is what the protocol guarantees. `PoolOverview` is the
read-only summary.

**The tar filter, packer and extractor** (`agent/tar.go`). `GlobMatch` and
`TarFilter` hold the matcher and the filter, `TarPack` the pruning walk,
`FileSystem` a file system with permission bits and mtimes, `TarExtract` the
extractor, `TarTree` and `TarRoundTrip` the laws relating them.

**Child ownership as PID 1** (`agent/agent.go`). `ChildOwnership` is the
protocol between commands waiting for their own child and the reaper, step by
step, with process ids reused at any moment; `ChildManager` is the same code as
a class.

**The shell event stream** (`agent/shell.go`, `sandbox.go`). `ShellStream` is
the protocol of two scanners, a waiter and the handler over a 64-slot channel;
`ShellHistory` ties its output to what the pipes, the wait and the snapshots gave;
`JsonText` and `ShellEvents` are the printer on the agent's side and the parser
on the client's; `ShellCall` joins the two ends; `EnvOverlay` is the environment
passed in and reported back.

## What the environment is assumed to do

- Only the controller writes the two allocation annotations. Allocation marks,
  deletion marks and terminal phases are never taken back. Others may mark a pod
  for deletion at any time (`Evict`). A pod's labels (pool and template hash) and
  its creation time never change.
- Resource versions are the positions of records in one server-wide log: they
  parse and strictly increase, with gaps. Pod names are never reused. A list is
  a snapshot of the store at one position, and the watch that follows delivers
  every later record in order, until it breaks.
- One clock. Lease texts are RFC 3339 with whole seconds.
- A template hash stands for its template. Leader election is an exclusive right
  to run a reconcile pass: during a pass nobody else creates pods. The transition
  system itself lets any replica sweep and create.
- The umask leaves the owner all three bits, or the extractor is the superuser.
  It owns what it extracts, and its clock is past Go's zero time. An archive is a
  sequence of entries with times rounded to whole seconds. `path.Match` on one segment is an arbitrary function
  that may also report a malformed pattern.
- A process id is below 2^31 and names at most one unreaped child at a time; it
  may be reused as soon as that child is reaped. An exit code is a status byte,
  128 plus a signal, or -1. `wait4` without blocking takes zombies only.
- A Go string is the sequence of Unicode scalar values and stray bytes it
  decodes to. JSON strings use the escapes of `encoding/json` with HTML escaping.

## Where the code and its documentation differ

The model follows the code.

- `Renew` is documented to only push the deadline forward
  (`controller/pods.go:690`). It moves it back exactly when the time asked for, in
  whole seconds, lies before the stored deadline (`PodSafety.WhenDeadlinesMoveBack`,
  and a run in which it does: `PodWitnesses.RenewalMovesDeadlineBack`). So the
  lease guarantee speaks of the last accepted claim or renewal, not the latest
  deadline.
- A cache is documented to reconverge (`controller/pods.go:132-137`). Once all
  records are delivered it agrees with the store on a pod exactly when no answer
  left that entry late or dropped it for good (`PodConvergence.CacheConverges`). An
  entry becomes late exactly when the answer of a create, or of a refresh of an
  uncached pod, lands after the watch passed a later record of the pod
  (`PodConvergence.WhatRewinds`); it stays missing only when the answer of a delete
  lands after the watch passed the pod's last record
  (`PodConvergence.CacheConvergesFully`). Both do happen
  (`PodWitnesses.LateCreateAnswerRewindsCache`,
  `PodWitnesses.ReleasedPodMayBeUncached`). Over a whole run the two agree on a pod
  exactly when every such answer was followed by a step that repaired the entry
  (`PodConvergence.ConvergesExactly`), and which steps do is exact too
  (`PodConvergence.WhatRepairs`).
- The archive is documented to extract into any destination
  (`agent/tar.go:123`). Below `/` the extractor accepts only names that resolve to
  `/` itself (`TarExtract.JoinStaysInside`), and an inode without permission bits
  comes back with default ones; `TarRoundTrip.RoundTripIsExact` says exactly when
  the copy equals the original. Because names are tested before the filter, at `/`
  filtering on extraction differs from filtering while packing exactly when the
  tree is not empty and nothing is selected (`TarRoundTrip.FilteringCommutes`).
- The reported environment is meant to be passed back as it was
  (`agent/shell.go:127-128`). Reports are JSON, so
  it comes back exactly when no key or value has a byte that is not part of valid
  UTF-8 (`EnvOverlay.FeedingBack`).
- A terminated pod is swept even under a running lease
  (`controller/pods.go:338`); the lease guarantee names this case.

## Model

| member | source | states |
|---|---|---|
| PodSteps.StepKeeps | controller/pods.go:178-735 | every step of the protocol, under any interleaving, keeps the invariant: log and store agree, every cache entry is one server version (an unclaimed entry word for word), requests in flight carry what justified them, claimed pods carry the lease granted last |
| PodSafety.RunsKeepInv | controller/pods.go:178-735 | the invariant holds in every state of every run |
| PodSafety.MutualExclusion | controller/pods.go:547-657 | in every run a pod is claimed at most once, and no two allocations, on whatever replicas, return the same sandbox |
| PodSafety.ReturnedWasClaimed | controller/pods.go:593-607 | a returned sandbox was claimed earlier by that very allocation |
| PodSafety.ClaimsAreSound | controller/pods.go:581-607 | when the server accepts a claim, its own copy is running, ready, addressed, not terminating, unclaimed and of the claimer's template; only claim, lease and version change; the deadline is less than a second short of the time asked for |
| PodSafety.LastDeadlineIsLastGrant | controller/pods.go:595-601 | the deadline on record is that of the last accepted claim or renewal in the journal |
| PodSafety.LeaseGuarantee | controller/pods.go:319-421 | a claimed pod stops being live only by an outside eviction, a release naming it, after it terminated, or after the deadline of its last accepted claim or renewal |
| PodSafety.WhoEndsPods | controller/pods.go:402-421 | no step other than an eviction or an accepted delete of that pod dooms a live pod |
| PodSteps.DoomedPodWas | controller/pods.go:402-411 | the reason of an accepted delete still holds of the server's own copy at that moment |
| PodSafety.ReleasesAreAsked | controller/pods.go:699-735 | every unconditioned delete in flight goes back to a release of that very pod |
| PodSafety.PatchesAreAsked | controller/pods.go:547-695 | every claim or renewal in flight goes back to what a client asked of that replica, for the same pool, pod state and lease, and is sent later, with the clock of that moment |
| PodSafety.ClaimedVersionsWereClaimed | controller/pods.go:486-487 | every pod version with a claim mark goes back to an accepted claim; creation never makes one |
| PodSafety.CachedClaimIsTrue | controller/pods.go:614-657 | an entry cached as claimed denotes a pod that was claimed and is still claimed and leased on the server, or gone |
| PodSafety.ClaimedPodsAreLeased | controller/pods.go:597-600 | every claimed pod in the store carries the lease granted last |
| PodSafety.WhenDeadlinesMoveBack | controller/pods.go:690-694 | a patch accepted on a claimed pod is a renewal, and moves its deadline back if and only if the time asked for, in whole seconds, lies before the stored deadline |
| PodSafety.ProxyRoutesToClaimedPods | controller/server.go:277-282 | the proxy gate admits only pods some client claimed |
| PodSafety.ReleaseAndRenewMeetClaimedPods | controller/pods.go:661-735 | although neither has a precondition, release never deletes and renew never stamps a standby pod |
| PodConvergence.CacheConverges | controller/pods.go:244-278 | once all records are delivered, whatever order answers, lists and events came in, the cache agrees with the store on a pod (cached if and only if stored, equal in all but runtime fields of claimed ones) if and only if its entry is neither late nor lost; a late entry is an older version or of a removed pod, a lost one of a stored, terminating pod |
| PodConvergence.WhatRewinds | controller/pods.go:443-495 | an entry becomes late if and only if the answer of a create, or of a refresh of an uncached pod, lands after the watch passed a later record of that pod; patch answers, events and lists never do it |
| PodConvergence.WhatDrops | controller/pods.go:402-464 | an entry goes missing if and only if it is dropped while the watch has not seen the pod removed: by the answer of a release, of a sweep that found no pod, of an accepted sweep of that very version, or of a refresh that found no pod |
| PodConvergence.NothingIsLate | controller/pods.go:178-193 | a replica on which no answer rewinds an entry has no late entry in any state; one that lands no create or refresh answer is such a replica |
| PodConvergence.LostArePending | controller/pods.go:410-420 | where no delete answer lands after the pod's last record, every missing entry awaits a record that will settle it |
| PodConvergence.CacheConvergesFully | controller/pods.go:132-137 | on a replica where no answer rewinds an entry or drops one for good, the delivered cache holds exactly the stored pods and agrees on each |
| PodConvergence.WhatRepairs | controller/pods.go:178-278 | a late or missing entry stops being so if and only if a list, a restart or the next record of the pod settles it, or an answer sets it to a version the watch has not passed, drops a late one, or sets a missing one |
| PodConvergence.HistoriesTellTheRun | controller/pods.go:178-498 | in every state of every run an entry is late, or missing, if and only if some answer rewound, or dropped, it and no later step repaired it |
| PodConvergence.ConvergesExactly | controller/pods.go:132-137 | over every run, once all records are delivered, cache and store agree on a pod if and only if every answer that rewound or dropped its entry was followed by a step that repaired it |
| PodWitnesses.LateCreateAnswerRewindsCache | controller/pods.go:489-495 | a reachable state in which cache and store agree and a create answer lands; afterwards nothing is in flight, the watch is caught up, and the entry is an older version than the store's |
| PodWitnesses.ReleasedPodMayBeUncached | controller/pods.go:720-732 | a reachable state in which the answer of a release lands; afterwards nothing is in flight, the watch is caught up, no entry is late, and the released, terminating, stored pod is not cached |
| PodWitnesses.RenewalMovesDeadlineBack | controller/pods.go:690-694 | a reachable state in which an accepted renewal lowers the stored deadline |
| PassWorld.OthersOnlyDrift | controller/pods.go:159-174 | over any stretch of any run without a create, all replicas together change the store only as a reconcile pass assumes of others |
| PassWorld.CreatesAreAdmissible | controller/pods.go:469-498 | a create adds exactly one unclaimed pod of the pool and its template under a name never used, in a starting phase, dated within the current second |
| PodCache.PatchMerges | controller/pods.go:609-655 | a patch answer is merged if and only if there is an entry that nobody touched, or that is neither claimed nor going while the answer claims it; it ends with the answer's claim, lease and version, the cached runtime fields, and a deletion mark of either; otherwise nothing changes |
| PodPolicy.VerdictMeans | controller/pods.go:329-369 | for each reason, in fields of the pod, exactly when a pass has it; a lease that does not parse has run out |
| PodPolicy.CandidatesAreFree | controller/pods.go:580-591 | a state may be handed out if and only if its pod is unclaimed, not terminating, of the pool's template, running, ready and addressed |
| PodManager.PodStateFrom | controller/pods.go:500-524 | every field of the state from the pod: ready if and only if some condition says so, claimed if and only if the mark is not empty, no lease unless it parses |
| PodManager.Manager.constructor | controller/pods.go:110-118 | a new manager knows no pods |
| PodManager.Manager.List | controller/pods.go:178-193 | the map becomes exactly the listed pods |
| PodManager.ListedMeans | controller/pods.go:183-189 | a name is listed if and only if an item bears it, with the state of the last item that does |
| PodManager.Manager.ApplyEvent | controller/pods.go:244-263 | a deletion drops the entry; a whole pod replaces it unless both versions are numbers and the cached one is at least as new; anything else is ignored; no other entry changes |
| PodManager.Manager.ApplyEvents | controller/pods.go:232-240 | events apply one after the other; an entry is still the same object exactly when none of them changed it |
| PodManager.Manager.ForgetPod | controller/pods.go:458-464 | the entry goes if and only if it has the given version, or the version is empty; other entries stay the same objects |
| PodManager.Manager.MirrorPatch | controller/pods.go:627-656 | the four-way merge of a patch answer by object identity, on one entry, as in the protocol |
| PodManager.Manager.CurrentState | controller/pods.go:526-535 | the lookup returns the cached state |
| PodManager.Manager.CheckRenew | controller/pods.go:661-689 | passes exactly the cached sandboxes that are claimed, not terminating and under a running lease; "not allocated" exactly for unclaimed ones, "not found" for all others |
| PodManager.Manager.CheckRelease | controller/pods.go:699-719 | passes exactly the cached sandboxes that are claimed and not terminating; "not allocated" exactly for unclaimed ones, "not found" for all others |
| PodManager.Manager.Pods | controller/pods.go:120-130 | a snapshot of exactly the cached pods, sorted by name, each once when entries are stored under their names |
| PodManager.Manager.Candidates | controller/pods.go:580-591 | exactly the claimable pods of the pool, sorted by name |
| CacheRefinement.DeliveriesAreApplyEvents | controller/pods.go:232-263 | delivering any stretch of the protocol's log to a replica leaves the cache that applying its watch events in order leaves |
| CacheRefinement.InstallIsList | controller/pods.go:178-193 | installing a fetched list leaves what the list loop makes of its items, in any order |
| CacheRefinement.PatchLandsAsMirrored | controller/pods.go:627-656 | a landing patch answer is mirrored as MirrorPatch does it |
| CacheRefinement.DeleteLandsAsForgotten | controller/pods.go:410-421 | a landing delete answer drops the entry, forgets the listed version, forgets any version, or goes on to refresh |
| CacheRefinement.RefreshLandsAsEvent | controller/pods.go:443-453 | a landing refresh is applied as an event, or the entry goes |
| CacheRefinement.CreateLandsAtOnce | controller/pods.go:489-495 | a landing create answer sets the entry |
| CacheRefinement.ServersPatchAlike | controller/pods.go:593-601 | the API server the code calls accepts a patch exactly when the protocol's server does, and stores the same pod |
| CacheRefinement.ServersDeleteAlike | controller/pods.go:402-409 | the two answer deletes alike |
| Allocation.PatchPod | controller/pods.go:614-657 | a patch takes effect exactly when its precondition holds at the server; the cache ends as the events that arrived during the call leave it, and an accepted answer is merged into that by the protocol's rule, told apart by whether the entry is still the same object |
| Allocation.Claim | controller/pods.go:593-607 | one patch conditioned on the version offered; accepted, it met the pod at that version and the answer is the stored pod, claimed, with a lease less than a second short |
| Allocation.TryCandidates | controller/pods.go:553-568 | the patches sent are one claim for each of the first candidates, in order, with its version as precondition and the clock of the call; all but the last lost a race; without an answer every candidate was tried and lost; an accepted one met the pod at the version offered, changed nothing but its marks and is what is promised; a failing API ends the round with at most one claim in effect |
| Allocation.Allocate | controller/pods.go:547-578 | whatever others do meanwhile, creating pods included, and whatever events arrive: each round offers exactly the claimable pods its cache shows, by name, and claims them in order, conditioned on their versions; the call ends with the first claim that does not lose its race, or after all rounds in which every one lost; a call claims at most one pod, the one returned, of the pool asked for, at the version offered, and so unclaimed, live and current when it was claimed, if cached versions tell pods |
| Allocation.Renew | controller/pods.go:661-695 | no call without a running cached lease; otherwise one unconditioned patch of the lease alone: the answer is the stored pod, "not found" exactly when the pod is gone, and a failure otherwise; the cache changes by events and the accepted answer only |
| Allocation.Release | controller/pods.go:699-735 | no call unless the cache holds a live claimed pod; otherwise one unconditioned delete, and the entry, whatever events made of it, goes unless the API failed |
| ReconcilePlan.ClassifyPods | controller/pods.go:326-369 | the loop lists exactly the pods with a reason to go, each once, and groups the standby pods of every pool in listing order |
| ReconcilePlan.TrimPools | controller/pods.go:371-394 | exactly the first surplus pods of each pool in trimming order are appended, pool by pool, each pool once, and pool sizes stay |
| ReconcilePlan.TrimmingIsOptimal | controller/pods.go:371-394 | trimmed and kept pods make up the pool; trimmed ones precede kept ones; a ready pod goes only if every kept pod is ready; the kept ones number min(count, size) with min(that, ready) ready |
| ReconcilePlan.NewerNamesGoFirst | controller/pods.go:383-389 | among equally ready pods a trimmed one has the greater name |
| ReconcilePlan.Plan | controller/pods.go:319-400 | the deletes are exactly the planned ones, ordered by reason and name, and no pod is deleted twice |
| ReconcilePlan.RanksAreTexts | controller/pods.go:395-400 | the order of reasons is that of their texts |
| Sorting.NameLessMeans | controller/pods.go:128 | the order of names is lexicographic |
| Reconcile.RefreshPod | controller/pods.go:443-453 | the entry becomes the fetched pod unless that is not newer, or goes if the pod is gone |
| Reconcile.SweepOne | controller/pods.go:402-421 | one delete conditioned on the listed version, and what each of its answers does to the cache: forgotten, dropped, refreshed or left |
| Reconcile.SweepAll | controller/pods.go:402-421 | one delete for every target, in order, on its listed version, whatever the answers; the returned names are exactly those answered Accepted; under interference no pool gains live pods and those are gone; undisturbed exactly the targets go |
| Reconcile.CreatePod | controller/pods.go:469-498 | one unclaimed pod of the pool's template, recorded in the cache at once |
| Reconcile.TopUpPool | controller/pods.go:429-437 | creates of the pool's template, as many as are missing or as far as the first that fails; at most the deficit is created, exactly the deficit when undisturbed |
| Reconcile.TopUp | controller/pods.go:423-437 | every pool in name order gets its whole deficit of creates or its own last one failed, however the others fare; every other pod is left alone |
| ReconcilePass.ReconcileStates | controller/pods.go:319-438 | a pass sends one delete for every planned pod, by reason and name, on its listed version, whatever the answers, and then, pool by pool in name order, as many creates as are missing or as far as the pool's first failing one; under any interference and failures a pool ends with at most its count plus the stuck and surplus pods whose delete was not answered Accepted in the pass; undisturbed one pass settles the store; a settled store needs no call |
| ReconcilePass.NeverOverProvisions | controller/pods.go:357-437 | the bound on live unclaimed current pods after the delete and create loops |
| ReconcilePass.Converges | controller/pods.go:319-438 | deleting the planned pods and creating the deficits leaves every pool with exactly its count and nothing to delete |
| ReconcilePass.SettledMeans | controller/pods.go:329-369 | settled if and only if every pod is going, leased, or unclaimed, current and ready or young, and every pool has exactly its count of live unclaimed current pods |
| ReconcilePass.UndisturbedPass | controller/pods.go:319-438 | exactly the doomed pods go or are marked, every other pod is untouched, and the rest is new pods of their pool |
| ReconcilePass.LeasedPodsAreSpared | controller/pods.go:340-345 | no pass has a reason to delete a claimed, unterminated pod whose lease runs |
| ReconcilePass.SettledIsFull | controller/pods.go:326-437 | over a settled store a pass plans no delete and no create |
| PoolOverview.HandlePools | controller/server.go:222-244 | every configured or seen pool gets the counts of its pods, each the number of pods of that kind |
| PoolOverview.TallyMeans | controller/server.go:235-244 | standby counts the running ready, pending the other live and claimed the claimed pods of the pool that are not being deleted |
| PoolOverview.SettledPoolsReportTheirSize | controller/server.go:228-244 | over a settled store standby plus pending is exactly the configured count, and zero for other pools |
| PoolOverview.ConvergedCacheAgrees | controller/server.go:226-228 | a delivered cache without late entries is fit for that report |
| PoolOverview.CachesAreKeyed | controller/pods.go:183-189 | in every run the cache stores each pod under its name, so a snapshot lists it once |
| GlobMatch.MatchSegments | agent/tar.go:98-118 | backtracking terminates and decides exactly whether the name splits among the pattern segments |
| TarFilter.MatchGlob | agent/tar.go:94-96 | the same for slash-separated strings |
| TarFilter.ExclusionIsInherited | agent/tar.go:55-72 | whatever lies below an excluded path is excluded |
| TarFilter.ExcludesAncestor | agent/tar.go:59-70 | the cutting loop tries the name and exactly its ancestors |
| TarFilter.IsExcluded | agent/tar.go:57-72 | true exactly when the path or an ancestor matches an exclude pattern |
| TarFilter.IsIncluded | agent/tar.go:75-89 | true exactly when not excluded and, if there are includes, one matches |
| TarPack.WriteNode | agent/tar.go:177-248 | the walk callback with its pruning writes what filtering the full walk below that entry selects |
| TarPack.WriteDirToTar | agent/tar.go:176-249 | the pruned walk writes exactly the selected entries of the full pre-order walk, in order |
| TarExtract.JoinStaysInside | agent/tar.go:456-465 | exactly the relative names that resolve to the destination or strictly below it are accepted, and below the root none |
| TarExtract.CleanNamesJoin | agent/tar.go:456-465 | a packed name, with or without a directory's slash, names its path below the destination |
| TarExtract.RootRejects | agent/tar.go:456-465 | below the root no packed name is accepted |
| TarExtract.ResolveOneMore | agent/tar.go:460 | empty and "." pieces of a name stay, ".." climbs one level but not above the root, others descend |
| TarExtract.ClimbingOut | agent/tar.go:461-463 | a name that climbs out of the destination is accepted if and only if it comes straight back in |
| TarExtract.BadEntriesStop | agent/tar.go:387-435 | extraction finds an archive bad exactly at a name outside, an entry that is neither directory nor regular file, or a regular file under a directory's name, whatever the filter |
| TarExtract.StopsAtBadEntry | agent/tar.go:387-435 | at the first bad entry it stops, and the disk keeps what the entries before it left |
| TarExtract.ExtractOne | agent/tar.go:381-436 | one entry's effect on disk and on the deferred stamps, or its error |
| TarExtract.StampDirs | agent/tar.go:437-450 | the deferred pass applies the stamps last to first, stopping at a failing chmod |
| TarExtract.ExtractTar | agent/tar.go:369-452 | the loops compute the extraction the laws below are about, with errors and the partial state they leave |
| TarTree.WalkEntries | agent/tar.go:176-222 | a packed tree's entries are those of its items, names and rounded times included |
| TarTree.WalkIsTree | agent/tar.go:176-249 | the entries of a walk have different paths, parents come first, and they list exactly the tree |
| TarRoundTrip.EntryStep | agent/tar.go:393-435 | extracting one entry into an open directory writes the file, creates a missing directory, or leaves one that is there, and records its stamp |
| TarRoundTrip.WriteOne | agent/tar.go:467-489 | a written file, new or overwritten, ends with the recorded content, mode and time, whatever the umask, and nothing else changes but the time of a new file's directory |
| TarRoundTrip.StampingFinishes | agent/tar.go:437-450 | the reverse pass never fails and leaves every directory final, read-only ones included |
| TarRoundTrip.ExtractsOver | agent/tar.go:369-452 | extracting a packed tree into a destination with content never fails where writable files stand under files and open directories under directories; every packed path ends with its content, mode and time, whatever stood there, and nothing else changes but the destination's time |
| TarRoundTrip.FileBringsDirectories | agent/tar.go:424-429 | a file is extracted with the directories it needs: missing ones are created with the default mode and nothing else changes |
| TarRoundTrip.DottedNamesExtractAlike | agent/tar.go:57-89 | a leading "./" in an entry's name makes no difference to its extraction, filter included |
| TarRoundTrip.RoundTrip | agent/tar.go:369-452 | what the packer writes of any tree under an empty filter extracts into an empty destination without failing, recovers exactly its directories and regular files, and changes nothing else |
| TarRoundTrip.RoundTripIsExact | agent/tar.go:467-498 | for every tree the copy equals the original if and only if every inode has a permission bit and a whole-second time that is not Go's zero time |
| TarRoundTrip.FilteringCommutes | agent/tar.go:381-419 | packing with a filter and extracting all gives the same outcome, on any disk and for every destination, as packing all and extracting with the filter, if and only if the destination is not the root, or the tree is empty, or something is selected |
| ChildOwnership.NextKeepsInv | agent/agent.go:93-170 | every step of start, exit, adoption, wait, scan and fallback keeps the ownership invariant |
| ChildOwnership.UnreapedAreRegistered | agent/agent.go:90-101 | in every interleaving every unreaped child of a command is registered under its process id with its own command, or its starter holds the lock |
| ChildOwnership.WaitFindsItsChild | agent/agent.go:106-108 | when a command's wait returns, its process id names its own zombie |
| ChildOwnership.ReaperTakesOrphans | agent/agent.go:129-136 | what the reaper collects, by listing or by fallback, is never a command's child, however stale the listing |
| ChildOwnership.ScansMissNothing | agent/agent.go:124-146 | every orphaned zombie on a listing is settled before the scan gets through it, in every interleaving |
| ChildOwnership.WhatSettles | agent/agent.go:129-142 | settled means collected, its status on record, or passed over because a command whose status is taken has yet to deregister the process id |
| ChildOwnership.StatusGoesToItsOwner | agent/agent.go:93-170 | a command's exit status is taken exactly once, by its own wait |
| ChildOwnership.ExitsAreTrue | agent/agent.go:106-108 | that status is the one the command's own child exited with |
| ChildOwnership.NothingLeaks | agent/agent.go:106-119 | once every command has been waited for, no registration and no command's child is left |
| ChildOwnership.HolderIsNeverBlocked | agent/agent.go:124-170 | the holder of the lock can always move, and each of its steps lowers a bound of two plus, in the fallback, the number of zombies |
| ChildOwnership.OnlyExitsDelay | agent/agent.go:151-170 | while the lock is held, no step but an exiting child raises that bound |
| ChildManager.Manager.Start | agent/agent.go:93-101 | fork and registration together; a failed fork changes nothing |
| ChildManager.Manager.Wait | agent/agent.go:106-119 | the status under the process id, and only the command's own registration removed |
| ChildManager.Manager.Reap | agent/agent.go:124-146 | a pass collects exactly the unowned zombies listed before the first failing wait |
| ChildManager.Processes.WaitAny | agent/agent.go:155-168 | waiting for any child takes one zombie, or none exactly when there is no zombie |
| ChildManager.Manager.ReapAnyIfIdle | agent/agent.go:151-170 | nothing while a command is registered; otherwise every zombie, or as many as were waited for before a wait failed |
| ChildManager.PassTakesExactlyOrphans | agent/agent.go:121-146 | a pass takes orphans only, keeps ownership, and with a full listing leaves no orphaned zombie |
| ShellStream.NextKeepsInv | agent/shell.go:265-293 | every step of scanners, waiter and handler keeps the stream invariant |
| ShellStream.NothingAfterClose | agent/shell.go:270-281 | in every interleaving nothing is sent on the closed channel |
| ShellStream.OutputSoFar | agent/shell.go:282-293 | the output so far is a prefix of the pid and what was sent, or all of it and part of the closing reports; each stream's part is a prefix of what its scanner produced |
| ShellHistory.ReturnedOutput | agent/shell.go:263-293 | a finished call wrote the pid, an order-preserving merge of every line either pipe gave and the scanners' failures, exactly one exit event with what the command's wait returned, then the directory and the environment the snapshots held, each exactly if there was one |
| ShellHistory.CodesAndLinesAreTrue | agent/shell.go:278-280 | in every state of every call the exit code held is what the command's wait returned, once, and what a scanner has taken is a prefix of what its pipe gave |
| ShellStream.NeverStuck | agent/shell.go:270-293 | once the command's wait has returned, an unfinished call can always take a step |
| ShellStream.FullChannelDrains | agent/shell.go:282-284 | a full channel can always be received from |
| ShellStream.CallsEnd | agent/shell.go:336-354 | once the command's wait has returned, the steps left are bounded by a rank that every step lowers |
| JsonText.QuoteRoundTrip | agent/shell.go:374-380 | decoding an encoded string gives it back with stray bytes replaced |
| JsonText.ScrubIsExact | agent/shell.go:374-380 | nothing is lost if and only if the text is valid Unicode |
| JsonText.EscapedIsHarmless | agent/shell.go:374-380 | an encoded string has no control character, no angle bracket or ampersand and no Unicode line separator |
| JsonText.QuoteBytes | sandbox.go:16-19 | n bytes take at most 6n + 2 bytes as a JSON string |
| ShellEvents.SseFieldValue | sandbox.go:346-351 | the value is what follows the first colon less one space, and empty without a colon |
| ShellEvents.Shell | sandbox.go:309-344 | the scan loop computes the parse the laws below are about, with early ends by refusal or an overlong line |
| ShellEvents.PayloadIsMeant | sandbox.go:315-321 | text payloads come back decoded, numbers and objects raw |
| ShellEvents.ParseEvent | sandbox.go:324-344 | a printed event in front of any stream is parsed, delivered and leaves the parser fresh |
| ShellEvents.PrintParse | agent/shell.go:376-380 | parsing any printed sequence of events delivers exactly those events, up to the first refused or oversized one |
| ShellEvents.DeliversAll | sandbox.go:324-344 | all events arrive if and only if every one fits a line |
| ShellEvents.LineEndsAreAlike | sandbox.go:324-344 | a stream whose lines end in a carriage return and a newline is parsed like one with newlines alone |
| ShellEvents.OtherLinesAreSkipped | sandbox.go:326-339 | comments and fields other than event and data make no difference |
| ShellEvents.DataIsJoined | sandbox.go:313 | data fields of one event are joined by newlines |
| ShellCall.OutputLinesFit | sandbox.go:16-19 | every output line the agent's scanner accepts fits the client's line limit |
| ShellCall.MeantIsGiven | sandbox.go:270-279 | the type and the data the client is given for each event, spelled out |
| ShellCall.DigitsRead | agent/shell.go:280 | pids and exit codes are written in decimal, without superfluous zeros |
| ShellCall.CallArrives | sandbox.go:279-286 | the client of a finished call is given the pid, an order-preserving merge of every line either pipe gave and the scanners' failures, the exit code the command's wait returned, then the directory and the environment the snapshots held, each exactly if there was one, provided the directory, the environment and the error texts each fit a line; pid, output lines and exit code always do |
| ShellCall.FailedStartArrives | agent/shell.go:254-258 | a command that cannot be started gives the client the error and exit code 127 |
| EnvOverlay.ApplyEnvOverrides | agent/shell.go:299-315 | the nested loops compute the overlay |
| EnvOverlay.OverlayMeans | agent/shell.go:299-315 | the overlaid list says what the base says with each override applied in order, for any overrides |
| EnvOverlay.OverridesOnTop | agent/shell.go:297-315 | for KEY=VALUE overrides that is the base map with the overrides' map on top, the last one winning |
| EnvOverlay.OverlayInPlace | agent/shell.go:304-308 | untouched entries stay in place, touched ones become the last override of their key |
| EnvOverlay.ParseEnvDump | agent/shell.go:317-326 | the snapshot's map, the last entry of a key winning |
| EnvOverlay.MentionedKeys | agent/shell.go:317-326 | a key is in that map if and only if an entry with an equals sign bears it |
| EnvOverlay.LastEntrySays | agent/shell.go:317-326 | its value is what follows the first equals sign in the last such entry |
| EnvOverlay.DumpRoundTrip | agent/shell.go:317-326 | a snapshot of a list without NUL reads back as what the list says |
| EnvOverlay.ReportIsExact | agent/shell.go:374-380 | the map a client decodes from the report, fields in any order, is the snapshot's if and only if no key or value has a stray byte |
| EnvOverlay.FeedingBack | agent/shell.go:124-183 | the snapshot's variables, reported as JSON and fed back over an empty base in any order, are all accepted if and only if no key is empty, the command runs with the variables as reported, a snapshot of those reads back the same, and they are the original ones if and only if no key or value has a stray byte |

## Left out

- HTTP handlers, form and query parsing, configuration, URL checks, uploads and downloads, Kubernetes credentials and the thin client: plumbing.
- Leader election itself: an exclusive right, see above.
- The namespace of pods and the `infos` rows of the overview: copied through.
- Context cancellation and the 500 ms pause in allocation: the number of rounds is a parameter. Cache events arrive during calls and between rounds; inside a reconcile pass they are left to the transition system.
- Sorting in place by index swaps: pools and targets are sequences sorted by a function proved to sort. Which goroutine holds the cache lock: the locked sections are single steps.
- Runtime fields (address, phase, readiness) of claimed cache entries: they need not converge, because a patch answer keeps the older ones under the newer version.
- Corrupt tar streams, unreadable or vanishing files while packing, symbolic links below the destination, and ownership other than the extractor's.
- The parsing and validation of filter patterns: a malformed one reaches the matcher as a segment that matches nothing.
- Interrupted waits: they are retried out of sight.
- Processes the agent runs without the child manager: ownership does not cover them.
- Pipe and process internals: a scanner may see any lines, any failure and the end of its pipe at any time; only after the command's wait returns nothing more is read.
- Errors of writing to a disconnected client: the handler ignores them, and so does the model.
- ShellEvents.PrintParse: the decoder of other JSON values than strings is modelled only as far as refusing them.
- `shellQuote` and `buildShellWrapper`: quoting for the shell, a one-line replacement and a template.
