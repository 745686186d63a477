# Flox controller: a verified model

A Dafny model of the controller that realises FloxEnvs on cluster nodes, and proofs of what it
guarantees. Three reconcilers and an admission webhook write fields the others watch, with blocking
builds, stale caches, rejected patches, edits and crashes in between; the model keeps all of that.

`dafny verify dfyconfig.toml` checks the whole project.

## How the model is laid out

**Node-agents.** `EnvMachine` is one transition system for the FloxEnv reconcilers of all nodes. A
reconcile is a task that moves through the API calls of `FloxEnvReconciler.Reconcile` one at a time:
read, first touch, manifest, one Get per dependency, slot, announce, build, list and stamp consumers,
commit. A label carries everything nondeterministic about a step (which stored version a read
returns, whether a patch is accepted, what a build returns), so a step is `Enabled` or not and `Apply`
gives the next state. Every version of every FloxEnv stays in the state, so a cached read may return
any of them. Status patches are merge patches: a changed field is overwritten, a changed list is
replaced whole, and an accepted patch refreshes the client's copy, as the client library does.
`log` and `writes` are histories no step reads. On this system stand `Soundness`, `DependencyOrder`,
`SlotDiscipline`, `LockRoll`, `Relock` and `Quiescence`.

`Delivered` says what stands behind a reconcile that does nothing, `AskedLock` which lock a Realize is asked
for, `StoredStatus` what each write leaves in the status.

**The loop between catalogs and envs.** `Quiescence` bounds the effective writes one env sees. `CatalogLoop`
closes the loop around it: catalogs with a queue that readiness moves feed, passes that stamp a revision
one env at a time, the agents, and the catalogs as manifests read them. `LoopRuns` puts runs of it
together; `TwoRevisions` and `FlappingEnv` are the two ways it goes on for ever, `BarrenNamespace` is the
case in which two revisions do not, and `LoopSettles` says exactly when the loop settles.

`EnvReconcile` is the same reconcile as the imperative method it is, proved against `AfterReconcile`.
`ReconcileRun` proves that every undisturbed call of it is a run of `EnvMachine`, call by call, so the
two descriptions are of one program. `Progress` proves bounded progress of rounds of such calls and
`ProgressRuns` carries that back to the transition system. Runs that show a property false start on a fresh
cluster; `Undisturbed`, `SingleAgent` and `TwoAgents` are what they are put together from.

**Catalog.** `CatalogReconcile` is one pass of the catalog reconciler, `CatalogRollup` the rollup and
its event filter, `RollupCache` the stored rollup over every sequence of events and passes.

**Gate.** `PodGate` is the gate controller's reconcile (narrowing, gate removal in place, the decision
loop), `GateWakeups` its queue, `Webhook` admission. `GateSafety` runs admission, the gate, the
scheduler and everyone who edits pods beside `EnvMachine`. `Coordinates` is about the one coordinate that gate,
wake-ups, builds and rolls know an env by.

**The rest.** `EnvRefs` and `FlakeInstalls` are the reference parsers and manifest rewriting,
`ConsumerRolls` the rolling of workloads, `EnvStatusRecord` the status record, `Gcroots` and
`GcrootWriter` how a node's GC roots move under crashes and concurrent builds.

## What turned out false, and what holds instead

Each comes with a concrete run or input, and with the exact condition under which the property holds.

- *An entry of status.realized means its generation was built.* The patch that announces Realizing
  refreshes the local copy, and the commit reports that copy's generation for the manifest read before
  the slot wait. A spec edit in between is reported realised without ever being built
  (`LostEdit.SpecEditIsLost`), and a gated pod is then bound for it
  (`UnbuiltRelease.GatedPodMayRunUnbuilt`). A commit is exact iff that refresh kept the generation
  (`Soundness.CommitIsExactIffNotSkewed`); without such refreshes every entry and every gated pod is right.
- *status.realized reports every node that realised.* A commit's patch replaces the list whole, so it may
  drop what another node committed during the build, with nothing queued (`LostEntry.EntryIsLost`). A
  stored entry of another node survives iff the commit's copy had it or its own entry did not change
  (`LostEntry.CommitKeepsEntryIff`).
- *A new lock is committed only after its consumers rolled.* True of every change but one: a commit may
  also put back the pin of a stale read, without a roll (`PinReverted.StaleReadRevertsThePin`).
  `LockRoll.LockMovesOnlyAfterRoll` says exactly when; with one agent that reads its own writes the
  exception cannot occur (`Relock.LockAlwaysRolls`).
- *A token moves only on a fresh lock.* The same stale read moves the honoured token although its Realize was
  asked for the old lock (`PinReverted.TokenMovesOnAnOldLock`). What was asked for is exact
  (`AskedLock.CommitFollowsItsStart`): no lock iff the relock that was read was not honoured or there was no
  pin. One agent that reads its own writes never does that (`AskedLock.HonouredRelockWasFresh`).
- *The roll is of what was built.* It stamps the consumers of the refreshed copy's coordinate
  (`Coordinates.RollFollowsTheCopy`), which is the built one iff the refresh kept the folder or default; it may
  not have (`Coordinates.RollMayMissTheBuild`).
- *Every env is eventually Realized.* A relock withdrawn after its build failed leaves an env that counts
  as already realised while Ready is False, and no reconcile touches it again
  (`WedgedEnv.WithdrawnRelockWedges`). Progress holds iff no env starts out so
  (`Progress.RoundsRealizeEverything`).
- *Narrowing a pod's node selector only tightens it.* An empty selector term matches nothing until the
  hostname requirement is added to it. `PodGate.NarrowingIsExact` characterises the outcome for all selectors.
- *A blank rollup is transient* (floxcatalog_controller.go:219-220). It lasts, with nothing queued, over
  exactly the event sequences in which no event passes the filter (`RollupCache.BlankLasts`).
- *The stored rollup is that of the envs.* A pass that reads a stale copy of its own status can leave an old
  one in place (`RollupCache.StaleReadKeepsAnOldRollup`): a pass ends right iff each field was sent or was
  right without it (`RollupCache.EndIsRightIffItLands`). Passes that read what is stored keep it right
  (`RollupCache.FreshPassesKeepTheRollup`).
- *The gate decides by what is realised.* It takes the first env of a listing with the coordinate, so of two
  that share one the listing's order decides, and an unlucky pod is forgotten (`GateWakeups.TwinsForgetAPod`).
  The first match tells the truth on every listing iff such twins are ready on the same nodes
  (`GateWakeups.FirstMatchIsRightIffTwinsAgree`).
- *A realisation wakes its waiters.* A handler whose pod List fails wakes nobody and is not retried
  (`GateWakeups.FailedListLeavesAPodGated`); a pod is then forgotten iff the env completes what some
  pod, neither queued nor requested, waits for (`GateWakeups.FailedListForgets`).
- *A workload is restarted once per lock.* One that consumes several envs has one restart marker for all of
  them, and some passes patch it twice iff two of its envs have different digests
  (`ConsumerRolls.PatchedTwiceIffDigestsDiffer`).
- *The loop between catalogs and envs settles* (floxenv_controller.go:103-106 gives it as the reason for returning
  without a write). Without failures and edits there are two ways it does not. An env with an install entry
  that waits for its catalog and another that fails reports whichever its unordered table is visited at
  first, and its readiness may move at every retry, at one revision and from a fresh cluster
  (`FlappingEnv.FreshEnvFlaps`). And two revisions are stamped, built and stamped over for ever wherever an
  env can be built (`TwoRevisions.TwoRevisionsNeverSettle`). There is no third: the loop settles iff no env
  of the namespace that has something ahead has two such entries, and all catalogs that resolved have one
  revision or no env of the namespace can be built (`LoopSettles.SettlesIff`).

## Where the code and its comments disagree

The model follows the code.

- The repository's README speaks of a `flox.dev/environment` annotation and of node-agents that never
  re-lock; the code reads `flox.seedmatic.io/environment.<container>` and lets flox lock afresh when a
  relock drops the pin.
- A relock is said to fire once per distinct annotation value (floxenv_controller.go:142-144). It fires when
  the value differs from the last honoured one: going back to an earlier value fires again, and a value
  that comes and goes between two reconciles never fires.
- The value of a nix-build annotation is called a mount path (podflox.go:101-106); it is a claim name, and
  the mount path is fixed.
- A failed markRealizing patch is said to lose only a hint (floxenv_controller.go:273-275); an accepted one also
  refreshes the copy the commit is made from, which is what three of the findings above turn on.

## Assumptions

- Relock, quiescence and progress are about one node-agent: the relock token is shared by all nodes.
- FloxEnvs that share a coordinate (folder, name), if any, are ready on the same nodes while the gate resolves
  it (`GateWakeups.Ordinary`), since it takes the first match; on one node no two FloxEnvs are realised at
  the same coordinate at once (`Gcroots.State` keeps one attempt per coordinate).
- Every pod passes admission before the gate or the scheduler sees it (`GateSafety.Admit`).
- A node's `kubernetes.io/hostname` label is its name, which is what the agents report.
- Others only remove scheduling gates, never the env-ready gate, and only tighten the selector of a gated
  pod; an update of a pod that is not the latest version is rejected. These are API-server rules.
- Coordinates are not nested in one another and none is another's name plus ".tmp" (`Gcroots.Laid`).
- The lock digest, the provisioner, host resolution and what catalogs return are parameters.

## Model

| member | source | states |
|---|---|---|
| Soundness.RealizedEntriesAreBacked | internal/controller/floxenv_controller.go:195-217 | over every run of any number of agents with stale reads and whole-list replacement, every version of status.realized has distinct nodes and only entries their own node committed after a Realize of its own completed |
| Soundness.EntriesMeanBuiltGenerations | internal/controller/floxenv_controller.go:200-207 | without skewed refreshes, every entry (node, g) means that node completed a Realize of generation g |
| Soundness.FreshClustersStaySound | internal/controller/floxenv_controller.go:195-217 | from any fresh cluster, every entry of every version was committed by its own node, one per node, after a build of its own of a generation at most the one reported |
| Soundness.CommitIsExactIffNotSkewed | internal/controller/floxenv_controller.go:276-287 | from markRealizing on, whatever happens, the commit reports the generation it built iff that patch's refresh kept the generation |
| Soundness.StepIsSound | internal/controller/floxenv_controller.go:88-223 | every step of the system keeps the soundness invariant |
| Soundness.StepIsExact | internal/controller/floxenv_controller.go:88-223 | every step without a skewed refresh keeps built and reported generations equal |
| Delivered.AtRestMeansBuilt | internal/controller/floxenv_controller.go:107-109 | one agent reading its own writes, no skewed refresh, from a fresh cluster: whenever an env is neither queued nor in flight, the agent completed a Realize of the generation stored |
| Delivered.SkipsExactlyTheCurrent | internal/controller/floxenv_controller.go:291-301 | a reconcile is cut short iff the relock it read was honoured and an entry of its node is ready and of the generation it read |
| Delivered.EditIsNotSkipped | internal/controller/floxenv_controller.go:107-109 | over every run, from a spec edit until an agent's next commit, no reconcile of that agent that read the edited object or a later one is cut short |
| Delivered.SkippedIsCommitted | internal/controller/floxenv_controller.go:107-109 | over every run of any agents, a skipped generation was reported by a commit of that very agent |
| StoredStatus.CommitStores | internal/controller/floxenv_controller.go:195-217 | from a copy in sync, a commit stores the reported lock if there is one, the relock read, Ready at the copy's generation, this node's entry with the paths Realize returned, and every other node's entry |
| StoredStatus.EarlyWrites | internal/controller/floxenv_controller.go:227-287 | Pending, a refusal and Realizing store their reason and message at the generation read, and nothing else |
| StoredStatus.HoldReports | internal/controller/floxenv_controller.go:321-336 | a held env names its unmet dependencies |
| StoredStatus.FailureReports | internal/controller/floxenv_controller.go:180-193 | a failed build, list or roll stores its reason, and nothing else |
| LostEdit.SpecEditIsLost | internal/controller/floxenv_controller.go:121-217 | a run in which an edit during the slot wait ends reported realised, with nothing queued, and is never built |
| LostEntry.CommitKeepsEntryIff | internal/controller/floxenv_controller.go:195-217 | in every sound state an accepted commit keeps another node's stored entry iff its copy had it, or its own entry is unchanged and the list is not sent |
| LostEntry.EntryIsLost | internal/controller/floxenv_controller.go:195-217 | a run of two agents from a fresh cluster in which one commit drops the other's entry, leaving the env Ready with nothing queued |
| EnvMachine.OnlyCommitWritesMore | internal/controller/floxenv_controller.go:227-287 | apart from the commit a reconcile stores nothing but a new Ready condition |
| DependencyOrder.RealizeFollowsDependencies | internal/controller/floxenv_controller.go:138-140 | while no edit changes a dependsOn (envs may be created and specs otherwise edited) and nothing is Ready at first: when a Realize of an env starts, every env in its transitive dependsOn closure has completed one; an env that reaches a cycle or a missing name never starts |
| DependencyOrder.ReachingACycleNeverStarts | internal/controller/floxenv_controller.go:305-319 | an env whose dependencies reach a cycle is never built |
| DependencyOrder.ReachingAMissingNameNeverStarts | internal/controller/floxenv_controller.go:305-319 | an env whose dependencies reach a missing name is never built |
| DependencyOrder.StepKeepsOrder | internal/controller/floxenv_controller.go:88-223 | every step that changes no dependsOn, creations included, keeps: Ready implies a completed build, every start follows a completion of each direct dependency |
| SlotDiscipline.SlotsAreBounded | internal/controller/floxenv_controller.go:71-80 | over every run, the channel holds one token per reconcile past its acquire, at most RealizeSlots of them, or two if that is not positive, and no more builds run than that |
| SlotDiscipline.StepMovesItsOwnToken | internal/controller/floxenv_controller.go:152-160 | each step moves the channel by exactly what its own reconcile holds; one held on a flake or on dependencies holds nothing |
| SlotDiscipline.AcquiresBelowCapacity | internal/controller/floxenv_controller.go:71-80 | a waiting reconcile goes on iff fewer than RealizeSlots are taken, or fewer than two if that is not positive |
| LockRoll.LockMovesOnlyAfterRoll | internal/controller/floxenv_controller.go:184-217 | over every run, a commit that moves the stored lock moves it to the lock it built, and follows a pass of the same reconcile in which every listed consumer carried that lock's digest iff the lock is not the pin the reconcile had read; if it is, the announcing patch had brought in another pin |
| LockRoll.RollIsNeededExactlyForANewLock | internal/controller/floxenv_controller.go:189-193 | at a commit such a pass is complete iff the built lock is non-empty and not the pin that was read |
| PinReverted.StaleReadRevertsThePin | internal/controller/floxenv_controller.go:189-199 | a run of two agents from a fresh cluster in which the commit of a stale read puts back an old lock and token with no roll |
| Relock.RelockIsNeitherLostNorRepeated | internal/controller/floxenv_controller.go:142-150 | one agent reading its own writes: a pending relock is always queued or in flight, with nothing due the token equals the annotation, and committed forced builds never outnumber annotation writes plus one |
| Relock.LockAlwaysRolls | internal/controller/floxenv_controller.go:184-193 | for such an agent every commit that moves the lock follows a completed roll of the same reconcile |
| Relock.CommitIsRealized | internal/controller/floxenv_controller.go:195-217 | a committed status carries the honoured token and this node's entry, so the next reconcile finds it realised unless the annotation or spec moved |
| AskedLock.EveryStartIsAsked | internal/controller/floxenv_controller.go:142-150 | over every run, each started Realize was asked for what some stored version of its env at that generation says: no lock if its relock is pending, its pin otherwise |
| AskedLock.CommitFollowsItsStart | internal/controller/floxenv_controller.go:142-176 | over every run, a commit follows a start of the same reconcile, of the generation it built, asked for lock "" iff the relock read was not honoured or there was no pin, and for the pin read otherwise |
| AskedLock.MovedTokenWasAsked | internal/controller/floxenv_controller.go:199-199 | a commit that moves the honoured token was asked for lock "", unless its refreshed copy brought in another token |
| AskedLock.HonouredRelockWasFresh | internal/controller/floxenv_controller.go:142-150 | for one agent that reads its own writes, every commit that moves the honoured token was asked for lock "" |
| PinReverted.TokenMovesOnAnOldLock | internal/controller/floxenv_controller.go:145-199 | a run from a fresh cluster in which the commit of a stale read moves the token on the old lock |
| Quiescence.FeedbackLoopSettles | internal/controller/floxcatalog_controller.go:126-149 | one env, one revision, one agent, its spec fixed: in any interleaving, however long, whatever happens to other envs, it sees at most ten effective writes and four more for each setback of its own (a crash, a failed build, roll or commit, an obstacle that is not expected or not the one before) |
| Quiescence.StepDecreases | internal/controller/floxenv_controller.go:99-217 | every step that is no setback of the env keeps or lowers its measure, and strictly if it writes to it effectively |
| Quiescence.StepIsCharged | internal/controller/floxenv_controller.go:99-217 | every step, setbacks included, takes its effective write out of the measure, up to four for a setback |
| CatalogLoop.RefusesAsReconcileDoes | internal/controller/floxenv_controller.go:121-133 | an env is refused for an obstacle its manifest has, and gets through iff it has none, as Reconcile does |
| CatalogLoop.OneRevisionSettles | internal/controller/floxcatalog_controller.go:126-149 | catalogs queued by readiness moves, passes, refused patches included, interleaved with the agent's steps: at one revision, with no env that has something ahead and two kinds of obstacle, every run makes at most ten effective writes per env |
| BarrenNamespace.BarrenSettles | internal/controller/floxcatalog_controller.go:126-149 | where no env can be built or has two kinds of obstacle, at any revisions, the writes of every run are bounded by the sizes of the namespace |
| BarrenNamespace.StepStaysBarren | internal/controller/floxenv_controller.go:305-319 | where each env is refused or has a dependency that was never Ready, no reconcile gets past its dependencies and none of them becomes Ready |
| TwoRevisions.TwoRevisionsNeverSettle | internal/controller/floxcatalog_controller.go:130-144 | with two revisions and an env that can be built there are runs of the queues, passes and builds, nothing failing, that make any number of effective writes |
| FlappingEnv.FlappingNeverSettles | internal/controller/floxenv_controller.go:401-433 | with an env that waits for one catalog, fails on another and is not at rest there are such runs at any revisions |
| FlappingEnv.FreshEnvFlaps | internal/controller/floxenv_controller.go:125-129 | such runs from a fresh cluster with one env, one agent and one revision |
| LoopSettles.SettlesIff | internal/controller/floxcatalog_controller.go:126-149 | some bound holds for the effective writes to the namespace in all runs in which no build, roll, commit or stamp fails, nothing crashes and nobody edits, iff no env with something ahead has both an entry that waits and one that fails, and all catalogs that resolved have one revision or no env has a manifest that gets through and dependencies that were ever Ready |
| CatalogLoop.StampsWakeNobody | internal/controller/floxcatalog_controller.go:293-304 | a stamp moves no readiness, so it queues no catalog |
| EnvReconcile.FloxEnvReconciler.IsAlreadyRealized | internal/controller/floxenv_controller.go:291-301 | true iff the annotation equals the honoured token and some entry has this node, is ready and has the current generation |
| EnvReconcile.FloxEnvReconciler.UnmetDeps | internal/controller/floxenv_controller.go:305-319 | the declared names, in order, that are missing or not Ready |
| EnvReconcile.NothingUnmet | internal/controller/floxenv_controller.go:305-319 | nothing is unmet iff every declared name is an env of the same namespace whose Ready is True |
| EnvReconcile.FloxEnvReconciler.MarkNotReady | internal/controller/floxenv_controller.go:227-287 | Ready=False with the reason, best effort |
| EnvReconcile.FloxEnvReconciler.Realise | internal/controller/floxenv_controller.go:162-223 | asks for the resolved manifest with schema-version filled in, under spec.folder or the namespace, with the pin iff the annotation equals the honoured token and else with none; stored objects, workloads and outcome are what follows from the answer |
| EnvReconcile.RequestAsksFor | internal/controller/floxenv_controller.go:111-176 | the request's target, manifest and lock, clause by clause |
| EnvReconcile.RollIsOfTheRequest | internal/controller/floxenv_restart.go:37-73 | undisturbed, a new lock rolls what consumes the coordinate that was asked for |
| EnvReconcile.ReturnsReads | internal/controller/floxenv_controller.go:91-140 | done, error, requeue at once, in 15 seconds for a catalog or in 10 for dependencies, by the first thing in the way |
| EnvReconcile.FloxEnvReconciler.Reconcile | internal/controller/floxenv_controller.go:88-223 | stored objects, workloads and outcome are those of AfterReconcile, the slot is returned on every path and a wait for it that is cancelled takes none, a manifest that waits, fails to resolve or fails to serialise never reaches the provisioner and the reason names an entry that does so |
| ReconcileRun.ReconcileIsARun | internal/controller/floxenv_controller.go:88-223 | every undisturbed reconcile is a run of the transition system with the same objects and workloads, its slot returned, its key queued again iff it asks for that |
| ReconcileRun.RunFromSlot | internal/controller/floxenv_controller.go:152-217 | the part from the slot wait to the return is a run with the outcome of AfterRealize |
| ReconcileRun.StampRest | internal/controller/floxenv_restart.go:60-73 | stamping one listed workload at a time adds up to what a pass patches and reports |
| ReconcileRun.CheckRest | internal/controller/floxenv_controller.go:305-319 | one Get per declared name adds up to the unmet list |
| Progress.RoundsRealizeEverything | internal/controller/floxenv_controller.go:96-217 | acyclic dependencies, resolved catalogs, a succeeding provisioner: after one round more than there are envs, in any order, all are Realized iff none started out wedged |
| Progress.VisitedEnv | internal/controller/floxenv_controller.go:96-140 | one reconcile gives the env it visits a condition, keeps what was settled settled, and settles it when it had a condition, was not wedged and its dependencies were Ready |
| Progress.RoundSettlesOne | internal/controller/floxenv_controller.go:138-140 | a covering round settles at least one more env and unsettles none |
| ProgressRuns.ClusterGetsRealized | internal/controller/floxenv_controller.go:96-217 | those rounds are a run of the transition system and end with the same result |
| WedgedEnv.WithdrawnRelockWedges | internal/controller/floxenv_controller.go:103-109 | a run of one agent reading its own writes, from a fresh cluster, that leaves an env already realised but not Ready, with nothing queued |
| EnvStatusRecord.UpsertIsMapUpdate | internal/controller/floxenv_controller.go:442-452 | status.realized stays a map keyed by node: this node's entry is replaced or added, all others stay |
| EnvStatusRecord.LocalEnv.UpsertRealization | internal/controller/floxenv_controller.go:444-452 | the first entry of the node is replaced, or one is appended |
| ConsumerRolls.WorkloadStore.StampConsumer | internal/controller/floxenv_restart.go:78-99 | patches a workload iff its template consumes the env and lacks the digest; fails iff that patch is rejected |
| ConsumerRolls.WorkloadStore.RestartConsumers | internal/controller/floxenv_restart.go:37-74 | succeeds iff all lists came back and every listed consumer carries the digest now; patches exactly the consumers that lacked it and accepted |
| ConsumerRolls.PassIsRestartConsumers | internal/controller/floxenv_restart.go:60-73 | a pass of the retry model is RestartConsumers on a listing of the stored workloads, and succeeds iff no consumer is left unstamped |
| ConsumerRolls.PassShrinksUnstamped | internal/controller/floxenv_restart.go:85-98 | a pass leaves unstamped exactly the consumers whose patch was rejected |
| ConsumerRolls.NeverPatchedTwice | internal/controller/floxenv_restart.go:88-98 | however often passes fail and repeat at unchanged locks, a workload whose envs have one digest is patched at most once |
| ConsumerRolls.StampKeepsRefs | internal/controller/floxenv_restart.go:95 | stamping a template changes none of its references |
| ConsumerRolls.StampsReads | internal/controller/floxenv_restart.go:78-95 | a template is stamped iff some flox.seedmatic.io/environment.* annotation names the env and its restarted-for-lock annotation is not the digest |
| Coordinates.RollFollowsTheCopy | internal/controller/floxenv_restart.go:40-44 | a stamp is for the folder, or namespace, and name of the refreshed copy |
| Coordinates.RollMayMissTheBuild | internal/controller/floxenv_restart.go:40-44 | a run from a fresh cluster in which that is not the coordinate that was built |
| ConsumerRolls.PatchedTwiceIffDigestsDiffer | internal/controller/floxenv_restart.go:85-98 | some sequence of passes at unchanged locks patches a workload twice iff it consumes two envs with different digests |
| ConsumerRolls.SharedMarkerAlternates | internal/controller/floxenv_restart.go:24-24 | two passes, one for each of two such envs, patch the workload both times and bring it back to where it was |
| EnvRefs.RefsFromAnnotations | internal/floxenv/floxenv.go:39-62 | the canonical strictly sorted list of the set of references, whatever order the map is visited in |
| EnvRefs.RefsAreCanonical | internal/floxenv/floxenv.go:55-61 | any strictly sorted listing of the references is the same list, and two annotation maps give the same list iff they refer to the same set of envs |
| EnvRefs.SortedIsCanonical | internal/floxenv/floxenv.go:55-61 | a set of references has only one strictly sorted listing |
| EnvRefs.RefOrderTotal | internal/floxenv/floxenv.go:55-60 | the comparison is a strict total order |
| EnvRefs.StringOrderReads | internal/floxenv/floxenv.go:55-60 | the first differing byte decides, and a proper prefix comes first |
| EnvRefs.RefOrderReads | internal/floxenv/floxenv.go:55-60 | by folder, then by name |
| EnvRefs.RefSetReads | internal/floxenv/floxenv.go:39-54 | an env is referred to iff some flox.seedmatic.io/environment.* annotation is "<folder>/<name>", or the bare name under networking |
| EnvRefs.RefRoundTrip | internal/floxenv/floxenv.go:46-49 | folder/name with a slash-free name parses back for any folder, parsing then printing is the identity on values with a slash, and admission's name is the parsed name |
| FlakeInstalls.CatalogRefRoundTrip | internal/controller/floxenv_controller.go:379-395 | printing and parsing a floxcatalog reference is the identity iff it is well formed |
| FlakeInstalls.ResolveFlakeInstalls | internal/controller/floxenv_controller.go:401-440 | resolves iff every entry does, and then to the one manifest with every entry rewritten, each reference to its catalog's flake and output; otherwise names an entry that waits or fails |
| FlakeInstalls.ResolutionIsCompleteAndMinimal | internal/controller/floxenv_controller.go:397-440 | no install flake keeps the pseudo-scheme and nothing but those fields changes |
| FlakeInstalls.ResolutionIsIdempotent | internal/controller/floxenv_controller.go:401-440 | resolving a resolved manifest again succeeds and changes nothing |
| FlakeInstalls.ResolvedInstalls | internal/controller/floxenv_controller.go:419-437 | every well-formed reference of a resolved manifest has become the flake of the catalog it names, in the namespace written or the env's, followed by "#" and its output if it has one |
| FlakeInstalls.EntryResolvesTo | internal/controller/floxenv_controller.go:419-437 | for every well-formed reference: fails without its catalog, waits for an unresolved one, and otherwise becomes that text |
| FlakeInstalls.DerivedRefsAreConcrete | internal/controller/floxcatalog_controller.go:84-87 | the reference a catalog derives is "tarball+" and the URL, with "?dir=" and the directory if there is one; it is never empty and never uses the pseudo-scheme |
| CatalogReconcile.FloxCatalog.Reconcile | internal/controller/floxcatalog_controller.go:50-117 | a source without a reference leaves the last good one and the envs alone; otherwise revision, URL, reference and rollup move together and the revision is propagated only after, to all the listed envs or to those before a refused patch |
| CatalogReconcile.FloxCatalog.PropagateRelock | internal/controller/floxcatalog_controller.go:126-149 | stamps exactly the listed envs that lack the revision, in order, up to the first refused patch, and reports whether it got through |
| CatalogReconcile.StampedIsStable | internal/controller/floxcatalog_controller.go:134-147 | a complete pass over a fresh listing puts every env at the revision, touches only the annotation, and has nothing left to do |
| CatalogRollup.EnvsRollup | internal/controller/floxcatalog_controller.go:221-248 | the summary counts the envs with Ready True, all envs, and the others whose reason is Realizing; the plan lists each env with its reason; both blank when the List failed |
| CatalogRollup.CountsFit | internal/controller/floxcatalog_controller.go:228-242 | ready plus realising never exceeds the total |
| CatalogRollup.SummaryIsFaithful | internal/controller/floxcatalog_controller.go:243-246 | equal summary lines mean equal counts |
| CatalogRollup.SummaryReads | internal/controller/floxcatalog_controller.go:243-246 | the line is "<ready>/<total> ready", with ", <n> realizing" if there are any |
| CatalogRollup.DecimalReads | internal/controller/floxcatalog_controller.go:243-246 | its numbers are the decimal numerals of the counts |
| CatalogRollup.ReadinessIsFaithful | internal/controller/floxcatalog_controller.go:293-312 | an update is dropped iff neither object has the condition or both have the same status and reason |
| CatalogRollup.UpdateMovesRollupIff | internal/controller/floxcatalog_controller.go:228-247 | an update moves the rollup iff it moves the env's phase or whether it is ready |
| CatalogRollup.DroppedUpdatesKeepTheRollup | internal/controller/floxcatalog_controller.go:290-304 | dropped updates leave summary and plan unchanged; passed ones that do so only move between statuses that are not True |
| RollupCache.RollupIsNeverStale | internal/controller/floxcatalog_controller.go:270-312 | over every run of events and of passes whose patches land, with none due or in flight the stored rollup is that of the current envs, or blank where a List failed |
| RollupCache.FreshPassesKeepTheRollup | internal/controller/floxcatalog_controller.go:50-103 | the same over every run whose passes read the catalog as it is stored, with nothing asked of their patches |
| RollupCache.StepIsRight | internal/controller/floxcatalog_controller.go:89-103 | every event and every half of a pass keeps that invariant |
| RollupCache.PatchIsRightIff | internal/controller/floxcatalog_controller.go:89-98 | a merge patch leaves the rollup of the envs iff each field was sent or was right without it (the plan up to order) |
| RollupCache.EndIsRightIffItLands | internal/controller/floxcatalog_controller.go:89-103 | a pass that ends with nothing queued ends right iff its patch so lands |
| RollupCache.RestLastsUntilAnEventPasses | internal/controller/floxcatalog_controller.go:270-304 | over every run from rest, the stored rollup stays with nothing queued iff no event reaches the queue |
| RollupCache.BlankLasts | internal/controller/floxcatalog_controller.go:225-227 | a pass whose List failed leaves a rollup that is nobody's, with nothing queued, and over every run it stays iff no event reaches the queue |
| RollupCache.StaleReadKeepsAnOldRollup | internal/controller/floxcatalog_controller.go:53-103 | a run in which a pass that read a stale copy of the catalog leaves the phases of envs that are no more |
| PodGate.NarrowingIsExact | internal/controller/podgate_controller.go:144-176 | a narrowed pod may run on a node iff its hostname is among the nodes and it matched before, or there were no terms, or one was empty |
| PodGate.NarrowingTightens | internal/controller/podgate_controller.go:144-176 | without empty terms narrowing is exactly the conjunction with the hostname set |
| PodGate.NarrowingOnlyAdds | internal/controller/podgate_controller.go:144-176 | every term is a prefix of its new term and fields stay, as tightening a gated pod requires |
| PodGate.NarrowingAgainChangesNothing | internal/controller/podgate_controller.go:163-175 | narrowing again to the same nodes in any order changes no match |
| PodGate.NarrowingTwiceIsOnce | internal/controller/podgate_controller.go:163-175 | narrowing again in the same order adds nothing |
| PodGate.NarrowsByHostname | internal/controller/podgate_controller.go:149-158 | a pod without terms may run iff the node's kubernetes.io/hostname is among the nodes |
| PodGate.Pod.NarrowToNodes | internal/controller/podgate_controller.go:149-176 | the selector becomes Narrowed of the old one |
| PodGate.Pod.HasRequirement | internal/controller/podgate_controller.go:178-197 | true iff the requirement is among the expressions |
| PodGate.Pod.Release | internal/controller/podgate_controller.go:88-103 | narrows iff there are nodes, and compacts the gate list over its own array to the gates other than env-ready, in order |
| PodGate.WithoutGateKeepsOthers | internal/controller/podgate_controller.go:92-97 | exactly the env-ready gates go |
| PodGate.Pod.Reconcile | internal/controller/podgate_controller.go:38-83 | releases iff gated and there is no reference, or every one resolves and some node is ready for all; to exactly those nodes; otherwise changes nothing |
| PodGate.Decide | internal/controller/podgate_controller.go:56-82 | the seeded, early-exiting loop releases iff all references resolve and a common ready node exists, with exactly that set |
| PodGate.VerdictIsExact | internal/controller/podgate_controller.go:56-82 | after any number of turns the loop goes on iff all references so far resolve and a common ready node exists, with exactly that set |
| PodGate.ResolveFloxEnv | internal/controller/podgate_controller.go:108-119 | the first env of the listing with the name and with the folder, or without a folder and in the namespace |
| PodGate.ReadyNodesForEnv | internal/controller/podgate_controller.go:134-142 | the nodes with an entry that is ready and has the current generation |
| PodGate.Intersect | internal/controller/podgate_controller.go:208-216 | set intersection |
| GateWakeups.FirstMatchIsRightIffTwinsAgree | internal/controller/podgate_controller.go:108-119 | on every listing the first match shows just where the coordinate is realised, iff the envs that share it are ready on the same nodes |
| GateWakeups.ReleasesIffSomeListing | internal/controller/podgate_controller.go:56-82 | twins or not, some node carries the current generation of every reference iff the reconcile releases on some listings of the cluster |
| GateWakeups.DecisionIsReleases | internal/controller/podgate_controller.go:56-82 | if twins agree, the reconcile decides alike on all listings, and releases to exactly the nodes that carry every reference |
| GateWakeups.NoLostWakeUp | internal/controller/podgate_controller.go:242-266 | a pod that stays gated on every listing before a create or update of one env, its folder included, and is released on some listing after it, is among the waiters the event queues |
| GateWakeups.WaitersAreTheGatedReferrers | internal/controller/podgate_controller.go:253-264 | a pod is requested iff it is gated and refers to the env |
| GateWakeups.GatedPodsForEnv | internal/controller/podgate_controller.go:242-266 | requests exactly the pods with the env-ready gate that refer to the env's folder, or its namespace if it has none, and name; in listing order |
| Coordinates.PodOfEnvIsServed | internal/controller/podgate_controller.go:108-128 | with unique coordinates, a gated pod that names the env's folder, or its namespace if it has none, is released when the env is realised on a node where its other references are met, and is among the env's waiters |
| Coordinates.FolderlessEnvIsServed | internal/controller/podgate_controller.go:122-128 | so is a pod annotated networking/kdns by env kdns of namespace networking |
| Coordinates.FoundUnder | internal/controller/podgate_controller.go:108-128 | an env is found under exactly one reference |
| GateWakeups.NoWakeUpIsLost | internal/controller/podgate_controller.go:226-266 | over every run whose reconciles resolve one listing at a time by first match, with events between any two steps, no gated pod the cluster allows is forgotten; at rest none of them would be released on any listing |
| GateWakeups.AtRestNobodyIsReleasable | internal/controller/podgate_controller.go:56-82 | with nothing queued or in flight, no listing of the cluster, first match or not, releases a gated pod |
| GateWakeups.TwinsForgetAPod | internal/controller/podgate_controller.go:113-117 | of two envs with one coordinate and one of them ready, a reconcile that lists the other first leaves a releasable pod gated with nothing queued |
| GateWakeups.FailedListForgets | internal/controller/podgate_controller.go:232-251 | an env's event, whose handler lists pods for the old and the new object, forgets a pod iff, before it, some gated pod neither queued nor requested referred to the new coordinate, its other references were ready on a node the env is now ready on, and no reconcile of the pod under way still had that node; only if no List for the new coordinate worked |
| GateWakeups.FailedListLeavesAPodGated | internal/controller/podgate_controller.go:249-251 | and that happens |
| GateSafety.GateIsSafe | internal/controller/podgate_controller.go:38-103 | over every interleaving of admissions, edits, realisations, stale reads, rejected updates and bindings, a pod admitted gated is bound only after a release that covered all its references, to a node that committed the generation read for each |
| GateSafety.GatedPodsRunWhereRealized | internal/controller/podgate_controller.go:130-176 | without skewed refreshes that node completed a Realize of exactly that generation |
| GateSafety.StepIsSafe | internal/webhook/podflox.go:79-99 | every admission, pod edit, binding and gate step keeps the barrier invariant |
| GateSafety.StepsAreTheLoop | internal/controller/podgate_controller.go:56-82 | resolving one reference per step, with anything in between, decides as PodGate.Pod.Reconcile does on the listings it got |
| GateSafety.ClusterRuns | internal/controller/podgate_controller.go:38-103 | the gate never disturbs the node-agents: their part of a combined run is a run of theirs |
| UnbuiltRelease.GatedPodMayRunUnbuilt | internal/controller/podgate_controller.go:130-142 | after the lost edit, a gated pod is bound for a generation no node ever built |
| Webhook.UpsertAllIsLeftBiasedMerge | internal/webhook/podflox.go:296-305 | upserting a list keeps the container's own as a prefix and appends the first occurrence of each name it lacks |
| Webhook.DefaultedEnv | internal/webhook/podflox.go:253-268 | a container's env after admission is its own followed by the new ones of settings, injects and NIX_CONFIG; one no annotation names is untouched |
| Webhook.OptedInReads | internal/webhook/podflox.go:204-268 | a container annotated "<folder>/<name>" is given the four settings and then the variables that env declares, as values or from secrets |
| Webhook.ClaimReads | internal/webhook/podflox.go:154-166 | a container with a nix-build annotation gets NIX_CONFIG and one mount of the claim, each unless it is there |
| Webhook.ClaimsRead | internal/webhook/podflox.go:107-112 | the claims are the non-empty values of the nix-build annotations |
| Webhook.DefaultIsIdempotent | internal/webhook/podflox.go:62-70 | admitting an admitted pod again, the cluster unchanged, changes nothing |
| Webhook.AdmissionGates | internal/webhook/podflox.go:79-99 | an unbound pod that opts in leaves gated, a bound one is never gated, no second gate is added |
| Webhook.PodFloxMutator.Default | internal/webhook/podflox.go:62-70 | gates, volumes and every container's env and mounts are the specified ones; fails iff a claim cannot be ensured |
| Webhook.PodFloxMutator.InjectFloxWait | internal/webhook/podflox.go:79-99 | settings and injects into every opted-in container, then at most one gate |
| Webhook.PodFloxMutator.InjectFloxEnv | internal/webhook/podflox.go:204-221 | every container gets the variables of the env its annotation names, by the last segment |
| Webhook.PodFloxMutator.InjectFloxEnvInto | internal/webhook/podflox.go:253-268 | one container |
| Webhook.PodFloxMutator.InjectNixBuild | internal/webhook/podflox.go:107-150 | one volume per distinct claim, mounted on the containers assigned it |
| Webhook.PodFloxMutator.EnsureVolumes | internal/webhook/podflox.go:121-138 | appends one volume for each claim that had none; fails iff some claim cannot be ensured |
| Webhook.PodFloxMutator.MountInto | internal/webhook/podflox.go:154-166 | mounts the claim once and upserts NIX_CONFIG |
| Gcroots.RootsMoveAtomically | internal/provisioner/exec.go:299-315 | over every run of concurrent Realize calls with failures and crashes anywhere, each root is what the last rename made it, a root once present is never absent, and the activation root is never of a later attempt than the env root |
| Gcroots.RootsOfAnyHost | internal/provisioner/exec.go:127-160 | from any host that lets the links be made: a root not renamed onto is as found, one that was is the link, below env, to what its attempt added, or, below activation, to what it built; the activation is never ahead, and every Realize in flight can go on |
| Gcroots.StepIsGood | internal/provisioner/exec.go:148-160 | every file system step keeps that invariant |
| Gcroots.NextIsEnabled | internal/provisioner/exec.go:302-315 | no step of a write can fail by what other writes or an earlier crash left |
| Gcroots.RealizeCompletes | internal/provisioner/exec.go:127-160 | a Realize whose build and add succeed completes within ten steps with both roots moved, from any state a crash may have left |
| Gcroots.CompletedLinks | internal/provisioner/exec.go:133-160 | ten steps after its start, <base>/env/<folder>/<name> links what it added and <base>/activation/<folder>/<name> what it built |
| GcrootWriter.Host.WriteGcroot | internal/provisioner/exec.go:302-315 | succeeds whenever the path can be written, whatever temporary link was left; on failure the root is as it was; no other path moves |
| GcrootWriter.Host.Realize | internal/provisioner/exec.go:133-160 | nothing is rooted before build and add succeeded, the activation only once the env is; on success <base>/env/<folder>/<name> links what was added and <base>/activation/<folder>/<name> what was built |
| GcrootWriter.Host.MkdirAll | internal/provisioner/exec.go:303-305 | succeeds iff no prefix is a link; leaves the prefixes made so far when it fails |

## Left out

- Subprocesses (flox, nix, ctr, nsenter, systemd-run), token reading, DNS lookup and HTTP: foreign calls. A build is a result or a failure; the choice of the run symlink after a build is not modelled.
- The carrier image, its containerize and import step, spec.consumption, `Prune` and base self-provisioning: single branches around foreign calls.
- TOML and JSON encoding: a manifest is a nested map, and whether it decodes and serialises is a parameter.
- Deletion and re-creation of FloxEnvs and pods: a key keeps its history. The gate's queue (`GateWakeups`) does include deletions.
- Other condition types: the condition list is its Ready condition, the only one these controllers set. lastTransitionTime is not modelled.
- EnvReconcile.FloxEnvReconciler.Reconcile: does not model the error texts of a failed serialisation, build or roll, which the transition system leaves open; the 10 and 15 second requeues are outcomes, and that the queue eventually serves them is not modelled.
- Quiescence.FeedbackLoopSettles: is about a fixed spec and one revision; each edit of the spec, or of the annotation by someone else, is the start of another run of it.
- LoopSettles.SettlesIff: is about one node-agent, the catalogs of one namespace, and catalogs whose reads do not change; failures and edits are not in its runs. With one revision, refused stamps may be (CatalogLoop.OneRevisionSettles).
- FlakeInstalls.ResolveFlakeInstalls: with several obstacles, which one is reported depends on map order in the code, and the contract only says it is one of them. The in-place rewriting of the nested maps is on values.
- CatalogReconcile.FloxCatalog.Reconcile: reads the catalog as it was last written; RollupCache models stale reads of it. Two agents running the catalog reconciler at once are not modelled.
- GateSafety.GateIsSafe: is about the generation the gate read, which may be stale when the pod is bound; the code promises no more. A pod gated without references is released without narrowing, as the code does, and the claim is then empty.
- DependencyOrder.RealizeFollowsDependencies: is not about generations or nodes, because the code looks only at the Ready condition of a dependency.
- Gcroots.RootsMoveAtomically: durability of file system operations across a power failure is not modelled, nor links above the roots' base.
- Webhook.PodFloxMutator.EnsureVolumes: the content of the claim that is created is not modelled; creating it succeeds or fails.
- Agreement between the webhook's injects (by name, in one namespace) and the gate's resolution (by folder and name, cluster-wide): the code does not make these agree.
- catalogsForSource and catalogsForEnv: one filtering loop each; RollupCache takes their success or failure as part of an event.
