# Cabure: a model and proofs

Cabure is a small GitOps operator. It watches GitApplication resources, checks a Git revision out into a local cache,
renders it, applies the result with server-side apply, and prunes what its recorded inventory names and the new
desired set does not. This project models the parts of it that are hard to get right and proves what they keep.
`dafny verify dfyconfig.toml` checks everything.

## The components

**Inventory** (`ResourceReference.dfy`, `Inventory.dfy`, `StableSort.dfy`, `Text.dfy`). References have a string key that
contains the API version; the cluster keys objects by group, kind, namespace and name only. `ParseKey` reads a key back,
so keys tell well-formed references apart. `Normalize`, `Equal` and `Diff` are the loops of the program; `Diff` is proved
equal to one function of its arguments although it ranges over a map and ends in an unstable sort.

**Admission** (`Manifests.dfy`, `Admission.dfy`). `NormalizeAndValidate` rewrites the rendered objects where they stand.
Pointers may repeat in its input. `Admit` is the specification for one object and `WithinPolicy` the independent
description of what the architecture document promises of anything that gets through; `AdmittedExactly` says of every
rendered object whether it gets through and as what, and `RejectedForFirstFault` why not.

**The reconcile protocol** (`Clusters.dfy`, `AppStatus.dfy`, `Protocol.dfy`). A world holds the live objects and, for each
application, the stored status and the current run. Events are single API calls: one apply patch, one fetch of a stale
reference, one delete, one status write. Every call may take effect, fail, or take effect and look like a failure; a
process may crash between any two; outsiders may change, strip, relabel or delete any object, except that they do not hand
the ownership of one of the applications to an object that does not have it. Applying is any function of the live object and the manifest. On top of this:

- `Ledger.dfy`: every object that carries an application's UID is written down somewhere, in every interleaving. The
  stored inventory alone is not enough, so a history variable records what unfinished runs and dropped references leave
  behind, and the proofs say exactly what feeds it.
- `Ownership.dfy`: the UID annotation names the last applier. Fetch and delete are two calls with no precondition. Three
  theorems say exactly when some sequence of other steps in between makes the delete take an object that belongs to another
  application, one that lacks this application's metadata, or one that lacks the managed-by label.
- `StatusHistory.dfy`: what the stored status can say after any history of merge patches (RFC 7386, section 2).
- `PruneOutcome.dfy` and `Convergence.dfy`: what a run leaves when nobody else acts, that retries converge to it, and
  exactly when an API version bump makes prune delete what the same run has just applied.
- `Frame.dfy`: applications that share no identity do not notice each other, so the two files above hold among others too.
- `Controller.dfy`: `Reconcile`, `prune`, `updateSuccess`, `fail`, `updateSuspended` and `Apply` as imperative code over a
  server object whose calls may fail. Other applications and outsiders may act before every call, also between the fetch
  and the delete of a stale object. Every path through `Reconcile` is proved to be an interleaved run of the protocol in
  which its own steps are those of one attempt, and a run of its own steps only where nobody else acts.
  The server records which calls were refused or left unanswered, so that a run is known to fail only if a call did.
- `Scenarios.dfy`: the concrete runs behind the counterexamples.

**The checkout cache** (`CheckoutCache.dfy`, `Repository.dfy`). Any number of workers publish checkouts into one directory
under per-commit locks. The first file is the machine and its invariant; the second is `Checkout` as the code of one
worker, with the others free to act between any two of its calls, and every path of it is proved to be a run of the machine.
Every call may fail, the stats and the removal of a temp directory included: an error of `stat` reads as absence. The
directory records what its calls answered, and what `Checkout` returns is stated in these answers.

**The worker loop** (`WorkQueue.dfy`, `Worker.dfy`). The delaying work queue, the informer, the timers and the workers as a
machine, and the code of one worker, with everyone else free to act between any two of its calls. The calls of `Reconcile`
are recorded with their outcomes, and what the worker asks of the queue with the delays.

**Paths** (`Paths.dfy`). `filepath.Clean` and `filepath.Join` on strings, the two path validations, and
`ResolveWithinRoot`, related through lemmas on splitting and joining.

**Helm values** (`HelmValues.dfy`). The recursive in-place merge, with the type tag that makes an already merged map
refuse to merge again.

## Where the code departs from what one would expect

- The repository's documentation says that the attempted revision is recorded in the status (the
  repository's `README.md:140` and `docs/architecture.md:20`). It is set before the copies that the merge patches are computed against, so it is in no patch:
  `StatusHistory.AttemptedRevisionIsNeverStored`.
- A stat that errs under the lock on a published commit makes the worker check it out once more, take one of the two
  "already exists" branches, and leave its temp directory behind: `CheckoutCache.UnansweredStatsLeaveATemp`. A worker that
  does not crash leaves one behind exactly if it succeeds after such an error, or fails and cannot remove it:
  `CheckoutCache.CriticalSectionIsClean`.
- An object is pruned only if it "still carries" the application's UID annotation and the managed-by label (the
  repository's `README.md:45`, `docs/architecture.md:19`). That holds of the copy that was fetched. The object that is
  deleted may lack them, exactly if another application has the identity still to apply or may begin a run for it, or an
  outsider may act on it: `Ownership.DeleteTakesUnownedExactly`. It may lack the managed-by label, so that Cabure deletes
  what it never marked (`docs/architecture.md:74`), exactly if an outsider may act on it:
  `Ownership.DeleteTakesUnmanagedExactly`.
- For the same reason an application's prune can remove what another one has just applied, as
  `Ownership.RaceDeletesForeignObject` shows in a concrete run, exactly if there is such another application:
  `Ownership.DeleteHitsForeignExactly`.
- Changing only the API version of a manifest deletes the object: `PruneOutcome.VersionBumpDeletesDesired`. The exact
  condition is `NoVersionAlias`, which can be read off the two inventories before the run.
- A third values file replaces a map that two earlier ones share: `HelmValues.ThirdFileLosesTheFirst`. The values that come
  out are the recursive override exactly if, at every key, the maps the files hold there since the last leaf override to
  what the last of them (an odd number) or the last two (an even number) override to: `HelmValues.FoldIsOverrideExactly`.
- Below a checkout root of `/`, `.` or the empty string every path that names something is refused:
  `Paths.BareRootRefusesValidPaths`. This concerns `ResolveWithinRoot` as an exported function: a reconcile always passes a
  checkout directory, which ends in a name. `Paths.AcceptedExactlyWhenItComesBack` says for every root what is accepted.

## Model

| member | source | states |
|---|---|---|
| ResourceReferences.KeyParsesBack | api/v1alpha1/gitapplication_types.go:188-190 | The five fields of a well-formed reference can be read back out of its key |
| ResourceReferences.KeyInjective | api/v1alpha1/gitapplication_types.go:188-190 | Two well-formed references with one key are the same reference |
| ResourceReferences.KeyCollides | api/v1alpha1/gitapplication_types.go:188-190 | Without the name rules two different references can share a key |
| Text.LessExactly | internal/inventory/inventory.go:11-13 | The order of keys: at the first place where two strings part, one has ended or holds the smaller character |
| Inventory.Normalize | internal/inventory/inventory.go:9-15 | The result is a permutation of the input whose keys ascend in string order; nothing more, because the sort is unstable |
| Inventory.NormalizationCanonical | internal/inventory/inventory.go:9-15 | Any two possible results of Normalize are equal exactly when the inputs are the same multiset, as long as keys tell the references apart |
| Inventory.WellFormedKeysDistinguish | internal/inventory/inventory.go:9-29 | Keys tell well-formed references apart, which discharges that condition |
| Inventory.Equal | internal/inventory/inventory.go:17-29 | True only for equal multisets, and for all equal multisets when keys tell the references apart |
| Inventory.Diff | internal/inventory/inventory.go:31-45 | The result is one function of the inputs, whatever order the map is ranged over in |
| Inventory.StaleExactly | internal/inventory/inventory.go:31-45 | That function returns exactly the references of previous whose key is not in desired, for each key the last one, strictly sorted |
| StableSort.SortSpec | internal/apply/apply.go:88-93 | A stable sort is a sorted permutation that keeps ties in their order |
| StableSort.StableSortUnique | internal/apply/apply.go:88-93 | These three properties determine the result of a stable sort |
| StableSort.SortSlice | internal/inventory/inventory.go:9-15 | In-place sorting leaves a sorted permutation of the slice |
| Manifests.AdmittedIsWithinPolicy | internal/apply/apply.go:52-87 | An admitted object meets every promise of the policy and differs from the rendered one only in its namespace and in metadata the operator owns |
| Manifests.WithinPolicyIsAdmittedUnchanged | internal/apply/apply.go:52-87 | An object is admitted unchanged exactly when it already meets the policy |
| Manifests.AdmittedExactly | internal/apply/apply.go:52-84 | For every rendered object: it is admitted exactly if, its kind being namespaced, it was rendered without a namespace or in the destination, and the form of it that is marked with the three owned keys and placed is within policy; what comes out is that form |
| Manifests.RejectedForFirstFault | internal/apply/apply.go:52-84 | Otherwise it is rejected for the first of its faults in the stated order, each fault described on the rendered object and its marked form alone |
| Manifests.ReferencesTellApart | internal/apply/apply.go:201-209 | References stand at the mapping and at the object's own kind, namespace and name, and name one identity exactly if mapped group, kind, namespace and name agree |
| Manifests.GroupVersionReadsBack | internal/apply/apply.go:59-60 | A group and a version joined by a slash are read back, and a version alone belongs to the core group |
| Manifests.CheckClusterScopedKind | internal/apply/apply.go:213-229 | The loop that returns at the first match allows a kind exactly when some listed kind matches it in any case and it is one of the four supported ones, whichever match comes first |
| Manifests.DependenciesComeFirst | internal/apply/apply.go:129-153 | A namespace, a custom resource definition, and every account, role, binding, volume, service, config map or secret comes before what lives in it, instantiates it, uses it or routes to it, however the kinds are written |
| Manifests.AdmissionIdempotent | internal/apply/apply.go:45-95 | Running the whole pass on its own output rejects nothing and changes neither objects nor order |
| Admission.NormalizeObject | internal/apply/apply.go:52-84 | The checks on one object in the source's order, its first failure, and what has been written into the object by then |
| Admission.NormalizeEach | internal/apply/apply.go:50-87 | The validating loop ends with the first rejection, or with every object admitted in place and a reference at its mapping, kind, namespace and name, even if pointers repeat |
| Admission.NormalizeAndValidate | internal/apply/apply.go:45-95 | Either the first rejection, or the same pointers in stable priority order holding the admitted objects, with key-sorted references, one at the mapping, kind, namespace and name of each object and no other |
| Clusters.ReorderingPreservesMeaning | internal/apply/apply.go:88-127 | Applying in stable priority order gives the cluster that applying in render order gives, for any patch function |
| Clusters.SwappingOneIdentityMatters | internal/apply/apply.go:88-127 | Two manifests of one identity do not commute, so stability is what makes the reordering sound |
| Clusters.ApplyAllAt | internal/apply/apply.go:97-127 | What becomes of an identity depends only on the manifests that name it, in their order |
| Clusters.PrefixRespectsPriority | internal/apply/apply.go:88-127 | Whenever an object has been applied, every desired object of a lower priority number has been applied before |
| Clusters.StampedIsOwned | internal/apply/apply.go:173-188 | An object applied from a stamped manifest passes the ownership test of prune for that application |
| AppStatus.SetConditionFinds | internal/controller/gitapplication_controller.go:397-408 | Setting a condition changes what is found under its type and under no other |
| AppStatus.SetConditionKeepsUnique | internal/controller/gitapplication_controller.go:397-408 | Unique condition types stay unique |
| AppStatus.SuccessConditions | internal/controller/gitapplication_controller.go:349-362 | A success leaves Ready true, Stalled and Reconciling false, duplicates no type, and records the generation, both times, the revision and the inventory |
| AppStatus.FailureConditions | internal/controller/gitapplication_controller.go:364-383 | A failure leaves Ready false with its reason and message, Reconciling false, Stalled true exactly when the failure is a stalled one, and the recorded success as it was |
| AppStatus.SuspendedConditions | internal/controller/gitapplication_controller.go:385-395 | A suspension leaves Ready and Reconciling false, Stalled and the recorded success as they were, and duplicates no type |
| Ledger.LedgerHoldsInEveryRun | internal/controller/gitapplication_controller.go:106-118 | In every interleaving each live object with an application's UID is in its stored inventory, was applied by its current run, or is a recorded orphan |
| Ledger.OrphanSources | internal/controller/gitapplication_controller.go:304-383 | A new orphan comes from a run that ended without a recorded success, or from a reference dropped by a success with prune off, and from nothing else |
| Ledger.SuccessSettles | internal/controller/gitapplication_controller.go:349-362 | A success settles the application on what it recorded, and with prune on it orphans nothing |
| Ledger.UnchangedDesireAddsNoOrphan | internal/controller/gitapplication_controller.go:106-118 | From there on, as long as the desired identities stay the same, no run of any fate adds an orphan |
| Ledger.InventoryAloneIsNotEnough | internal/controller/gitapplication_controller.go:106-118 | A crash between apply and status write leaves an owned object that no inventory names |
| Ledger.StaleCovers | internal/controller/gitapplication_controller.go:304-305 | Every identity the old inventory names and the new set does not is named by a stale reference |
| Ownership.AnnotationNamesLastApplier | internal/apply/apply.go:173-188 | In every run a UID annotation on a managed object that names an application names the one that applied it last, whatever outsiders strip or relabel |
| Ownership.AtomicPruneIsSafe | internal/controller/gitapplication_controller.go:304-324 | With fetch and delete as one step, in every state of every run, prune removes only what this application applied last and what carries the label |
| Ownership.DeleteHitsForeignExactly | internal/controller/gitapplication_controller.go:307-321 | After a fetch that leads to a delete, some window of steps of others makes the delete remove a live object of another application exactly if another application has the identity still to apply or may begin a run for it |
| Ownership.DeleteTakesUnownedExactly | internal/controller/gitapplication_controller.go:307-321 | Some window makes it remove a live object that fails the test prune made before it exactly if there is such a rival or an outsider may act on the identity |
| Ownership.DeleteTakesUnmanagedExactly | internal/controller/gitapplication_controller.go:307-321 | Some window makes it remove a live object without the managed-by label exactly if an outsider may act on the identity |
| Ownership.UntouchedStays | internal/controller/gitapplication_controller.go:307-321 | With neither, in every window the fetched object is unchanged or gone |
| Ownership.NoRivalNoApply | internal/controller/gitapplication_controller.go:307-321 | Without such a rival no sequence of steps of others changes who applied the object last |
| Ownership.RaceDeletesForeignObject | internal/controller/gitapplication_controller.go:307-321 | A concrete run in which one application deletes what another has just applied |
| StatusHistory.StatusHoldsInEveryRun | internal/controller/gitapplication_controller.go:349-408 | Over every run condition types stay unique, Ready true implies not stalled, not reconciling and that the last write was a success, and the stored inventory and applied revision are those of one success |
| StatusHistory.PairChangesTogether | internal/controller/gitapplication_controller.go:349-383 | Stored inventory and applied revision change only when a success patch lands, and then both to that attempt's values |
| StatusHistory.RefusedSuccessKeepsStoredPair | internal/controller/gitapplication_controller.go:116-118 | A success patch that does not land, followed by the failure path, leaves the stored pair as it was although memory holds the new one |
| StatusHistory.AttemptedRevisionIsNeverStored | internal/controller/gitapplication_controller.go:86 | No run of any length changes the stored attempted revision |
| PruneOutcome.AliasIffStaleNamesDesired | internal/controller/gitapplication_controller.go:305 | Some stale reference names a desired object exactly when the old inventory holds one of them under a key the new set lacks |
| PruneOutcome.PruneLeavesExactly | internal/controller/gitapplication_controller.go:106-118 | When a pruning run is about to record success, a desired object is live exactly when no stale reference names it, those live are this application's, and nothing else the old inventory names is still owned |
| PruneOutcome.SuccessKeepsDesiredIffNoAlias | internal/controller/gitapplication_controller.go:304-324 | A successful pruning run leaves every desired object live and owned exactly when no recorded reference names one of them under another version |
| PruneOutcome.DesiredStaysLive | internal/controller/gitapplication_controller.go:304-324 | Under that condition no step of any run, whatever its fate, takes away a desired object that is live |
| PruneOutcome.VersionBumpDeletesDesired | internal/controller/gitapplication_controller.go:304-324 | A concrete version bump makes prune delete the object the same run has applied |
| Convergence.RetriesConverge | internal/controller/gitapplication_controller.go:106-118 | After any number of attempts that fail anywhere, the success that ends them leaves the cluster of one uninterrupted pass and the normalized references as inventory |
| Convergence.RetriesMatchUninterrupted | internal/controller/gitapplication_controller.go:106-118 | Any two ways of reaching success from one state agree on cluster and stored inventory |
| Convergence.FurtherRunsChangeNothing | internal/controller/gitapplication_controller.go:106-118 | Once recorded, the same attempt changes no object at any step of any further run, whatever its fate |
| Convergence.SuccessIsRest | internal/controller/gitapplication_controller.go:106-118 | A success without a version alias brings the world to the state from which that holds |
| Convergence.RepeatIsIdleIffNoAlias | internal/controller/gitapplication_controller.go:106-118 | Repeating the first recorded success leaves the cluster alone exactly when there was no version alias |
| Convergence.ApplyOneIsAbsorbed | internal/apply/apply.go:97-127 | Having applied one object of the set before does not show once the whole set is applied |
| Frames.OthersDoNotShow | internal/controller/gitapplication_controller.go:106-118 | In any interleaving with applications whose plans and inventories share no identity with this one's, its record and its objects are those of its own steps run alone |
| Frames.RetriesConvergeAmongOthers | internal/controller/gitapplication_controller.go:106-118 | So retries converge to the settled objects among others as well |
| Frames.SuccessAmongOthersIffNoAlias | internal/controller/gitapplication_controller.go:304-324 | And a successful pruning run leaves every desired object live and owned exactly when there was no version alias |
| Controller.GitApplication.SetCondition | internal/controller/gitapplication_controller.go:397-408 | The loop over the conditions slice updates the status as the specification does |
| Controller.Apply | internal/apply/apply.go:97-127 | With others acting before every patch, the loop takes steps of the protocol; it fails exactly if its last call was refused or unanswered, and then exactly a prefix of the sorted objects has been applied; alone that prefix is all that has happened to the objects |
| Controller.PruneOne | internal/controller/gitapplication_controller.go:306-321 | Fetching one stale reference and deleting what passed the ownership test are steps of the protocol, with others acting before the fetch and between fetch and delete; it fails exactly if a call did, and an object that is gone is no failure |
| Controller.Prune | internal/controller/gitapplication_controller.go:304-324 | prune takes the protocol from the last apply to the last stale reference, or to its first failing call, with others acting in between |
| Controller.UpdateSuccess | internal/controller/gitapplication_controller.go:349-362 | The success write is the protocol's, computed as a diff against the copy taken inside; it fails exactly if its call does, memory changes even then, and otherwise a reader finds the success |
| Controller.Fail | internal/controller/gitapplication_controller.go:364-383 | The failure write is the protocol's, never changes the stored inventory or applied revision, and if its call succeeds a reader finds not ready, stalled or not, and the reason |
| Controller.UpdateSuspended | internal/controller/gitapplication_controller.go:385-395 | The suspension write is the protocol's, never changes the stored inventory, and if its call succeeds a reader finds the suspension and everything else as before |
| Controller.AdmittedIsProper | internal/controller/gitapplication_controller.go:93-106 | What admission returns is what a run of the protocol may begin with: stamped objects, each planned at its mapping and at its own kind, namespace and name, and exactly their references |
| Controller.AdmittedIsWithinSpec | internal/controller/gitapplication_controller.go:93-106 | Every planned object is in the application's destination namespace, or cluster-scoped where the operator's configuration and the application both allow its kind |
| Controller.PlanOfSortedIsSortedPlan | internal/apply/apply.go:88-127 | Sorting the admitted objects and sorting them together with their references is the same |
| Controller.WriteOut | internal/controller/gitapplication_controller.go:106-118 | Apply, prune and the success write in sequence are an interleaved run of the protocol, ending at the first call that fails and in the recorded success if none does |
| Controller.ReconcileRendered | internal/controller/gitapplication_controller.go:93-118 | A rejection writes no object and keeps the inventory; otherwise the attempt is that of the admitted objects, and it succeeds exactly if no call was refused or left unanswered; a failure that is its run's only one is on record |
| Controller.Reconcile | internal/controller/gitapplication_controller.go:59-125 | Every path, with others acting before every call, is a run of the protocol whose own steps are those of one attempt; a run that stops before apply writes no object; with admitted objects the attempt is theirs and the run comes back after the interval, raised to the configured minimum, exactly if no call was refused or left unanswered; what a reader of the status then finds is stated for success, failure, stalled failure and suspension |
| Controller.SuccessfulReconcile | internal/controller/gitapplication_controller.go:106-118 | What a reconcile that reports success has done with nobody else at work: the exact outcome of prune, and the settled cluster when there is no version alias |
| Controller.SuccessfulReconcileAmongOthers | internal/controller/gitapplication_controller.go:106-118 | With others at work that share no identity with it, a reconcile that reports success has settled its objects and recorded them all the same |
| Controller.SettledAsRendered | internal/apply/apply.go:88-127 | That settled cluster is the one that applying in render order and then pruning would give |
| CheckoutCache.PublishedIsCompleteForever | internal/git/repository.go:76-116 | In every interleaving, with crashes and failed commands, a final directory is the complete tree of its commit and never changes again |
| CheckoutCache.ReturnedIsComplete | internal/git/repository.go:76-116 | Every returned directory is a complete checkout of its commit, in the state it was returned in and in all later ones |
| CheckoutCache.CriticalSectionIsClean | internal/git/repository.go:80-115 | The critical section is entered at most once and no lock is held after it; the rename finds its target exactly if the stat under the lock erred on it, and a temp directory is left without a crash exactly if, besides, the call succeeds, or if it fails and the removal fails too |
| CheckoutCache.TempsAreAccountedFor | internal/git/repository.go:84-93 | Every temp directory was there at the start, is its worker's, or is one that a worker has left behind for good |
| CheckoutCache.UnansweredStatsLeaveATemp | internal/git/repository.go:81-110 | A concrete run: two stats err on a published commit, the call succeeds, and its temp directory stays |
| CheckoutCache.MutualExclusion | internal/git/repository.go:310-334 | At most one worker is inside the critical section of a commit |
| CheckoutCache.NewProcessStartsWell | internal/git/repository.go:76-80 | A process may start on any cache whose final directories are complete, whatever else lies there |
| Repository.CacheDirectory.Fill | internal/git/repository.go:95-100 | Clone and checkout, with others acting in between, are steps of the protocol that leave the complete tree in the temp directory or a directory to clean up |
| Repository.CacheDirectory.Move | internal/git/repository.go:101-113 | The rename publishes, or fails; a target that the rename or the stat after it finds counts as success, with nothing left to clean up; an error is the refused rename's |
| Repository.CacheDirectory.Materialize | internal/git/repository.go:81-114 | The critical section is a run of the protocol that ends published, with nothing made, or with exactly the cleanup variable's directory left to remove, whether its stats answer or not; an error is that of the one call that went wrong |
| Repository.CacheDirectory.Publish | internal/git/repository.go:80-115 | With the deferred cleanup, which may fail, it ends ready to unlock, and without error exactly when the directory is published; a temp directory counts as not removed exactly if the removal failed |
| Repository.CacheDirectory.UnderLock | internal/git/repository.go:317-323 | The body under the lock and its deferred unlock are a run of the protocol that ends with the worker returned |
| Repository.CacheDirectory.Poll | internal/git/repository.go:310-334 | It times out exactly after finding the lock taken one time more than the polls allow, fails on the lock exactly if the lock file or flock erred, and otherwise runs the body once and unlocks |
| Repository.CacheDirectory.Checkout | internal/git/repository.go:76-116 | Whatever the others do in between, every path is a run of the protocol; an error is that of the one call that went wrong or comes after the lock was found taken on every poll, and if neither happens the commit is published; a returned pair names a complete directory, the body ran at most once, and not at all on a hit if no stat erred; no lock is held afterwards, nothing published is lost, and a temp directory stays exactly if the call succeeds although its stat under the lock erred on the published directory, or fails and cannot remove it |
| Repository.Mirror.EnsureAttempt | internal/git/repository.go:123-157 | The mirror is thrown away once exactly if a command told of corruption; the call succeeds exactly if nothing else failed, the corruption did not come back and the directory could be removed; then one fetch went through, from this URL unless an older remote could not be removed, and no command ran outside a repository unless the stat of HEAD erred |
| Repository.Mirror.RecoverOnce | internal/git/repository.go:123-157 | A failed command starts over only for a corrupt configuration and only the first time, and then succeeds exactly if nothing fails any more |
| WorkQueues.AddKeepsValid | cmd/main.go:308-314 | Adding keeps the queue exactly the dirty keys no worker has, each once, and makes the key dirty |
| WorkQueues.GetKeepsValid | cmd/main.go:257-260 | So does taking a key, which no other worker has |
| WorkQueues.DoneKeepsValid | cmd/main.go:263 | So does Done |
| WorkQueues.OnlyGetUnschedules | cmd/main.go:255-306 | Before shutdown only Get takes a key off the schedule, and only the key it hands out |
| WorkQueues.KeysAreServedInOrder | cmd/main.go:255-306 | A key in line moves up by one with each Get and keeps its place in every other call |
| WorkQueues.WorkQueue.Add | cmd/main.go:308-314 | The object does what the specification of the queue says |
| WorkQueues.WorkQueue.Get | cmd/main.go:257-260 | The same for Get, which reports shutdown exactly when nothing is queued |
| WorkQueues.WorkQueue.Done | cmd/main.go:263 | The same for Done, which queues a key again that became dirty meanwhile |
| WorkQueues.WorkQueue.AddAfter | cmd/main.go:298-303 | The same for delayed adds |
| WorkQueues.WorkQueue.AddRateLimited | cmd/main.go:290 | And for rate-limited adds, whatever positive delay the limiter picks |
| Workers.KeySplitsBack | cmd/main.go:271-276 | The key a handler enqueues leads the worker back to the object |
| Workers.StepCoversExactly | cmd/main.go:255-306 | A step keeps every live application on its way to a worker, unless it is a false context.Canceled for a key that nothing else would bring back |
| Workers.NoLiveApplicationIsLost | cmd/main.go:175-185 | In every run, until the context is canceled, the key of each live application is queued, with a worker, waiting for a timer, or in an informer event |
| Workers.OneWorkerPerApplication | cmd/main.go:255-306 | No two workers ever have the same key, so runs of one application are serial |
| Workers.FalseCancellationLosesTheKey | cmd/main.go:285-287 | A concrete run: one error that claims cancellation in vain, and the application is in no set |
| Workers.TurnIsFourSteps | cmd/main.go:255-306 | With nobody in between, one turn of a worker is four steps of the protocol, and the queue ends as the outcome and Done leave it |
| Workers.Readding | cmd/main.go:284-299 | For each outcome of the reconcile what the worker puts back is the protocol's step, with everyone else acting before it and between its look at the context and the re-add; an error met after a cancellation puts nothing back, and a success asks for the very delay it returned |
| Workers.Process | cmd/main.go:262-304 | A key that names an object leads to exactly one call of Reconcile, whose outcome decides the turn, any other key to none; with everyone else acting between all calls the worker's own steps are read, finish with that outcome, and done last, and what it asks of the queue is what the outcome calls for |
| Workers.ProcessNext | cmd/main.go:257-304 | One turn takes the first key, takes exactly these steps for it and makes exactly this call, or reports the shutdown and does nothing |
| Workers.RunWorker | cmd/main.go:255-306 | Whatever everyone else does meanwhile the loop is part of an honest run of the protocol in which the worker's steps, its calls of Reconcile and its requests to the queue are exactly those of the keys it took; it waits only while nothing is queued, ends early only after a cancellation, and takes at most one more key after it |
| Paths.ResolvesExactlyWithin | internal/render/path.go:9-20 | For every root the string comparison accepts exactly the paths whose components start with the root's; a root without components takes only what stays there, and an empty one no rooted path |
| Paths.AcceptedExactlyWhenItComesBack | internal/render/path.go:9-20 | For every root and request: accepted exactly when the request does not climb, or its names lead back down the way it climbed, with the cases of a root without components and of one that consists of two-dot components |
| Paths.CleanIsIdempotent | internal/render/path.go:13-15 | Cleaning twice is cleaning once and keeps the components |
| Paths.WalkOfCleaned | internal/render/path.go:13-15 | Cleaning a relative path first does not change where it leads from any directory |
| Paths.PrefixMeansPrefix | internal/render/path.go:16-18 | The equality and prefix tests on cleaned strings are tests on their components |
| Paths.ValidRelPathExactly | internal/controller/gitapplication_controller.go:200-209 | Accepted exactly: non-empty, relative, and no first component that begins with two dots |
| Paths.ValidValuesPathExactly | internal/controller/gitapplication_controller.go:211-229 | Accepted exactly: names joined by single slashes |
| Paths.ValidatedPathsResolve | internal/render/path.go:9-20 | What either validation accepts resolves below any root with components, to the root's components followed by the cleaned ones, none of them two dots |
| Paths.DistinctValuesFilesStayDistinct | internal/controller/gitapplication_controller.go:211-229 | Two different accepted values files resolve to different files |
| Paths.BareRootRefusesValidPaths | internal/render/path.go:16-18 | Below a root without components a valid path resolves exactly when it names nothing |
| HelmValues.Values.DeepMerge | internal/render/helm.go:142-159 | The in-place merge is one function of both maps, whatever order the keys come in |
| HelmValues.Values.MergeKey | internal/render/helm.go:144-157 | One key: kept side, recursive merge stored as merged, or replacement |
| HelmValues.MergeAtEveryPath | internal/render/helm.go:142-159 | For any tags and any path: the source decides where it says something, the destination elsewhere, except below a map that is replaced instead of merged |
| HelmValues.PlainMergeOverrides | internal/render/helm.go:142-159 | Merging one decoded file into another is the recursive override at every path |
| HelmValues.OverrideAtEveryPath | internal/render/helm.go:142-159 | The override it is compared with: the later side where it says something, the earlier side elsewhere |
| HelmValues.MergeIsOverrideExactly | internal/render/helm.go:149-155 | A merge is the recursive override exactly when no already merged map loses anything in it |
| HelmValues.OverrideIsSourceExactly | internal/render/helm.go:149-155 | Nothing is lost exactly when the source covers the destination key by key |
| HelmValues.FoldIsOverrideExactly | internal/render/helm.go:104-128 | The values that come out are the recursive override of all files exactly when, at every key, the last one or two of the maps the files hold there since the last leaf override to what all of these maps override to |
| HelmValues.TwoFilesOverride | internal/render/helm.go:104-128 | One or two values files always give the recursive override |
| HelmValues.EveryPrefixIsOverrideExactly | internal/render/helm.go:104-128 | The fold follows the recursive override after every single file exactly when each file is merged without loss |
| HelmValues.OnlyTheLastTwoSurvive | internal/render/helm.go:149-155 | For any files and key: what comes out is read from the last of the maps there since the last leaf when their number is odd, from the last two when it is even, and is the override's leaf when there is none |
| HelmValues.EveryMapCounts | internal/render/helm.go:149-155 | The recursive override at a key is the override of all these maps |
| HelmValues.ThirdFileLosesTheFirst | internal/render/helm.go:149-155 | Three files for which the fold and the override differ |
| HelmValues.ReadHelmValues | internal/render/helm.go:104-128 | The result is the fold over all files, or the error of the first one that cannot be resolved or read, or that the context does not last for |
| HelmValues.LoadNext | internal/render/helm.go:106-124 | Which file that is: the first whose turn comes after the context ended, whose path does not resolve, or whose resolved path cannot be read and decoded |

## Left out

- Server-side apply is any function of the live object and the manifest that sets the labels and annotations the manifest carries; convergence also asks that applying twice changes nothing more and that no identity occurs twice in one attempt. Field ownership and conflicts are not modelled.
- Delete removes one object at once: no finalizers, no cascading deletion.
- A NotFound answer to a fetch means the object is absent, and a kind names one resource: group, kind, namespace and name identify an object.
- References are assumed well-formed: no slash in group, kind or namespace and no comma in the version, which the API server's naming rules give. The controller's proofs ask this of the REST mapper and of the destination namespace.
- Outside actors never give an object the managed-by label together with the UID of one of the applications unless it carries both already; any other change of theirs is modelled, the loss of the annotation or another UID included.
- The set of applications is fixed during a run: one that is created or deleted, or created again under a new UID, and the objects a deleted one leaves, do not occur in the ledger. The worker protocol has creation and deletion.
- Case folding is ASCII.
- Git, SSH keys, authentication headers, YAML decoding, chart loading and template rendering: only whether they succeed, and what a successful checkout leaves. The repository URL's hash is taken to be injective.
- The regular expressions and the remaining checks of validateSpec, credential selection and error texts: the run receives their verdict.
- Leader election, probes, metrics, flags and DeepCopy functions.
- Timestamps order nothing, and no spacing between reconciles is claimed: status writes trigger informer events.
- CheckoutCache.PublishedIsCompleteForever: flock is modelled for one host; a crash releases the lock and may leave its temp directory, which is counted as leaked. Directories of earlier processes are assumed complete if they carry a final name.
- Repository.CacheDirectory.Checkout: the number of polls stands for the 30 second deadline, and mirror update and revision lookup happen before it.
- Repository.Mirror.EnsureAttempt: of the mirror's contents only HEAD and the remote are modelled; safety of a checkout comes from publication alone.
- Workers.RunWorker: the endless loop is bounded by a number of rounds, each of work or of waiting where Get would block.
- Workers.NoLiveApplicationIsLost: assumes that context.Canceled is returned only when the context is canceled; StepCoversExactly says what happens otherwise. The rate limiter's counters are left out, its delays are positive.
- Controller.Reconcile: the application is loaded by the caller, so the NotFound and deletion branches appear in the worker protocol only. Others write objects, never this application's status.
- Controller.Apply: encoding an object and mapping its kind happen again there; both are part of the patch call that may fail.
- HelmValues.Values.DeepMerge: nested maps are values, so a nested map is copied back where the program changes it through its reference. Decoded files share no maps.
- Symbolic links are not resolved, as in the program.
- YAML file discovery and the order of rendered documents.
