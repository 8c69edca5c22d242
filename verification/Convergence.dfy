/** Retrying one attempt until it succeeds ends where a single uninterrupted success ends. */
module Convergence {
  import opened Outcomes
  import opened ResourceReferences
  import opened Inventory
  import opened Clusters
  import opened AppStatus
  import opened Protocol
  import opened Ledger
  import opened PruneOutcome

  ghost predicate DistinctIdentities(plan: seq<Planned>) {
    forall i, j :: 0 <= i < j < |plan| ==> plan[i].ref.Id() != plan[j].ref.Id()
  }

  /** With distinct identities, applying a plan patches each of its objects once and touches nothing else. */
  function Patched(patch: PatchFn, c: Cluster, plan: seq<Planned>, id: Identity): Option<Live> {
    if plan == [] then Get(c, id)
    else if plan[0].ref.Id() == id then Some(patch(Get(c, id), plan[0].manifest))
    else Patched(patch, c, plan[1..], id)
  }

  lemma {:induction false} PatchedIsApplied(patch: PatchFn, c: Cluster, plan: seq<Planned>, id: Identity)
    requires DistinctIdentities(plan)
    ensures Get(ApplyAll(patch, c, plan), id) == Patched(patch, c, plan, id)
    decreases |plan|
  {
    if plan != [] {
      var c' := ApplyOne(patch, c, plan[0]);
      assert forall i :: 0 <= i < |plan[1..]| ==> plan[1..][i] == plan[i + 1];
      PatchedIsApplied(patch, c', plan[1..], id);
      if plan[0].ref.Id() == id {
        PatchedElsewhere(patch, c', plan[1..], id);
      } else {
        PatchedReadsOwn(patch, c, c', plan[1..], id);
      }
    }
  }

  lemma {:induction false} PatchedReadsOwn(patch: PatchFn, c: Cluster, c': Cluster, plan: seq<Planned>, id: Identity)
    requires Get(c, id) == Get(c', id)
    ensures Patched(patch, c, plan, id) == Patched(patch, c', plan, id)
  {
    if plan != [] {
      PatchedReadsOwn(patch, c, c', plan[1..], id);
    }
  }

  lemma {:induction false} PatchedElsewhere(patch: PatchFn, c: Cluster, plan: seq<Planned>, id: Identity)
    requires forall p :: p in plan ==> p.ref.Id() != id
    ensures Patched(patch, c, plan, id) == Get(c, id)
  {
    if plan != [] {
      PatchedElsewhere(patch, c, plan[1..], id);
    }
  }

  lemma {:induction false} PatchedAt(patch: PatchFn, c: Cluster, plan: seq<Planned>, k: nat)
    requires DistinctIdentities(plan) && k < |plan|
    ensures Patched(patch, c, plan, plan[k].ref.Id()) == Some(patch(Get(c, plan[k].ref.Id()), plan[k].manifest))
  {
    if k > 0 {
      assert forall i :: 0 <= i < |plan[1..]| ==> plan[1..][i] == plan[i + 1];
      assert plan[0].ref.Id() != plan[k].ref.Id();
      PatchedAt(patch, c, plan[1..], k - 1);
    }
  }

  /** The object is as its manifest would leave it. */
  predicate Holds(patch: PatchFn, c: Cluster, p: Planned) {
    p.ref.Id() in c && patch(Some(c[p.ref.Id()]), p.manifest) == c[p.ref.Id()]
  }

  ghost predicate HoldsUpTo(patch: PatchFn, c: Cluster, plan: seq<Planned>, k: nat)
    requires k <= |plan|
  {
    forall j :: 0 <= j < k ==> Holds(patch, c, plan[j])
  }

  lemma ApplyingHeldChangesNothing(patch: PatchFn, c: Cluster, plan: seq<Planned>)
    requires DistinctIdentities(plan) && HoldsUpTo(patch, c, plan, |plan|)
    ensures ApplyAll(patch, c, plan) == c
  {
    forall id
      ensures Get(ApplyAll(patch, c, plan), id) == Get(c, id)
    {
      PatchedIsApplied(patch, c, plan, id);
      if p :| p in plan && p.ref.Id() == id {
        var j :| 0 <= j < |plan| && plan[j] == p;
        PatchedAt(patch, c, plan, j);
        assert Holds(patch, c, plan[j]);
      } else {
        PatchedElsewhere(patch, c, plan, id);
      }
    }
    SameEverywhere(ApplyAll(patch, c, plan), c);
  }

  /** Having applied one object of the plan before does not show once the plan is applied. */
  lemma ApplyOneIsAbsorbed(patch: PatchFn, c: Cluster, plan: seq<Planned>, k: nat)
    requires Idempotent(patch) && DistinctIdentities(plan) && k < |plan|
    ensures ApplyAll(patch, ApplyOne(patch, c, plan[k]), plan) == ApplyAll(patch, c, plan)
  {
    var c' := ApplyOne(patch, c, plan[k]);
    forall id
      ensures Get(ApplyAll(patch, c', plan), id) == Get(ApplyAll(patch, c, plan), id)
    {
      PatchedIsApplied(patch, c, plan, id);
      PatchedIsApplied(patch, c', plan, id);
      if id == plan[k].ref.Id() {
        PatchedAt(patch, c, plan, k);
        PatchedAt(patch, c', plan, k);
      } else {
        PatchedReadsOwn(patch, c, c', plan, id);
      }
    }
    SameEverywhere(ApplyAll(patch, c', plan), ApplyAll(patch, c, plan));
  }

  lemma DeleteCommutes(patch: PatchFn, c: Cluster, plan: seq<Planned>, gone: Identity)
    requires DistinctIdentities(plan) && forall p :: p in plan ==> p.ref.Id() != gone
    ensures ApplyAll(patch, c - {gone}, plan) == ApplyAll(patch, c, plan) - {gone}
    ensures Get(ApplyAll(patch, c, plan), gone) == Get(c, gone)
  {
    var x, y := ApplyAll(patch, c - {gone}, plan), ApplyAll(patch, c, plan);
    forall id
      ensures Get(x, id) == Get(y - {gone}, id)
    {
      PatchedIsApplied(patch, c - {gone}, plan, id);
      PatchedIsApplied(patch, c, plan, id);
      if id == gone {
        PatchedElsewhere(patch, c - {gone}, plan, gone);
      } else {
        PatchedReadsOwn(patch, c, c - {gone}, plan, id);
      }
    }
    SameEverywhere(x, y - {gone});
    PatchedIsApplied(patch, c, plan, gone);
    PatchedElsewhere(patch, c, plan, gone);
  }

  /** The cluster a successful run of this attempt ends in: everything applied, then the owned stale objects gone. */
  function Settled(patch: PatchFn, c: Cluster, inventory: seq<ResourceReference>, uid: string, a: Attempt): Cluster {
    Pruned(ApplyAll(patch, c, a.plan), if a.prune then Identities(Stale(inventory, a.refs)) else {}, uid)
  }

  function Pruned(c: Cluster, stale: set<Identity>, uid: string): Cluster {
    map id | id in c && !(id in stale && Owned(c[id], uid)) :: c[id]
  }

  lemma PrunedIgnoresDeleted(c: Cluster, stale: set<Identity>, uid: string, gone: Identity)
    requires gone in stale && OwnedIn(c, gone, uid)
    ensures Pruned(c - {gone}, stale, uid) == Pruned(c, stale, uid)
  {
  }

  lemma PrunedChangesNothing(c: Cluster, stale: set<Identity>, uid: string)
    requires forall id :: id in stale ==> !OwnedIn(c, id, uid)
    ensures Pruned(c, stale, uid) == c
  {
  }

  /** What the attempt must satisfy for retries to converge. */
  ghost predicate Repeatable(patch: PatchFn, uid: string, a: Attempt) {
    Idempotent(patch) && KeepsMetadata(patch) && DistinctIdentities(a.plan) && Proper(uid, a)
  }

  ghost predicate RetryKnows(patch: PatchFn, c: Cluster, app: App, a: Attempt) {
    && NoVersionAlias(app.stored.inventory, a.refs)
    && (app.phase.Applying? ==> app.phase.next <= |a.plan| && HoldsUpTo(patch, c, a.plan, app.phase.next))
    && (app.phase.Pruning? || app.phase.Deleting? || app.phase.Finishing? ==> HoldsUpTo(patch, c, a.plan, |a.plan|))
  }

  lemma StaleIsNotPlanned(previous: seq<ResourceReference>, uid: string, a: Attempt, r: ResourceReference)
    requires AllWellFormed(previous) && Proper(uid, a) && NoVersionAlias(previous, a.refs)
    requires r in Stale(previous, a.refs)
    ensures forall p :: p in a.plan ==> p.ref.Id() != r.Id()
  {
    hide Stale;
    AliasIffStaleNamesDesired(previous, a.refs);
    assert r.Id() in Identities(Stale(previous, a.refs));
    forall p | p in a.plan
      ensures p.ref.Id() != r.Id()
    {
      assert p.ref.Id() in Identities(a.refs);
    }
  }

  /** Finishing this attempt from here ends in this cluster. */
  function Outcome(patch: PatchFn, w: World, uid: string, a: Attempt): Cluster
    requires uid in w.apps
  {
    Settled(patch, w.cluster, w.apps[uid].stored.inventory, uid, a)
  }

  ghost predicate Retrying(patch: PatchFn, w: World, uid: string, a: Attempt) {
    && LedgerInv(w) && uid in w.apps
    && SoloKnows(uid, w.cluster, w.apps[uid], a) && RetryKnows(patch, w.cluster, w.apps[uid], a)
  }

  /** Every step of a retry leaves the outcome of finishing from there as it was. */
  lemma PatchKeepsOutcome(patch: PatchFn, w: World, e: Event, a: Attempt)
    requires e.Patch? && Repeatable(patch, e.uid, a) && Retrying(patch, w, e.uid, a) && Enabled(w, e)
    ensures Outcome(patch, Next(patch, w, e), e.uid, a) == Outcome(patch, w, e.uid, a)
    ensures RetryKnows(patch, Next(patch, w, e).cluster, NextApp(w, e), a)
  {
    hide Proper, KeepsMetadata, NoVersionAlias, HoldsUpTo, Idempotent, ApplyOne, DistinctIdentities, LedgerInv, Pruned, AppliedUpTo;
    var k := w.apps[e.uid].phase.next;
    ApplyOneIsAbsorbed(patch, w.cluster, a.plan, k);
    HoldsOneMore(patch, w.cluster, a.plan, k);
  }

  lemma HoldsOneMore(patch: PatchFn, c: Cluster, plan: seq<Planned>, k: nat)
    requires Idempotent(patch) && DistinctIdentities(plan) && k < |plan| && HoldsUpTo(patch, c, plan, k)
    ensures HoldsUpTo(patch, ApplyOne(patch, c, plan[k]), plan, k + 1)
  {
    var c' := ApplyOne(patch, c, plan[k]);
    forall j | 0 <= j < k + 1
      ensures Holds(patch, c', plan[j])
    {
      if j < k {
        assert Holds(patch, c, plan[j]) && plan[j].ref.Id() != plan[k].ref.Id();
      }
    }
  }

  lemma DeleteKeepsOutcome(patch: PatchFn, w: World, e: Event, a: Attempt)
    requires e.Delete? && Repeatable(patch, e.uid, a) && Retrying(patch, w, e.uid, a) && Enabled(w, e)
    ensures Outcome(patch, Next(patch, w, e), e.uid, a) == Outcome(patch, w, e.uid, a)
    ensures RetryKnows(patch, Next(patch, w, e).cluster, NextApp(w, e), a)
  {
    hide Stale, Owned, Proper, KeepsMetadata, LedgerInv, NoVersionAlias, AllWellFormed, SurvivingUpTo,
      Idempotent, DistinctIdentities, Pruned;
    var app := w.apps[e.uid];
    ActiveFacts(w, e.uid);
    var r := app.stale[app.phase.next];
    assert r in app.stale;
    StaleIsNotPlanned(app.stored.inventory, e.uid, a, r);
    DeleteCommutes(patch, w.cluster, a.plan, r.Id());
    PrunedIgnoresDeleted(ApplyAll(patch, w.cluster, a.plan), Identities(app.stale), e.uid, r.Id());
    forall j | 0 <= j < |a.plan|
      ensures Holds(patch, Next(patch, w, e).cluster, a.plan[j])
    {
      assert a.plan[j] in a.plan && Holds(patch, w.cluster, a.plan[j]);
    }
  }

  /** Ready to record success, the cluster is the outcome already, for the old inventory and for the new. */
  lemma FinishedIsSettled(patch: PatchFn, w: World, uid: string, a: Attempt, inventory: seq<ResourceReference>)
    requires Repeatable(patch, uid, a) && LedgerInv(w) && uid in w.apps && w.apps[uid].phase.Finishing?
    requires SoloKnows(uid, w.cluster, w.apps[uid], a) && RetryKnows(patch, w.cluster, w.apps[uid], a)
    requires IsNormalization(inventory, a.refs)
    ensures Settled(patch, w.cluster, w.apps[uid].stored.inventory, uid, a) == w.cluster
    ensures Settled(patch, w.cluster, inventory, uid, a) == w.cluster
  {
    hide Stale, Owned, Proper, KeepsMetadata, LedgerInv, NoVersionAlias, AllWellFormed, SurvivingUpTo,
      Idempotent, IsNormalization, AppliedUpTo;
    ApplyingHeldChangesNothing(patch, w.cluster, a.plan);
    RecordedHasNoAlias(inventory, a.refs);
    if a.prune {
      FinishingIsCleared(w, uid);
      PrunedChangesNothing(w.cluster, Identities(Stale(w.apps[uid].stored.inventory, a.refs)), uid);
    }
    PrunedChangesNothing(w.cluster, {}, uid);
    PrunedChangesNothing(w.cluster, Identities([]), uid);
  }

  lemma RecordKeepsOutcome(patch: PatchFn, w: World, e: Event, a: Attempt)
    requires e.RecordSuccess? && Repeatable(patch, e.uid, a) && Retrying(patch, w, e.uid, a) && Enabled(w, e)
    ensures Outcome(patch, Next(patch, w, e), e.uid, a) == Outcome(patch, w, e.uid, a) == w.cluster
    ensures RetryKnows(patch, w.cluster, NextApp(w, e), a)
    ensures !e.reply.Refused? ==> NextApp(w, e).stored.inventory == e.inventory
  {
    var app := w.apps[e.uid];
    ActiveFacts(w, e.uid);
    FinishedIsSettled(patch, w, e.uid, a, e.inventory);
    RecordedHasNoAlias(e.inventory, a.refs);
    if !e.reply.Refused? {
      SuccessInventory(app, e.reply, e.inventory, e.generation, e.now);
    }
    hide Settled, LedgerInv, Repeatable, NoVersionAlias, HoldsUpTo, SoloKnows, Success, Merge, MergeFrom, IsNormalization;
  }

  lemma QuietStepKeepsOutcome(patch: PatchFn, w: World, e: Event, uid: string, a: Attempt)
    requires Retrying(patch, w, uid, a) && Enabled(w, e) && SoloEvent(e, uid, a)
    requires !e.Patch? && !e.Delete? && !e.RecordSuccess?
    ensures Outcome(patch, Next(patch, w, e), uid, a) == Outcome(patch, w, uid, a)
    ensures RetryKnows(patch, w.cluster, NextApp(w, e), a)
  {
    hide Settled, LedgerInv, NoVersionAlias, HoldsUpTo, AppliedUpTo, SurvivingUpTo, Stale, Owned, AfterRecordFailure, AfterSuspend;
    var app := w.apps[uid];
    match e
    case RecordFailure(_, reply, reason, message, generation, now) =>
      FailureKeepsInventory(app, reply, reason, message, generation, now);
      FailureEndsRun(app, reply, reason, message, generation, now);
    case Suspend(_, reply, generation, now) =>
      SuspendKeepsInventory(app, reply, generation, now);
      assert AfterSuspend(app, reply, generation, now).phase.Idle? by {
        SuspendEndsIdle(app, reply, generation, now);
      }
    case Begin(_, _) => HoldsNone(patch, w.cluster, a.plan);
    case _ =>
  }

  lemma HoldsNone(patch: PatchFn, c: Cluster, plan: seq<Planned>)
    ensures HoldsUpTo(patch, c, plan, 0)
  {
  }

  lemma FailureEndsRun(app: App, reply: Reply, reason: string, message: string, generation: int, now: nat)
    requires app.phase.Failing?
    ensures AfterRecordFailure(app, reply, reason, message, generation, now).phase.Idle?
  {
  }

  lemma SuspendEndsIdle(app: App, reply: Reply, generation: int, now: nat)
    requires app.phase.Idle?
    ensures AfterSuspend(app, reply, generation, now).phase.Idle?
  {
  }

  lemma RetryStep(patch: PatchFn, w: World, e: Event, uid: string, a: Attempt)
    requires Repeatable(patch, uid, a) && Retrying(patch, w, uid, a) && Enabled(w, e) && SoloEvent(e, uid, a)
    ensures Retrying(patch, Next(patch, w, e), uid, a)
    ensures Outcome(patch, Next(patch, w, e), uid, a) == Outcome(patch, w, uid, a)
  {
    SoloStepKeeps(patch, w, e, uid, a);
    hide LedgerInv, SoloKnows, RetryKnows, Outcome, Proper, KeepsMetadata, Idempotent, DistinctIdentities, NextApp;
    match e
    case Patch(_, _) => PatchKeepsOutcome(patch, w, e, a);
    case Delete(_, _) => DeleteKeepsOutcome(patch, w, e, a);
    case RecordSuccess(_, _, _, _, _) => RecordKeepsOutcome(patch, w, e, a);
    case _ => QuietStepKeepsOutcome(patch, w, e, uid, a);
  }

  lemma {:induction false} RetryRun(patch: PatchFn, w: World, es: seq<Event>, uid: string, a: Attempt)
    requires Repeatable(patch, uid, a) && Retrying(patch, w, uid, a) && Admissible(patch, w, es) && Solo(es, uid, a)
    ensures Retrying(patch, Run(patch, w, es), uid, a)
    ensures Outcome(patch, Run(patch, w, es), uid, a) == Outcome(patch, w, uid, a)
    decreases |es|
  {
    hide Retrying, Repeatable, Outcome;
    if es != [] {
      assert es[0] in es;
      RetryStep(patch, w, es[0], uid, a);
      RetryRun(patch, Next(patch, w, es[0]), es[1..], uid, a);
    }
  }

  /** However often the attempt failed before, and wherever, the success that ends the retries leaves
      exactly the settled cluster and a normalization of the desired references as the stored inventory. */
  lemma RetriesConverge(patch: PatchFn, w: World, es: seq<Event>, uid: string, a: Attempt, success: Event)
    requires Repeatable(patch, uid, a) && Succeeds(patch, w, es, uid, a, success)
    requires NoVersionAlias(w.apps[uid].stored.inventory, a.refs)
    ensures var end := Next(patch, Run(patch, w, es), success);
            && end.cluster == Settled(patch, w.cluster, w.apps[uid].stored.inventory, uid, a)
            && IsNormalization(end.apps[uid].stored.inventory, a.refs)
            && Retrying(patch, end, uid, a)
  {
    hide LedgerInv, NoVersionAlias, HoldsUpTo, Proper, Settled, IsNormalization, Merge, MergeFrom, Success;
    RetryRun(patch, w, es, uid, a);
    var v := Run(patch, w, es);
    RecordKeepsOutcome(patch, v, success, a);
    RetryStep(patch, v, success, uid, a);
    FinishingAttempt(v, uid, a);
  }

  lemma FinishingAttempt(w: World, uid: string, a: Attempt)
    requires uid in w.apps && SoloKnows(uid, w.cluster, w.apps[uid], a) && w.apps[uid].phase.Finishing?
    ensures w.apps[uid].attempt == a
  {
  }

  /** Any two ways of reaching success, one of them an uninterrupted run, agree on the cluster and the stored inventory. */
  lemma RetriesMatchUninterrupted(patch: PatchFn, w: World, uid: string, a: Attempt,
                                  es: seq<Event>, success: Event, once: seq<Event>, first: Event)
    requires Repeatable(patch, uid, a) && Succeeds(patch, w, es, uid, a, success) && Succeeds(patch, w, once, uid, a, first)
    requires NoVersionAlias(w.apps[uid].stored.inventory, a.refs)
    ensures var x, y := Next(patch, Run(patch, w, es), success), Next(patch, Run(patch, w, once), first);
            x.cluster == y.cluster && x.apps[uid].stored.inventory == y.apps[uid].stored.inventory
  {
    RetriesConverge(patch, w, es, uid, a, success);
    RetriesConverge(patch, w, once, uid, a, first);
    WellFormedKeysDistinguish(a.refs);
    NormalizationCanonical(
      Next(patch, Run(patch, w, es), success).apps[uid].stored.inventory,
      Next(patch, Run(patch, w, once), first).apps[uid].stored.inventory, a.refs, a.refs);
  }

  // After the success

  /** Everything desired is as its manifest leaves it, and exactly that is recorded. */
  ghost predicate AtRest(patch: PatchFn, w: World, uid: string, a: Attempt) {
    && LedgerInv(w) && uid in w.apps && SoloKnows(uid, w.cluster, w.apps[uid], a)
    && HoldsUpTo(patch, w.cluster, a.plan, |a.plan|)
    && IsNormalization(w.apps[uid].stored.inventory, a.refs)
  }

  lemma NothingToDelete(w: World, uid: string, a: Attempt)
    requires LedgerInv(w) && uid in w.apps && SoloKnows(uid, w.cluster, w.apps[uid], a)
    requires IsNormalization(w.apps[uid].stored.inventory, a.refs)
    ensures !w.apps[uid].phase.Deleting?
  {
    hide Stale, LedgerInv, IsNormalization, SurvivingUpTo, Owned;
    ActiveFacts(w, uid);
    RecordedHasNoAlias(w.apps[uid].stored.inventory, a.refs);
  }

  lemma PatchingHeldChangesNothing(patch: PatchFn, w: World, e: Event, a: Attempt)
    requires e.Patch? && AtRest(patch, w, e.uid, a) && Enabled(w, e)
    ensures Next(patch, w, e).cluster == w.cluster
  {
    hide LedgerInv, IsNormalization, AppliedUpTo, SurvivingUpTo, Owned;
    assert Holds(patch, w.cluster, a.plan[w.apps[e.uid].phase.next]);
  }

  lemma RestStep(patch: PatchFn, w: World, e: Event, uid: string, a: Attempt)
    requires Repeatable(patch, uid, a) && AtRest(patch, w, uid, a) && Enabled(w, e) && SoloEvent(e, uid, a)
    ensures Next(patch, w, e).cluster == w.cluster
    ensures AtRest(patch, Next(patch, w, e), uid, a)
  {
    SoloStepKeeps(patch, w, e, uid, a);
    NothingToDelete(w, uid, a);
    if e.Patch? {
      PatchingHeldChangesNothing(patch, w, e, a);
    }
    RestKeepsInventory(patch, w, e, uid, a);
    hide LedgerInv, SoloKnows, HoldsUpTo, IsNormalization, Repeatable, NextApp;
  }

  lemma RestKeepsInventory(patch: PatchFn, w: World, e: Event, uid: string, a: Attempt)
    requires AtRest(patch, w, uid, a) && Enabled(w, e) && SoloEvent(e, uid, a)
    ensures IsNormalization(NextApp(w, e).stored.inventory, a.refs)
  {
    if e.RecordSuccess? {
      RestRecordsTheSame(patch, w, e, a);
    } else {
      hide SoloKnows, HoldsUpTo, LedgerInv, IsNormalization;
      OthersKeepInventory(w, e);
    }
  }

  lemma RestRecordsTheSame(patch: PatchFn, w: World, e: Event, a: Attempt)
    requires e.RecordSuccess? && AtRest(patch, w, e.uid, a) && Enabled(w, e)
    ensures IsNormalization(NextApp(w, e).stored.inventory, a.refs)
  {
    ActiveFacts(w, e.uid);
    FinishingAttempt(w, e.uid, a);
    hide LedgerInv, HoldsUpTo, IsNormalization, AfterRecordSuccess, Stale, Owned, Proper, AppliedUpTo, SurvivingUpTo;
    if e.reply.Refused? {
      RefusedSuccessKeepsInventory(w.apps[e.uid], e.inventory, e.generation, e.now);
    } else {
      SuccessInventory(w.apps[e.uid], e.reply, e.inventory, e.generation, e.now);
    }
  }

  /** Only a recorded success changes the stored inventory. */
  lemma OthersKeepInventory(w: World, e: Event)
    requires Enabled(w, e) && !e.Outsider? && !e.RecordSuccess?
    ensures NextApp(w, e).stored.inventory == w.apps[e.uid].stored.inventory
  {
    hide AfterRecordFailure, AfterSuspend, Stale, Owned, Proper;
    var app := w.apps[e.uid];
    match e
    case RecordFailure(_, reply, reason, message, generation, now) =>
      FailureKeepsInventory(app, reply, reason, message, generation, now);
    case Suspend(_, reply, generation, now) => SuspendKeepsInventory(app, reply, generation, now);
    case _ =>
  }

  /** Once recorded, the same attempt never changes the cluster again: no object is deleted or altered at any step. */
  lemma {:induction false} FurtherRunsChangeNothing(patch: PatchFn, w: World, es: seq<Event>, uid: string, a: Attempt)
    requires Repeatable(patch, uid, a) && AtRest(patch, w, uid, a) && Admissible(patch, w, es) && Solo(es, uid, a)
    ensures Run(patch, w, es).cluster == w.cluster
    ensures AtRest(patch, Run(patch, w, es), uid, a)
    decreases |es|
  {
    hide AtRest, Repeatable;
    if es != [] {
      assert es[0] in es;
      RestStep(patch, w, es[0], uid, a);
      FurtherRunsChangeNothing(patch, Next(patch, w, es[0]), es[1..], uid, a);
    }
  }

  lemma SuccessIsRest(patch: PatchFn, w: World, es: seq<Event>, uid: string, a: Attempt, success: Event)
    requires Repeatable(patch, uid, a) && Succeeds(patch, w, es, uid, a, success)
    requires NoVersionAlias(w.apps[uid].stored.inventory, a.refs)
    ensures AtRest(patch, Next(patch, Run(patch, w, es), success), uid, a)
  {
    hide LedgerInv, NoVersionAlias, HoldsUpTo, Proper, Settled, IsNormalization, AfterRecordSuccess, SurvivingUpTo, AppliedUpTo;
    RetryRun(patch, w, es, uid, a);
    RetriesConverge(patch, w, es, uid, a, success);
    assert Next(patch, Run(patch, w, es), success).cluster == Run(patch, w, es).cluster;
  }

  lemma {:induction false} InventoryWaitsForSuccess(patch: PatchFn, w: World, es: seq<Event>, uid: string, a: Attempt)
    requires Admissible(patch, w, es) && Solo(es, uid, a) && uid in w.apps && forall e :: e in es ==> !e.RecordSuccess?
    ensures uid in Run(patch, w, es).apps && Run(patch, w, es).apps[uid].stored.inventory == w.apps[uid].stored.inventory
    decreases |es|
  {
    if es != [] {
      var e := es[0];
      assert e in es;
      if e.RecordFailure? {
        FailureKeepsInventory(w.apps[uid], e.reply, e.reason, e.message, e.generation, e.now);
      } else if e.Suspend? {
        SuspendKeepsInventory(w.apps[uid], e.reply, e.generation, e.now);
      }
      InventoryWaitsForSuccess(patch, Next(patch, w, e), es[1..], uid, a);
    }
  }

  /** Repeating the first recorded success leaves the cluster alone exactly when no recorded reference had named
      a desired object under another version; otherwise the repeat brings back what the first run pruned away. */
  lemma RepeatIsIdleIffNoAlias(patch: PatchFn, w: World, uid: string, a: Attempt,
                               es: seq<Event>, first: Event, again: seq<Event>, second: Event)
    requires Repeatable(patch, uid, a) && a.prune
    requires Succeeds(patch, w, es, uid, a, first) && first.reply.Done? && forall e :: e in es ==> !e.RecordSuccess?
    requires Succeeds(patch, Next(patch, Run(patch, w, es), first), again, uid, a, second)
    ensures var end := Next(patch, Run(patch, w, es), first);
            Next(patch, Run(patch, end, again), second).cluster == end.cluster
            <==> NoVersionAlias(w.apps[uid].stored.inventory, a.refs)
  {
    var v := Run(patch, w, es);
    var end := Next(patch, v, first);
    InventoryWaitsForSuccess(patch, w, es, uid, a);
    if NoVersionAlias(w.apps[uid].stored.inventory, a.refs) {
      SuccessIsRest(patch, w, es, uid, a, first);
      FurtherRunsChangeNothing(patch, end, again, uid, a);
    } else {
      RepeatRestores(patch, w, uid, a, es, first, again, second);
    }
    hide Succeeds, Repeatable, NoVersionAlias, NextApp;
  }

  lemma RepeatRestores(patch: PatchFn, w: World, uid: string, a: Attempt,
                       es: seq<Event>, first: Event, again: seq<Event>, second: Event)
    requires Repeatable(patch, uid, a) && a.prune
    requires Succeeds(patch, w, es, uid, a, first)
    requires !NoVersionAlias(Run(patch, w, es).apps[uid].stored.inventory, a.refs)
    requires Succeeds(patch, Next(patch, Run(patch, w, es), first), again, uid, a, second)
    ensures var end := Next(patch, Run(patch, w, es), first);
            Next(patch, Run(patch, end, again), second).cluster != end.cluster
  {
    var end := Next(patch, Run(patch, w, es), first);
    SuccessKeepsDesiredIffNoAlias(patch, w, es, uid, a, first);
    SuccessKeepsDesiredIffNoAlias(patch, end, again, uid, a, second);
    RecordedThenNoAlias(patch, w, es, uid, a, first);
    InventoryStaysAliasFree(patch, end, again, uid, a);
    hide Succeeds, Repeatable, NoVersionAlias, NextApp, Run, Admissible, OwnedIn;
  }

  lemma RecordedThenNoAlias(patch: PatchFn, w: World, es: seq<Event>, uid: string, a: Attempt, success: Event)
    requires KeepsMetadata(patch) && Succeeds(patch, w, es, uid, a, success)
    ensures LedgerInv(Next(patch, Run(patch, w, es), success))
    ensures NoVersionAlias(Next(patch, Run(patch, w, es), success).apps[uid].stored.inventory, a.refs)
  {
    SoloRunKnows(patch, w, es, uid, a);
    hide LedgerInv, KeepsMetadata, Run, Admissible, NoVersionAlias, IsNormalization, AfterRecordSuccess, SurvivingUpTo;
    var v := Run(patch, w, es);
    StepKeepsLedger(patch, v, success);
    ActiveFacts(v, uid);
    SuccessInventory(v.apps[uid], success.reply, success.inventory, success.generation, success.now);
    FinishingAttempt(v, uid, a);
    RecordedHasNoAlias(success.inventory, a.refs);
  }

  lemma {:induction false} InventoryStaysAliasFree(patch: PatchFn, w: World, es: seq<Event>, uid: string, a: Attempt)
    requires KeepsMetadata(patch) && LedgerInv(w) && Admissible(patch, w, es) && Solo(es, uid, a) && uid in w.apps
    requires SoloKnows(uid, w.cluster, w.apps[uid], a)
    requires NoVersionAlias(w.apps[uid].stored.inventory, a.refs)
    ensures uid in Run(patch, w, es).apps && NoVersionAlias(Run(patch, w, es).apps[uid].stored.inventory, a.refs)
    decreases |es|
  {
    hide LedgerInv, KeepsMetadata, NoVersionAlias, SoloKnows, NextApp;
    if es != [] {
      assert es[0] in es;
      SoloStepKeeps(patch, w, es[0], uid, a);
      StepKeepsAliasFree(patch, w, es[0], uid, a);
      InventoryStaysAliasFree(patch, Next(patch, w, es[0]), es[1..], uid, a);
    }
  }
}
