/** What an application's own runs leave in the cluster when no one else acts. */
module PruneOutcome {
  import opened Outcomes
  import opened StableSort
  import opened ResourceReferences
  import opened Inventory
  import opened Manifests
  import opened Clusters
  import opened AppStatus
  import opened Protocol
  import opened Ledger
  import opened Scenarios

  /** Any number of runs of one application for one attempt, each of any fate, and no other actor. */
  ghost predicate Solo(es: seq<Event>, uid: string, a: Attempt) {
    forall e :: e in es ==> SoloEvent(e, uid, a)
  }

  predicate SoloEvent(e: Event, uid: string, a: Attempt) {
    !e.Outsider? && e.uid == uid && (e.Begin? ==> e.attempt == a)
  }

  /** No recorded reference names a desired object under another API version. */
  ghost predicate NoVersionAlias(previous: seq<ResourceReference>, desired: seq<ResourceReference>) {
    forall p, d :: p in previous && d in desired && p.Id() == d.Id() ==> p.Key() in Keys(desired)
  }

  lemma AliasIffStaleNamesDesired(previous: seq<ResourceReference>, desired: seq<ResourceReference>)
    requires AllWellFormed(previous) && AllWellFormed(desired)
    ensures NoVersionAlias(previous, desired) <==> Identities(Stale(previous, desired)) !! Identities(desired)
  {
    var stale := Stale(previous, desired);
    StaleComesFromPrevious(previous, desired);
    if !NoVersionAlias(previous, desired) {
      var p, d :| p in previous && d in desired && p.Id() == d.Id() && p.Key() !in Keys(desired);
      LastOccurrence(previous, p);
      var i :| 0 <= i < |previous| && previous[i].Key() == p.Key() && LastOfKey(previous, i);
      KeyInjective(previous[i], p);
      StaleExactly(previous, desired);
      assert p in stale && p.Id() in Identities(desired);
    } else {
      forall id | id in Identities(stale)
        ensures id !in Identities(desired)
      {
        var r :| r in stale && r.Id() == id;
        assert r in previous && r.Key() !in Keys(desired);
      }
    }
  }

  lemma NothingStaleWhenCovered(previous: seq<ResourceReference>, desired: seq<ResourceReference>)
    requires forall r :: r in previous ==> r in desired
    ensures Stale(previous, desired) == []
  {
    hide ResourceReference.Key, Stale;
    var stale := Stale(previous, desired);
    assert stale == [] || stale[0] in stale;
    StaleComesFromPrevious(previous, desired);
  }

  lemma RecordedHasNoAlias(inventory: seq<ResourceReference>, refs: seq<ResourceReference>)
    requires IsNormalization(inventory, refs)
    ensures NoVersionAlias(inventory, refs)
    ensures Stale(inventory, refs) == []
  {
    SameElements(inventory, refs);
    NothingStaleWhenCovered(inventory, refs);
    hide ResourceReference.Key, IsNormalization, Stale;
    forall p, d | p in inventory && d in refs && p.Id() == d.Id()
      ensures p.Key() in Keys(refs)
    {
      assert p in refs;
    }
  }

  ghost predicate AppliedUpTo(uid: string, c: Cluster, plan: seq<Planned>, k: nat)
    requires k <= |plan|
  {
    forall j :: 0 <= j < k ==> OwnedIn(c, plan[j].ref.Id(), uid)
  }

  /** Exactly the desired objects that no processed stale reference also names are still there. */
  ghost predicate SurvivingUpTo(uid: string, c: Cluster, plan: seq<Planned>, stale: seq<ResourceReference>, k: nat)
    requires k <= |stale|
  {
    forall p :: p in plan ==>
      && (p.ref.Id() in c <==> p.ref.Id() !in Identities(stale[..k]))
      && (p.ref.Id() in c ==> Owned(c[p.ref.Id()], uid))
  }

  ghost predicate SoloKnows(uid: string, c: Cluster, app: App, a: Attempt) {
    match app.phase
    case Idle => true
    case Failing(_) => true
    case Applying(k) => app.attempt == a && k <= |a.plan| && AppliedUpTo(uid, c, a.plan, k)
    case Pruning(k) => app.attempt == a && k <= |app.stale| && SurvivingUpTo(uid, c, a.plan, app.stale, k)
    case Deleting(k, found) =>
      && app.attempt == a && k < |app.stale| && SurvivingUpTo(uid, c, a.plan, app.stale, k)
      && OwnedIn(c, app.stale[k].Id(), uid) && c[app.stale[k].Id()] == found
    case Finishing =>
      && app.attempt == a
      && (a.prune ==> SurvivingUpTo(uid, c, a.plan, Stale(app.stored.inventory, a.refs), |Stale(app.stored.inventory, a.refs)|))
      && (!a.prune ==> AppliedUpTo(uid, c, a.plan, |a.plan|))
  }

  /** The few facts of the ledger invariant that the proofs below rest on. */
  lemma ActiveFacts(w: World, uid: string)
    requires LedgerInv(w) && uid in w.apps
    ensures var app := w.apps[uid];
            && AllWellFormed(app.stored.inventory)
            && (app.phase.Applying? || app.phase.Pruning? || app.phase.Deleting? || app.phase.Finishing? ==>
                  Proper(uid, app.attempt) && app.memory.inventory == app.stored.inventory)
            && (app.phase.Pruning? || app.phase.Deleting? ==>
                  app.attempt.prune && app.stale == Stale(app.stored.inventory, app.attempt.refs))
  {
    hide Stale, Proper, AllWellFormed, AllAccounted, Cleared;
    assert AppInv(uid, w.cluster, w.apps[uid]);
  }

  lemma AppliesOneMore(patch: PatchFn, uid: string, c: Cluster, a: Attempt, k: nat)
    requires KeepsMetadata(patch) && Proper(uid, a) && k < |a.plan| && AppliedUpTo(uid, c, a.plan, k)
    ensures AppliedUpTo(uid, ApplyOne(patch, c, a.plan[k]), a.plan, k + 1)
  {
    var p := a.plan[k];
    assert p in a.plan;
    StampedIsOwned(patch, Get(c, p.ref.Id()), p.manifest, uid, a.revision);
    hide KeepsMetadata, Owned, Proper, Stamped;
  }

  lemma SoloPatchKeeps(patch: PatchFn, w: World, e: Event, a: Attempt)
    requires KeepsMetadata(patch) && LedgerInv(w) && Enabled(w, e) && e.Patch?
    requires SoloKnows(e.uid, w.cluster, w.apps[e.uid], a)
    ensures SoloKnows(e.uid, Next(patch, w, e).cluster, NextApp(w, e), a)
  {
    hide KeepsMetadata, Proper, LedgerInv, AllWellFormed, AppliedUpTo, ApplyOne;
    ActiveFacts(w, e.uid);
    AppliesOneMore(patch, e.uid, w.cluster, a, w.apps[e.uid].phase.next);
  }

  lemma TakeOneMore(stale: seq<ResourceReference>, k: nat)
    requires k < |stale|
    ensures Identities(stale[..k + 1]) == Identities(stale[..k]) + {stale[k].Id()}
  {
    assert stale[..k + 1] == stale[..k] + [stale[k]];
  }

  lemma SoloPruneKeeps(patch: PatchFn, w: World, e: Event, a: Attempt)
    requires LedgerInv(w) && Enabled(w, e) && (e.ApplyEnds? || e.Fetch? || e.Delete? || e.PruneEnds?)
    requires SoloKnows(e.uid, w.cluster, w.apps[e.uid], a)
    ensures SoloKnows(e.uid, Next(patch, w, e).cluster, NextApp(w, e), a)
  {
    hide SoloKnows, LedgerInv, NextApp;
    if e.Fetch? || e.Delete? {
      SoloStaleKeeps(patch, w, e, a);
    } else if e.ApplyEnds? {
      SoloApplyEndKeeps(patch, w, e, a);
    } else {
      SoloPruneEndKeeps(patch, w, e, a);
    }
  }

  lemma SoloApplyEndKeeps(patch: PatchFn, w: World, e: Event, a: Attempt)
    requires LedgerInv(w) && Enabled(w, e) && e.ApplyEnds? && SoloKnows(e.uid, w.cluster, w.apps[e.uid], a)
    ensures SoloKnows(e.uid, w.cluster, NextApp(w, e), a)
  {
    hide Owned, Stale, Proper, LedgerInv, AllWellFormed;
    ActiveFacts(w, e.uid);
    assert Identities(Stale(w.apps[e.uid].stored.inventory, a.refs)[..0]) == {};
  }

  lemma SoloPruneEndKeeps(patch: PatchFn, w: World, e: Event, a: Attempt)
    requires LedgerInv(w) && Enabled(w, e) && e.PruneEnds? && SoloKnows(e.uid, w.cluster, w.apps[e.uid], a)
    ensures SoloKnows(e.uid, w.cluster, NextApp(w, e), a)
  {
    hide Owned, Stale, Proper, LedgerInv, AllWellFormed;
    ActiveFacts(w, e.uid);
    assert w.apps[e.uid].stale[..|w.apps[e.uid].stale|] == w.apps[e.uid].stale;
  }

  lemma SoloStaleKeeps(patch: PatchFn, w: World, e: Event, a: Attempt)
    requires LedgerInv(w) && Enabled(w, e) && (e.Fetch? || e.Delete?)
    requires SoloKnows(e.uid, w.cluster, w.apps[e.uid], a)
    ensures SoloKnows(e.uid, Next(patch, w, e).cluster, NextApp(w, e), a)
  {
    hide Owned, Stale, Proper, LedgerInv, AllWellFormed;
    ActiveFacts(w, e.uid);
    TakeOneMore(w.apps[e.uid].stale, w.apps[e.uid].phase.next);
  }

  lemma SoloStepKeeps(patch: PatchFn, w: World, e: Event, uid: string, a: Attempt)
    requires KeepsMetadata(patch) && LedgerInv(w) && Enabled(w, e) && SoloEvent(e, uid, a)
    requires SoloKnows(uid, w.cluster, w.apps[uid], a)
    ensures SoloKnows(uid, Next(patch, w, e).cluster, Next(patch, w, e).apps[uid], a)
    ensures LedgerInv(Next(patch, w, e))
  {
    StepKeepsLedger(patch, w, e);
    match e
    case Patch(_, _) => SoloPatchKeeps(patch, w, e, a);
    case ApplyEnds(_) => SoloPruneKeeps(patch, w, e, a);
    case Fetch(_, _) => SoloPruneKeeps(patch, w, e, a);
    case Delete(_, _) => SoloPruneKeeps(patch, w, e, a);
    case PruneEnds(_) => SoloPruneKeeps(patch, w, e, a);
    case _ => SoloStatusKeeps(patch, w, e, uid, a);
  }

  lemma SoloStatusKeeps(patch: PatchFn, w: World, e: Event, uid: string, a: Attempt)
    requires Enabled(w, e) && SoloEvent(e, uid, a) && SoloKnows(uid, w.cluster, w.apps[uid], a)
    requires !e.Patch? && !e.ApplyEnds? && !e.Fetch? && !e.Delete? && !e.PruneEnds?
    ensures SoloKnows(uid, Next(patch, w, e).cluster, Next(patch, w, e).apps[uid], a)
  {
    hide Proper, Merge, Success, Failure, Suspended;
  }

  lemma {:induction false} SoloRunKnows(patch: PatchFn, w: World, es: seq<Event>, uid: string, a: Attempt)
    requires KeepsMetadata(patch) && LedgerInv(w) && Admissible(patch, w, es) && Solo(es, uid, a) && uid in w.apps
    requires SoloKnows(uid, w.cluster, w.apps[uid], a)
    ensures LedgerInv(Run(patch, w, es)) && uid in Run(patch, w, es).apps
    ensures SoloKnows(uid, Run(patch, w, es).cluster, Run(patch, w, es).apps[uid], a)
    decreases |es|
  {
    hide SoloKnows, LedgerInv, KeepsMetadata;
    if es != [] {
      assert es[0] in es;
      SoloStepKeeps(patch, w, es[0], uid, a);
      SoloRunKnows(patch, Next(patch, w, es[0]), es[1..], uid, a);
    }
  }

  ghost predicate Succeeds(patch: PatchFn, w: World, es: seq<Event>, uid: string, a: Attempt, success: Event)
  {
    && LedgerInv(w) && uid in w.apps && w.apps[uid].phase.Idle?
    && Admissible(patch, w, es) && Solo(es, uid, a)
    && Enabled(Run(patch, w, es), success) && success.RecordSuccess? && success.uid == uid && !success.reply.Refused?
  }

  /** When a pruning run is about to record success, a desired object is live exactly when no reference that
      the run found stale names it too, and nothing the old inventory named beyond that is still owned. */
  lemma PruneLeavesExactly(patch: PatchFn, w: World, es: seq<Event>, uid: string, a: Attempt, success: Event)
    requires KeepsMetadata(patch) && a.prune && Succeeds(patch, w, es, uid, a, success)
    ensures var v := Run(patch, w, es);
            var old_ := v.apps[uid].stored.inventory;
            && (forall p :: p in a.plan ==> (p.ref.Id() in v.cluster <==> p.ref.Id() !in Identities(Stale(old_, a.refs))))
            && (forall p :: p in a.plan && p.ref.Id() in v.cluster ==> Owned(v.cluster[p.ref.Id()], uid))
            && (forall r :: r in old_ && r.Id() !in Identities(a.refs) ==> !OwnedIn(v.cluster, r.Id(), uid))
  {
    hide LedgerInv, Stale, Owned, Proper, AllWellFormed, KeepsMetadata, Run, Admissible;
    SoloRunKnows(patch, w, es, uid, a);
    var v := Run(patch, w, es);
    var app := v.apps[uid];
    ActiveFacts(v, uid);
    FinishingIsCleared(v, uid);
    ProperIsWellFormed(uid, a);
    var stale := Stale(app.stored.inventory, a.refs);
    assert stale[..|stale|] == stale;
    forall r | r in app.stored.inventory && r.Id() !in Identities(a.refs)
      ensures !OwnedIn(v.cluster, r.Id(), uid)
    {
      StaleCovers(app.stored.inventory, a.refs, r.Id());
    }
  }

  lemma FinishingIsCleared(w: World, uid: string)
    requires LedgerInv(w) && uid in w.apps && w.apps[uid].phase.Finishing? && w.apps[uid].attempt.prune
    ensures forall id :: id in Identities(Stale(w.apps[uid].stored.inventory, w.apps[uid].attempt.refs)) ==> !OwnedIn(w.cluster, id, uid)
  {
    hide Stale, Owned, Proper, AllWellFormed, AllAccounted;
    var app := w.apps[uid];
    assert AppInv(uid, w.cluster, app);
    var stale := Stale(app.stored.inventory, app.attempt.refs);
    forall id | id in Identities(stale)
      ensures !OwnedIn(w.cluster, id, uid)
    {
      var s :| s in stale && s.Id() == id;
      var j :| 0 <= j < |stale| && stale[j] == s;
      assert !OwnedIn(w.cluster, stale[j].Id(), uid);
    }
  }

  /** A successful pruning run leaves every desired object live exactly when no recorded reference names
      one of them under another version. */
  lemma SuccessKeepsDesiredIffNoAlias(patch: PatchFn, w: World, es: seq<Event>, uid: string, a: Attempt, success: Event)
    requires KeepsMetadata(patch) && a.prune && Succeeds(patch, w, es, uid, a, success)
    ensures var v := Run(patch, w, es);
            (forall p :: p in a.plan ==> OwnedIn(Next(patch, v, success).cluster, p.ref.Id(), uid))
            <==> NoVersionAlias(v.apps[uid].stored.inventory, a.refs)
  {
    hide LedgerInv, Stale, Owned, Proper, AllWellFormed, KeepsMetadata, Run, Admissible, NoVersionAlias, NextApp;
    PruneLeavesExactly(patch, w, es, uid, a, success);
    SoloRunKnows(patch, w, es, uid, a);
    var v := Run(patch, w, es);
    var app := v.apps[uid];
    ActiveFacts(v, uid);
    var stale := Stale(app.stored.inventory, a.refs);
    ProperIsWellFormed(uid, a);
    AliasIffStaleNamesDesired(app.stored.inventory, a.refs);
    DesiredIdentities(uid, a);
    assert Next(patch, v, success).cluster == v.cluster;
    if !(Identities(stale) !! Identities(a.refs)) {
      var id :| id in Identities(stale) && id in Identities(a.refs);
      var p :| p in a.plan && p.ref.Id() == id;
      assert p.ref.Id() !in v.cluster;
    }
  }

  lemma ProperIsWellFormed(uid: string, a: Attempt)
    requires Proper(uid, a)
    ensures AllWellFormed(a.refs)
  {
  }

  lemma DesiredIdentities(uid: string, a: Attempt)
    requires Proper(uid, a)
    ensures forall id :: id in Identities(a.refs) <==> exists p :: p in a.plan && p.ref.Id() == id
  {
    forall id | id in Identities(a.refs)
      ensures exists p :: p in a.plan && p.ref.Id() == id
    {
      var r :| r in a.refs && r.Id() == id;
      assert r in PlanRefs(a.plan);
      var i :| 0 <= i < |a.plan| && a.plan[i].ref == r;
      assert a.plan[i] in a.plan;
    }
  }

  /** Without an alias, no step of any run takes away a desired object that is live, whatever the run's fate. */
  lemma {:induction false} DesiredStaysLive(patch: PatchFn, w: World, es: seq<Event>, uid: string, a: Attempt, id: Identity)
    requires KeepsMetadata(patch) && LedgerInv(w) && Admissible(patch, w, es) && Solo(es, uid, a) && uid in w.apps
    requires SoloKnows(uid, w.cluster, w.apps[uid], a)
    requires NoVersionAlias(w.apps[uid].stored.inventory, a.refs)
    requires id in Identities(a.refs) && id in w.cluster
    ensures id in Run(patch, w, es).cluster
    decreases |es|
  {
    if es != [] {
      assert es[0] in es;
      SoloStepKeeps(patch, w, es[0], uid, a);
      StepKeepsDesired(patch, w, es[0], uid, a, id);
      DesiredStaysLive(patch, Next(patch, w, es[0]), es[1..], uid, a, id);
    }
  }

  lemma StepKeepsDesired(patch: PatchFn, w: World, e: Event, uid: string, a: Attempt, id: Identity)
    requires LedgerInv(w) && Enabled(w, e) && SoloEvent(e, uid, a)
    requires SoloKnows(uid, w.cluster, w.apps[uid], a)
    requires NoVersionAlias(w.apps[uid].stored.inventory, a.refs)
    requires id in Identities(a.refs) && id in w.cluster
    ensures id in Next(patch, w, e).cluster
    ensures NoVersionAlias(Next(patch, w, e).apps[uid].stored.inventory, a.refs)
  {
    StepKeepsAliasFree(patch, w, e, uid, a);
    if e.Delete? {
      DeleteSparesDesired(w, e, a, id);
    }
    hide NoVersionAlias, LedgerInv, NextApp, SoloKnows;
  }

  lemma DeleteSparesDesired(w: World, e: Event, a: Attempt, id: Identity)
    requires e.Delete? && LedgerInv(w) && Enabled(w, e)
    requires SoloKnows(e.uid, w.cluster, w.apps[e.uid], a)
    requires NoVersionAlias(w.apps[e.uid].stored.inventory, a.refs)
    requires id in Identities(a.refs)
    ensures w.apps[e.uid].stale[w.apps[e.uid].phase.next].Id() != id
  {
    hide Stale, Owned, NoVersionAlias, LedgerInv, Proper, AllWellFormed, NextApp, SurvivingUpTo, AppliedUpTo, ResourceReference.Key;
    var app := w.apps[e.uid];
    ActiveFacts(w, e.uid);
    ProperIsWellFormed(e.uid, a);
    AliasIffStaleNamesDesired(app.stored.inventory, a.refs);
    assert app.stale[app.phase.next] in app.stale;
  }

  lemma StepKeepsAliasFree(patch: PatchFn, w: World, e: Event, uid: string, a: Attempt)
    requires LedgerInv(w) && Enabled(w, e) && SoloEvent(e, uid, a)
    requires SoloKnows(uid, w.cluster, w.apps[uid], a)
    requires NoVersionAlias(w.apps[uid].stored.inventory, a.refs)
    ensures NoVersionAlias(Next(patch, w, e).apps[uid].stored.inventory, a.refs)
  {
    hide Stale, Owned, NoVersionAlias, LedgerInv, Proper, AllWellFormed, IsNormalization, SurvivingUpTo, AppliedUpTo,
      AfterRecordSuccess, AfterRecordFailure, AfterSuspend;
    var app := w.apps[uid];
    ActiveFacts(w, uid);
    match e
    case RecordSuccess(_, reply, inventory, generation, now) =>
      if reply.Refused? {
        RefusedSuccessKeepsInventory(app, inventory, generation, now);
      } else {
        RecordedHasNoAlias(inventory, a.refs);
        SuccessInventory(app, reply, inventory, generation, now);
      }
    case RecordFailure(_, reply, reason, message, generation, now) =>
      FailureKeepsInventory(app, reply, reason, message, generation, now);
    case Suspend(_, reply, generation, now) => SuspendKeepsInventory(app, reply, generation, now);
    case _ =>
  }

  lemma RefusedSuccessKeepsInventory(app: App, inventory: seq<ResourceReference>, generation: int, now: nat)
    ensures AfterRecordSuccess(app, Refused, inventory, generation, now).stored == app.stored
  {
  }

  lemma FailureKeepsInventory(app: App, reply: Reply, reason: string, message: string, generation: int, now: nat)
    requires app.phase.Failing?
    ensures AfterRecordFailure(app, reply, reason, message, generation, now).stored.inventory == app.stored.inventory
  {
  }

  lemma SuspendKeepsInventory(app: App, reply: Reply, generation: int, now: nat)
    ensures AfterSuspend(app, reply, generation, now).stored.inventory == app.stored.inventory
  {
  }

  // A version bump

  /** The application owns an object it recorded under v1beta1 and now renders under v1. */
  function BumpStart(): World {
    var old_ := ConfigMap("a", "v1beta1", "x");
    World(map[old_.ref.Id() := Replace(None, old_.manifest)], map["a" := Fresh([old_.ref])], map[old_.ref.Id() := "a"])
  }

  function Bump(): seq<Event> {
    Started(BumpStart(), "a", ConfigMap("a", "v1", "x")) + [ApplyEnds("a"), Fetch("a", true), Delete("a", Done), PruneEnds("a")]
  }

  lemma BumpedIsStale()
    ensures Stale([ConfigMap("a", "v1beta1", "x").ref], [ConfigMap("a", "v1", "x").ref]) == [ConfigMap("a", "v1beta1", "x").ref]
  {
    hide Stamp;
    var r, d := ConfigMap("a", "v1beta1", "x").ref, ConfigMap("a", "v1", "x").ref;
    assert r.version[2] == 'b' && |d.version| == 2;
    assert r.Key() != d.Key() by {
      if r.Key() == d.Key() {
        KeyInjective(r, d);
      }
    }
    hide ResourceReference.Key;
    assert [r][1..] == [] && Keys([d]) == {d.Key()};
    assert Survivors([], Keys([d])) == [];
    assert Survivors([r], Keys([d])) == [r];
    assert Sort(KeyLess, []) == [];
  }

  lemma BumpTail(w: World, w': World, r: ResourceReference, p: Planned)
    requires "a" in w.apps && w.apps["a"].phase == Applying(1) && w.apps["a"].attempt == Wanting(p)
    requires Stale(w.apps["a"].memory.inventory, [p.ref]) == [r] && OwnedIn(w.cluster, r.Id(), "a")
    requires w' == World(w.cluster - {r.Id()}, w.apps["a" := w.apps["a"].(phase := Finishing, stale := [r])], w.lastApplier)
    ensures Admissible(Replace, w, [ApplyEnds("a"), Fetch("a", true), Delete("a", Done), PruneEnds("a")])
    ensures Run(Replace, w, [ApplyEnds("a"), Fetch("a", true), Delete("a", Done), PruneEnds("a")]) == w'
  {
    var e0, e1, e2, e3 := ApplyEnds("a"), Fetch("a", true), Delete("a", Done), PruneEnds("a");
    var app := w.apps["a"];
    var w1 := World(w.cluster, w.apps["a" := app.(phase := Pruning(0), stale := [r])], w.lastApplier);
    var w2 := World(w.cluster, w.apps["a" := app.(phase := Deleting(0, w.cluster[r.Id()]), stale := [r])], w.lastApplier);
    var w3 := World(w.cluster - {r.Id()}, w.apps["a" := app.(phase := Pruning(1), stale := [r])], w.lastApplier);
    BumpSteps(w, w1, w2, w3, w', r, p);
    hide Next, Enabled;
    RunOne(Replace, w, [], e0);
    RunOne(Replace, w, [] + [e0], e1);
    RunOne(Replace, w, [] + [e0] + [e1], e2);
    RunOne(Replace, w, [] + [e0] + [e1] + [e2], e3);
    assert [] + [e0] + [e1] + [e2] + [e3] == [e0, e1, e2, e3];
  }

  lemma BumpSteps(w: World, w1: World, w2: World, w3: World, w': World, r: ResourceReference, p: Planned)
    requires "a" in w.apps && w.apps["a"].phase == Applying(1) && w.apps["a"].attempt == Wanting(p)
    requires Stale(w.apps["a"].memory.inventory, [p.ref]) == [r] && OwnedIn(w.cluster, r.Id(), "a")
    requires var app := w.apps["a"];
             && w1 == World(w.cluster, w.apps["a" := app.(phase := Pruning(0), stale := [r])], w.lastApplier)
             && w2 == World(w.cluster, w.apps["a" := app.(phase := Deleting(0, w.cluster[r.Id()]), stale := [r])], w.lastApplier)
             && w3 == World(w.cluster - {r.Id()}, w.apps["a" := app.(phase := Pruning(1), stale := [r])], w.lastApplier)
             && w' == World(w.cluster - {r.Id()}, w.apps["a" := app.(phase := Finishing, stale := [r])], w.lastApplier)
    ensures Enabled(w, ApplyEnds("a")) && Next(Replace, w, ApplyEnds("a")) == w1
    ensures Enabled(w1, Fetch("a", true)) && Next(Replace, w1, Fetch("a", true)) == w2
    ensures Enabled(w2, Delete("a", Done)) && Next(Replace, w2, Delete("a", Done)) == w3
    ensures Enabled(w3, PruneEnds("a")) && Next(Replace, w3, PruneEnds("a")) == w'
  {
    hide Stale, Owned, ResourceReference.Key;
  }

  lemma BumpRuns()
    ensures Admissible(Replace, BumpStart(), Bump())
    ensures var p := ConfigMap("a", "v1", "x");
            var mid := Applied(BumpStart(), "a", p);
            && p.ref.Id() == ConfigMap("a", "v1beta1", "x").ref.Id()
            && Run(Replace, BumpStart(), Bump()) ==
               World(mid.cluster - {p.ref.Id()},
                     mid.apps["a" := mid.apps["a"].(phase := Finishing, stale := [ConfigMap("a", "v1beta1", "x").ref])], mid.lastApplier)
  {
    hide Stamp, Stamped, Owned, Proper, Stale, ResourceReference.Key;
    var w, p, r := BumpStart(), ConfigMap("a", "v1", "x"), ConfigMap("a", "v1beta1", "x").ref;
    WantingIsProper("a", "v1", "x");
    ConfigMapIsStamped("a", "v1", "x");
    StartedRuns(w, "a", p);
    BumpedIsStale();
    var mid := Applied(w, "a", p);
    var tail := [ApplyEnds("a"), Fetch("a", true), Delete("a", Done), PruneEnds("a")];
    BumpTail(mid, World(mid.cluster - {r.Id()}, mid.apps["a" := mid.apps["a"].(phase := Finishing, stale := [r])], mid.lastApplier), r, p);
    RunSplits(Replace, w, Started(w, "a", p), tail);
  }

  /** The hypothesis is needed: bumping only the API version makes prune delete the object the same run applied. */
  lemma VersionBumpDeletesDesired()
    ensures LedgerInv(BumpStart()) && Admissible(Replace, BumpStart(), Bump())
    ensures var p, v := ConfigMap("a", "v1", "x"), Run(Replace, BumpStart(), Bump());
            && p.ref.Id() in BumpStart().cluster && p.ref.Id() !in v.cluster
            && "a" in v.apps && v.apps["a"].phase.Finishing? && v.apps["a"].attempt == Wanting(p)
  {
    BumpRuns();
    hide Stamp, Stamped, Owned, Proper, Stale, ResourceReference.Key, Run, Admissible, Bump;
    var r := ConfigMap("a", "v1beta1", "x").ref;
    var app := Fresh([r]);
    assert r.WellFormed() && AppInv("a", BumpStart().cluster, app);
  }
}
