/** Nothing the operator owns is ever unaccounted for, in any interleaving of any applications. */
module Ledger {
  import opened Outcomes
  import opened StableSort
  import opened ResourceReferences
  import opened Inventory
  import opened Manifests
  import opened Clusters
  import opened AppStatus
  import opened Protocol
  import opened Scenarios

  /** Where a live object that carries this application's UID may be written down. */
  function Accounted(app: App): set<Identity> {
    Identities(app.stored.inventory) + app.touched + app.orphans
  }

  ghost predicate AllAccounted(uid: string, c: Cluster, app: App) {
    forall id :: OwnedIn(c, id, uid) ==> id in Accounted(app)
  }

  /** The first k stale references no longer name an object of this application. */
  ghost predicate Cleared(uid: string, c: Cluster, stale: seq<ResourceReference>, k: nat)
    requires k <= |stale|
  {
    forall j :: 0 <= j < k ==> !OwnedIn(c, stale[j].Id(), uid)
  }

  /** What a run in progress knows. */
  ghost predicate RunKnows(uid: string, c: Cluster, app: App) {
    match app.phase
    case Idle => app.touched == {}
    case Applying(next) => next <= |app.attempt.plan| && InProgress(uid, app)
    case Pruning(next) => InProgress(uid, app) && PruneKnows(uid, c, app, next)
    case Deleting(next, _) => InProgress(uid, app) && PruneKnows(uid, c, app, next)
    case Finishing => InProgress(uid, app) && (app.attempt.prune ==>
        Cleared(uid, c, Stale(app.stored.inventory, app.attempt.refs), |Stale(app.stored.inventory, app.attempt.refs)|))
    case Failing(_) => app.touched != {} ==> app.touched <= Identities(app.attempt.refs)
  }

  ghost predicate InProgress(uid: string, app: App) {
    && Proper(uid, app.attempt)
    && app.memory.inventory == app.stored.inventory
    && app.touched <= Identities(app.attempt.refs)
  }

  ghost predicate PruneKnows(uid: string, c: Cluster, app: App, next: nat) {
    && app.attempt.prune
    && app.stale == Stale(app.stored.inventory, app.attempt.refs)
    && next <= |app.stale|
    && Cleared(uid, c, app.stale, next)
  }

  ghost predicate AppInv(uid: string, c: Cluster, app: App) {
    && AllAccounted(uid, c, app)
    && RunKnows(uid, c, app)
    && AllWellFormed(app.stored.inventory)
    && app.orphans !! Identities(app.stored.inventory)
  }

  ghost predicate LedgerInv(w: World) {
    forall uid :: uid in w.apps ==> AppInv(uid, w.cluster, w.apps[uid])
  }

  /** A change of the cluster that hands this application nothing new. */
  ghost predicate Tame(uid: string, c: Cluster, c': Cluster) {
    forall id :: OwnedIn(c', id, uid) ==> OwnedIn(c, id, uid)
  }

  lemma TameKeeps(uid: string, c: Cluster, c': Cluster, app: App)
    requires AppInv(uid, c, app) && Tame(uid, c, c')
    ensures AppInv(uid, c', app)
  {
  }

  /** A step can only hand its own application new objects, and only the one it applies. */
  lemma StepsAreTame(patch: PatchFn, w: World, e: Event, uid: string)
    requires KeepsMetadata(patch) && LedgerInv(w) && Enabled(w, e) && uid in w.apps
    ensures forall id :: OwnedIn(Next(patch, w, e).cluster, id, uid) && !OwnedIn(w.cluster, id, uid) ==>
              Lands(w, e) == Some(id) && e.uid == uid
  {
    var c' := Next(patch, w, e).cluster;
    forall id | OwnedIn(c', id, uid) && !OwnedIn(w.cluster, id, uid)
      ensures Lands(w, e) == Some(id) && e.uid == uid
    {
      if e.Patch? && !e.reply.Refused? {
        var app := w.apps[e.uid];
        var p := app.attempt.plan[app.phase.next];
        assert AppInv(e.uid, w.cluster, app) && p in app.attempt.plan;
        StampedIsOwned(patch, Get(w.cluster, p.ref.Id()), p.manifest, e.uid, app.attempt.revision);
      }
    }
  }

  lemma StaleCovers(previous: seq<ResourceReference>, desired: seq<ResourceReference>, id: Identity)
    requires AllWellFormed(previous) && AllWellFormed(desired)
    requires id in Identities(previous) && id !in Identities(desired)
    ensures id in Identities(Stale(previous, desired))
  {
    var r :| r in previous && r.Id() == id;
    forall d | d in desired
      ensures d.Key() != r.Key()
    {
      if d.Key() == r.Key() {
        KeyInjective(d, r);
      }
    }
    assert r.Key() !in Keys(desired);
    LastOccurrence(previous, r);
    var i :| 0 <= i < |previous| && previous[i].Key() == r.Key() && LastOfKey(previous, i);
    KeyInjective(previous[i], r);
    StaleExactly(previous, desired);
    assert r in Stale(previous, desired);
  }

  lemma {:induction false} LastOccurrence(previous: seq<ResourceReference>, r: ResourceReference)
    requires r in previous
    ensures exists i :: 0 <= i < |previous| && previous[i].Key() == r.Key() && LastOfKey(previous, i)
  {
    KeyMapKeepsLast(previous, r.Key());
    assert r.Key() in Keys(previous);
  }

  lemma StaleComesFromPrevious(previous: seq<ResourceReference>, desired: seq<ResourceReference>)
    ensures forall r :: r in Stale(previous, desired) ==> r in previous && r.Key() !in Keys(desired)
  {
    StaleExactly(previous, desired);
  }

  lemma NormalizationSameIdentities(inventory: seq<ResourceReference>, refs: seq<ResourceReference>)
    requires IsNormalization(inventory, refs)
    ensures Identities(inventory) == Identities(refs)
    ensures AllWellFormed(refs) ==> AllWellFormed(inventory)
    ensures forall r :: r in inventory <==> r in refs
  {
    SameElements(inventory, refs);
  }

  lemma SuccessInventory(app: App, reply: Reply, inventory: seq<ResourceReference>, generation: int, now: nat)
    requires app.memory.inventory == app.stored.inventory && !reply.Refused?
    ensures AfterRecordSuccess(app, reply, inventory, generation, now).stored.inventory == inventory
  {
  }

  /** The success patch replaces the inventory; what leaves it is either no longer owned or orphaned. */
  lemma RecordSuccessKeeps(uid: string, c: Cluster, app: App, reply: Reply, inventory: seq<ResourceReference>, generation: int, now: nat)
    requires AppInv(uid, c, app) && app.phase.Finishing? && IsNormalization(inventory, app.attempt.refs)
    ensures AppInv(uid, c, AfterRecordSuccess(app, reply, inventory, generation, now))
  {
    hide Success, Merge, Stale, Owned, IsNormalization;
    var app' := AfterRecordSuccess(app, reply, inventory, generation, now);
    NormalizationSameIdentities(inventory, app.attempt.refs);
    if !reply.Refused? {
      SuccessInventory(app, reply, inventory, generation, now);
      var stale := Stale(app.stored.inventory, app.attempt.refs);
      forall id | app.attempt.prune && id in Identities(app.stored.inventory) && id !in Identities(inventory)
        ensures !OwnedIn(c, id, uid)
      {
        StaleCovers(app.stored.inventory, app.attempt.refs, id);
        var r :| r in stale && r.Id() == id;
        var j :| 0 <= j < |stale| && stale[j] == r;
        assert !OwnedIn(c, stale[j].Id(), uid);
      }
    }
  }

  lemma RecordFailureKeeps(uid: string, c: Cluster, app: App, reply: Reply, reason: string, message: string, generation: int, now: nat)
    requires AppInv(uid, c, app) && app.phase.Failing?
    ensures AppInv(uid, c, AfterRecordFailure(app, reply, reason, message, generation, now))
    ensures AppInv(uid, c, Abandon(app))
    ensures AfterRecordFailure(app, reply, reason, message, generation, now).stored.inventory == app.stored.inventory
  {
  }

  lemma AbandonKeeps(uid: string, c: Cluster, app: App)
    requires AppInv(uid, c, app)
    ensures AppInv(uid, c, Abandon(app))
  {
  }

  lemma PatchKeeps(patch: PatchFn, w: World, e: Event)
    requires KeepsMetadata(patch) && LedgerInv(w) && Enabled(w, e) && e.Patch?
    ensures AppInv(e.uid, Next(patch, w, e).cluster, NextApp(w, e))
  {
    var app := w.apps[e.uid];
    assert AppInv(e.uid, w.cluster, app);
    var p := app.attempt.plan[app.phase.next];
    assert p in app.attempt.plan && p.ref in app.attempt.refs;
    StepsAreTame(patch, w, e, e.uid);
  }

  lemma FetchKeeps(patch: PatchFn, w: World, e: Event)
    requires LedgerInv(w) && Enabled(w, e) && (e.Fetch? || e.PruneEnds? || e.ApplyEnds?)
    ensures AppInv(e.uid, w.cluster, NextApp(w, e))
  {
    hide Stale, Owned;
    assert AppInv(e.uid, w.cluster, w.apps[e.uid]);
  }

  lemma DeleteKeeps(patch: PatchFn, w: World, e: Event)
    requires KeepsMetadata(patch) && LedgerInv(w) && Enabled(w, e) && e.Delete?
    ensures AppInv(e.uid, Next(patch, w, e).cluster, NextApp(w, e))
  {
    hide Stale, Owned;
    var app, c' := w.apps[e.uid], NextCluster(patch, w, e);
    assert AppInv(e.uid, w.cluster, app) && Tame(e.uid, w.cluster, c');
    TameKeeps(e.uid, w.cluster, c', app);
  }

  lemma StartKeeps(w: World, e: Event)
    requires LedgerInv(w) && Enabled(w, e) && (e.Begin? || e.BeginFails? || e.Suspend?)
    ensures AppInv(e.uid, w.cluster, NextApp(w, e))
  {
    hide Proper, Owned, Stale, AllWellFormed;
    assert AppInv(e.uid, w.cluster, w.apps[e.uid]);
  }

  lemma OwnStepKeeps(patch: PatchFn, w: World, e: Event)
    requires KeepsMetadata(patch) && LedgerInv(w) && Enabled(w, e) && !e.Outsider?
    ensures AppInv(e.uid, Next(patch, w, e).cluster, NextApp(w, e))
  {
    var app := w.apps[e.uid];
    assert AppInv(e.uid, w.cluster, app);
    hide AppInv, KeepsMetadata, Proper;
    match e
    case Begin(_, _) => StartKeeps(w, e);
    case BeginFails(_, _, _) => StartKeeps(w, e);
    case Suspend(_, _, _, _) => StartKeeps(w, e);
    case Patch(_, _) => PatchKeeps(patch, w, e);
    case RecordSuccess(uid, reply, inventory, generation, now) =>
      RecordSuccessKeeps(uid, w.cluster, app, reply, inventory, generation, now);
    case RecordFailure(uid, reply, reason, message, generation, now) =>
      RecordFailureKeeps(uid, w.cluster, app, reply, reason, message, generation, now);
    case Crash(uid) => AbandonKeeps(uid, w.cluster, app);
    case Delete(_, _) => DeleteKeeps(patch, w, e);
    case _ => FetchKeeps(patch, w, e);
  }

  lemma StepKeepsLedger(patch: PatchFn, w: World, e: Event)
    requires KeepsMetadata(patch) && LedgerInv(w) && Enabled(w, e)
    ensures LedgerInv(Next(patch, w, e))
  {
    var w' := Next(patch, w, e);
    forall uid | uid in w'.apps
      ensures AppInv(uid, w'.cluster, w'.apps[uid])
    {
      if !e.Outsider? && uid == e.uid {
        OwnStepKeeps(patch, w, e);
      } else {
        StepsAreTame(patch, w, e, uid);
        TameKeeps(uid, w.cluster, w'.cluster, w.apps[uid]);
      }
    }
  }

  /** In every run, each live object that carries an application's UID is in that application's
      stored inventory, or was applied by its current run, or is a recorded orphan. */
  lemma {:induction false} LedgerHoldsInEveryRun(patch: PatchFn, w: World, es: seq<Event>)
    requires KeepsMetadata(patch) && LedgerInv(w) && Admissible(patch, w, es)
    ensures LedgerInv(Run(patch, w, es))
    ensures forall uid, id :: uid in Run(patch, w, es).apps && OwnedIn(Run(patch, w, es).cluster, id, uid) ==>
              id in Accounted(Run(patch, w, es).apps[uid])
    decreases |es|
  {
    if es != [] {
      StepKeepsLedger(patch, w, es[0]);
      LedgerHoldsInEveryRun(patch, Next(patch, w, es[0]), es[1..]);
    } else {
      forall uid, id | uid in w.apps && OwnedIn(w.cluster, id, uid)
        ensures id in Accounted(w.apps[uid])
      {
        assert AppInv(uid, w.cluster, w.apps[uid]);
      }
    }
  }

  // What feeds the orphans

  /** Right after a recorded success, and as long as every later run of this application wants the identities it recorded. */
  ghost predicate SettledOn(app: App, ids: set<Identity>) {
    && Identities(app.stored.inventory) == ids
    && app.touched <= ids
    && (app.phase.Idle? || app.phase.Failing? || Identities(app.attempt.refs) == ids)
  }

  ghost predicate Wants(e: Event, uid: string, ids: set<Identity>) {
    e.Begin? && e.uid == uid ==> Identities(e.attempt.refs) == ids
  }

  /** An application's own step, as far as its orphans are concerned. */
  ghost predicate KeepsSettled(app: App, app': App, ids: set<Identity>) {
    SettledOn(app', ids) && app'.orphans <= app.orphans
  }

  lemma PatchAddsNoOrphan(w: World, e: Event, ids: set<Identity>)
    requires LedgerInv(w) && Enabled(w, e) && e.Patch? && SettledOn(w.apps[e.uid], ids)
    ensures KeepsSettled(w.apps[e.uid], NextApp(w, e), ids)
  {
    var app := w.apps[e.uid];
    assert AppInv(e.uid, w.cluster, app);
    var p := app.attempt.plan[app.phase.next];
    assert p in app.attempt.plan && p.ref in app.attempt.refs;
    hide LedgerInv, AppInv;
  }

  lemma SuccessAddsNoOrphan(w: World, e: Event, ids: set<Identity>)
    requires LedgerInv(w) && Enabled(w, e) && e.RecordSuccess? && SettledOn(w.apps[e.uid], ids)
    ensures KeepsSettled(w.apps[e.uid], NextApp(w, e), ids)
  {
    var app := w.apps[e.uid];
    assert AppInv(e.uid, w.cluster, app);
    NormalizationSameIdentities(e.inventory, app.attempt.refs);
    if !e.reply.Refused? {
      SuccessInventory(app, e.reply, e.inventory, e.generation, e.now);
    }
    hide LedgerInv, AllAccounted, Stale, Owned, Proper, IsNormalization, Merge, MergeFrom, Success;
  }

  lemma OtherAddsNoOrphan(w: World, e: Event, ids: set<Identity>)
    requires LedgerInv(w) && Enabled(w, e) && !e.Outsider? && !e.Patch? && !e.RecordSuccess?
    requires SettledOn(w.apps[e.uid], ids) && Wants(e, e.uid, ids)
    ensures KeepsSettled(w.apps[e.uid], NextApp(w, e), ids)
  {
    var app := w.apps[e.uid];
    assert AppInv(e.uid, w.cluster, app);
    hide LedgerInv, AllAccounted, Stale, Owned, Proper, IsNormalization, AllWellFormed;
    if e.RecordFailure? {
      RecordFailureKeeps(e.uid, w.cluster, app, e.reply, e.reason, e.message, e.generation, e.now);
    }
  }

  lemma StepAddsNoOrphan(patch: PatchFn, w: World, e: Event, uid: string, ids: set<Identity>)
    requires LedgerInv(w) && Enabled(w, e) && uid in w.apps
    requires SettledOn(w.apps[uid], ids) && Wants(e, uid, ids)
    ensures SettledOn(Next(patch, w, e).apps[uid], ids)
    ensures Next(patch, w, e).apps[uid].orphans <= w.apps[uid].orphans
  {
    hide LedgerInv, SettledOn, NextApp, Enabled, NextCluster;
    if !e.Outsider? && e.uid == uid {
      if e.Patch? {
        PatchAddsNoOrphan(w, e, ids);
      } else if e.RecordSuccess? {
        SuccessAddsNoOrphan(w, e, ids);
      } else {
        OtherAddsNoOrphan(w, e, ids);
      }
    }
  }

  /** While the desired set stays the recorded one, no run of any fate leaves a new orphan behind, with prune on or off. */
  lemma {:induction false} UnchangedDesireAddsNoOrphan(patch: PatchFn, w: World, es: seq<Event>, uid: string, ids: set<Identity>)
    requires KeepsMetadata(patch) && LedgerInv(w) && Admissible(patch, w, es) && uid in w.apps
    requires SettledOn(w.apps[uid], ids)
    requires forall e :: e in es ==> Wants(e, uid, ids)
    ensures uid in Run(patch, w, es).apps
    ensures Run(patch, w, es).apps[uid].orphans <= w.apps[uid].orphans
    decreases |es|
  {
    if es != [] {
      StepAddsNoOrphan(patch, w, es[0], uid, ids);
      StepKeepsLedger(patch, w, es[0]);
      UnchangedDesireAddsNoOrphan(patch, Next(patch, w, es[0]), es[1..], uid, ids);
    }
  }

  /** A recorded success settles the application on what it recorded, and with prune on it orphans nothing. */
  lemma SuccessSettles(patch: PatchFn, w: World, e: Event)
    requires LedgerInv(w) && Enabled(w, e) && e.RecordSuccess? && !e.reply.Refused?
    ensures SettledOn(Next(patch, w, e).apps[e.uid], Identities(e.inventory))
    ensures w.apps[e.uid].attempt.prune ==> Next(patch, w, e).apps[e.uid].orphans <= w.apps[e.uid].orphans
  {
    var app := w.apps[e.uid];
    assert AppInv(e.uid, w.cluster, app);
    SuccessInventory(app, e.reply, e.inventory, e.generation, e.now);
  }

  /** Only two things make an orphan: a run that ended without a recorded success, and a reference dropped with prune off. */
  lemma OrphanSources(patch: PatchFn, w: World, e: Event, uid: string, id: Identity)
    requires Enabled(w, e) && uid in w.apps
    requires id in Next(patch, w, e).apps[uid].orphans && id !in w.apps[uid].orphans
    ensures !e.Outsider? && e.uid == uid
    ensures var app := w.apps[uid];
            || ((e.RecordFailure? || e.Crash?) && id in app.touched)
            || (e.RecordSuccess? && !app.attempt.prune && id in Identities(app.stored.inventory) && id !in Identities(e.inventory))
  {
  }

  function CrashStart(): World {
    World(map[], map["u" := Fresh([])], map[])
  }

  /** An application begins, applies its one object, and crashes. */
  function CrashRun(): seq<Event> {
    Started(CrashStart(), "u", ConfigMap("u", "v1", "a")) + [Crash("u")]
  }

  lemma CrashRuns()
    ensures Admissible(Replace, CrashStart(), CrashRun())
    ensures var v := Applied(CrashStart(), "u", ConfigMap("u", "v1", "a"));
            Run(Replace, CrashStart(), CrashRun()) == World(v.cluster, v.apps["u" := Abandon(v.apps["u"])], v.lastApplier)
  {
    hide Stamp, Stamped, Owned, Proper;
    var p := ConfigMap("u", "v1", "a");
    WantingIsProper("u", "v1", "a");
    StartedRuns(CrashStart(), "u", p);
    RunOne(Replace, CrashStart(), Started(CrashStart(), "u", p), Crash("u"));
  }

  /** The ledger is needed: a crash between the apply and the status write leaves an owned object in no inventory. */
  lemma InventoryAloneIsNotEnough()
    ensures KeepsMetadata(Replace) && LedgerInv(CrashStart()) && Admissible(Replace, CrashStart(), CrashRun())
    ensures var v, id := Run(Replace, CrashStart(), CrashRun()), ConfigMap("u", "v1", "a").ref.Id();
            && "u" in v.apps && v.apps["u"].phase.Idle?
            && OwnedIn(v.cluster, id, "u") && id !in Identities(v.apps["u"].stored.inventory)
  {
    hide Stamp, Stamped, Owned, Proper, Run, Admissible, CrashRun;
    ReplaceIsReasonable();
    ConfigMapIsStamped("u", "v1", "a");
    CrashRuns();
  }
}
