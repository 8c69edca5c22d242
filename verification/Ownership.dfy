/** Whom a live object belongs to, and what prune may therefore delete. */
module Ownership {
  import opened Outcomes
  import opened ResourceReferences
  import opened Inventory
  import opened Manifests
  import opened Clusters
  import opened AppStatus
  import opened Protocol
  import opened Scenarios

  predicate Managed(live: Live) {
    Lookup(live.labels, MANAGED_BY_LABEL) == MANAGED_BY_VALUE
  }

  /** A managed object whose UID annotation names an application was last applied by that application. */
  ghost predicate Named(w: World) {
    forall id :: id in w.cluster && Managed(w.cluster[id]) && Lookup(w.cluster[id].annotations, APPLICATION_UID_ANNO) in w.apps ==>
      id in w.lastApplier && w.lastApplier[id] == Lookup(w.cluster[id].annotations, APPLICATION_UID_ANNO)
  }

  /** Runs apply stamped objects only, and the copy they are about to delete passed the ownership test. */
  ghost predicate RunsProper(w: World) {
    forall uid :: uid in w.apps ==> RunProper(uid, w.apps[uid])
  }

  ghost predicate RunProper(uid: string, app: App) {
    && (app.phase.Applying? ==> Proper(uid, app.attempt))
    && (app.phase.Deleting? ==> Owned(app.phase.found, uid) && app.phase.next < |app.stale|)
  }

  ghost predicate OwnershipInv(w: World) {
    Named(w) && RunsProper(w)
  }

  lemma StepKeepsNames(patch: PatchFn, w: World, e: Event)
    requires KeepsMetadata(patch) && OwnershipInv(w) && Enabled(w, e)
    ensures Named(Next(patch, w, e))
  {
    if Lands(w, e).Some? {
      var app := w.apps[e.uid];
      var p := app.attempt.plan[app.phase.next];
      assert RunProper(e.uid, app) && p in app.attempt.plan;
      StampedIsOwned(patch, Get(w.cluster, p.ref.Id()), p.manifest, e.uid, app.attempt.revision);
    }
    hide KeepsMetadata, Proper;
  }

  lemma StepKeepsRunsProper(patch: PatchFn, w: World, e: Event)
    requires OwnershipInv(w) && Enabled(w, e)
    ensures RunsProper(Next(patch, w, e))
  {
    hide Proper, Owned, Success, Failure, Suspended, Merge, MergeFrom, Stale;
    var w' := Next(patch, w, e);
    forall uid | uid in w'.apps
      ensures RunProper(uid, w'.apps[uid])
    {
      assert e.Outsider? || uid != e.uid ==> w'.apps[uid] == w.apps[uid];
    }
  }

  /** In every run, a UID annotation on a managed object that names an application names its last applier. */
  lemma {:induction false} AnnotationNamesLastApplier(patch: PatchFn, w: World, es: seq<Event>)
    requires KeepsMetadata(patch) && OwnershipInv(w) && Admissible(patch, w, es)
    ensures OwnershipInv(Run(patch, w, es))
    decreases |es|
  {
    if es != [] {
      StepKeepsNames(patch, w, es[0]);
      StepKeepsRunsProper(patch, w, es[0]);
      AnnotationNamesLastApplier(patch, Next(patch, w, es[0]), es[1..]);
    }
  }

  function Target(app: App): Identity
    requires app.phase.Deleting? && app.phase.next < |app.stale|
  {
    app.stale[app.phase.next].Id()
  }

  /** With fetch and delete as one step, prune removes only what this application applied last and still labels. */
  lemma AtomicPruneIsSafe(patch: PatchFn, w: World, es: seq<Event>, fetch: Event, delete: Event)
    requires KeepsMetadata(patch) && OwnershipInv(w) && Admissible(patch, w, es)
    requires var v := Run(patch, w, es);
             && fetch.Fetch? && Enabled(v, fetch)
             && delete.Delete? && delete.uid == fetch.uid && Enabled(Next(patch, v, fetch), delete)
    ensures var v := Run(patch, w, es);
            var v' := Next(patch, Next(patch, v, fetch), delete);
            forall id :: id in v.cluster && id !in v'.cluster ==>
              && OwnedIn(v.cluster, id, fetch.uid)
              && id in v.lastApplier && v.lastApplier[id] == fetch.uid
  {
    AnnotationNamesLastApplier(patch, w, es);
  }

  ghost predicate Others(es: seq<Event>, uid: string) {
    forall e :: e in es && !e.Outsider? ==> e.uid != uid
  }

  lemma {:induction false} OthersKeepApp(patch: PatchFn, w: World, es: seq<Event>, uid: string)
    requires Admissible(patch, w, es) && Others(es, uid) && uid in w.apps
    ensures uid in Run(patch, w, es).apps && Run(patch, w, es).apps[uid] == w.apps[uid]
    decreases |es|
  {
    hide NextApp, NextCluster, Enabled;
    if es != [] {
      assert es[0] in es;
      OthersKeepApp(patch, Next(patch, w, es[0]), es[1..], uid);
    }
  }

  // The window between fetch and delete

  /** What may happen in the window: the attempts each application may begin, the identities outsiders may act on. */
  datatype Bounds = Bounds(desire: (string, Attempt) -> bool, meddle: Identity -> bool)

  ghost predicate Within(es: seq<Event>, may: Bounds) {
    forall e :: e in es ==> (e.Begin? ==> may.desire(e.uid, e.attempt)) && (e.Outsider? ==> may.meddle(e.id))
  }

  /** Steps of everyone but this application, within these bounds. */
  ghost predicate Window(patch: PatchFn, w: World, es: seq<Event>, uid: string, may: Bounds) {
    Admissible(patch, w, es) && Others(es, uid) && Within(es, may)
  }

  function Names(plan: seq<Planned>): (ids: set<Identity>)
    ensures forall i :: 0 <= i < |plan| ==> plan[i].ref.Id() in ids
    ensures forall id :: id in ids ==> exists i :: 0 <= i < |plan| && plan[i].ref.Id() == id
  {
    set p | p in plan :: p.ref.Id()
  }

  /** What the application's current run has yet to apply. */
  function ToApply(app: App): set<Identity> {
    if app.phase.Applying? && app.phase.next <= |app.attempt.plan| then Names(app.attempt.plan[app.phase.next..]) else {}
  }

  /** Another application has this identity still to apply, or may begin a run that applies it. */
  ghost predicate Rival(w: World, uid: string, id: Identity, may: Bounds) {
    exists b :: b in w.apps && b != uid &&
      (id in ToApply(w.apps[b]) || exists a :: may.desire(b, a) && Proper(b, a) && id in Names(a.plan))
  }

  /** The delete this application is about to make takes away a live object that carries another one's UID and the label. */
  ghost predicate HitsForeign(patch: PatchFn, v: World, uid: string, id: Identity) {
    && Enabled(v, Delete(uid, Done)) && id in v.cluster && id !in Next(patch, v, Delete(uid, Done)).cluster
    && exists b :: b in v.apps && b != uid && OwnedIn(v.cluster, id, b)
  }

  /** The delete takes away a live object that fails the ownership test prune makes before it. */
  ghost predicate TakesUnowned(patch: PatchFn, v: World, uid: string, id: Identity) {
    && Enabled(v, Delete(uid, Done)) && id in v.cluster && id !in Next(patch, v, Delete(uid, Done)).cluster
    && !Owned(v.cluster[id], uid)
  }

  /** The delete takes away a live object without the managed-by label. */
  ghost predicate TakesUnmanaged(patch: PatchFn, v: World, uid: string, id: Identity) {
    && Enabled(v, Delete(uid, Done)) && id in v.cluster && id !in Next(patch, v, Delete(uid, Done)).cluster
    && !Managed(v.cluster[id])
  }

  lemma StepAwayFrom(patch: PatchFn, w: World, e: Event, uid: string, id: Identity, may: Bounds)
    requires Enabled(w, e) && !Rival(w, uid, id, may)
    requires (e.Outsider? || e.uid != uid) && (e.Begin? ==> may.desire(e.uid, e.attempt))
    ensures Lands(w, e) != Some(id)
    ensures !Rival(Next(patch, w, e), uid, id, may)
  {
    hide Proper, NextCluster, AfterRecordSuccess, AfterRecordFailure, AfterSuspend;
    if !e.Outsider? {
      var app := w.apps[e.uid];
      assert id !in ToApply(app);
      if e.Patch? {
        var rest := app.attempt.plan[app.phase.next..];
        assert rest[0] == app.attempt.plan[app.phase.next];
        assert app.attempt.plan[app.phase.next + 1..] == rest[1..];
      }
      if e.Begin? {
        assert e.attempt.plan[0..] == e.attempt.plan;
      }
      StepsToApply(w, e);
      assert id !in ToApply(NextApp(w, e));
    }
    hide NextApp, ToApply, Enabled;
  }

  /** Only a begin gives a run more to apply. */
  lemma StepsToApply(w: World, e: Event)
    requires Enabled(w, e) && !e.Outsider?
    ensures ToApply(NextApp(w, e)) <= if e.Begin? then Names(e.attempt.plan) else ToApply(w.apps[e.uid])
  {
    hide Proper, Stale, Merge, MergeFrom, Success, Failure, Suspended, IsNormalization;
    var app := w.apps[e.uid];
    match e
    case Begin(_, attempt) => assert attempt.plan[0..] == attempt.plan;
    case Patch(_, _) =>
      var k := app.phase.next;
      forall id | id in Names(app.attempt.plan[k + 1..])
        ensures id in Names(app.attempt.plan[k..])
      {
        var i :| 0 <= i < |app.attempt.plan[k + 1..]| && app.attempt.plan[k + 1..][i].ref.Id() == id;
        assert app.attempt.plan[k..][i + 1].ref.Id() == id;
      }
    case _ =>
  }

  lemma {:induction false} NoRivalNoApply(patch: PatchFn, w: World, es: seq<Event>, uid: string, id: Identity, may: Bounds)
    requires Admissible(patch, w, es) && Others(es, uid) && Within(es, may) && !Rival(w, uid, id, may)
    requires id in w.lastApplier && w.lastApplier[id] == uid
    ensures id in Run(patch, w, es).lastApplier && Run(patch, w, es).lastApplier[id] == uid
    decreases |es|
  {
    hide NextApp, NextCluster, Enabled, Rival;
    if es != [] {
      assert es[0] in es;
      StepAwayFrom(patch, w, es[0], uid, id, may);
      NoRivalNoApply(patch, Next(patch, w, es[0]), es[1..], uid, id, may);
    }
  }

  function Patches(uid: string, n: nat): seq<Event> {
    if n == 0 then [] else [Patch(uid, Done)] + Patches(uid, n - 1)
  }

  lemma {:induction false} PatchesAreOthers(b: string, n: nat, uid: string, may: Bounds)
    requires b != uid
    ensures Others(Patches(b, n), uid) && Within(Patches(b, n), may)
  {
    if n != 0 {
      PatchesAreOthers(b, n - 1, uid, may);
    }
  }

  lemma PatchOwns(patch: PatchFn, w: World, b: string)
    requires KeepsMetadata(patch) && OwnershipInv(w) && b in w.apps && w.apps[b].phase.Applying?
    requires w.apps[b].phase.next < |w.apps[b].attempt.plan|
    ensures Enabled(w, Patch(b, Done))
    ensures var w', app := Next(patch, w, Patch(b, Done)), w.apps[b];
            && OwnershipInv(w') && OwnedIn(w'.cluster, app.attempt.plan[app.phase.next].ref.Id(), b)
            && b in w'.apps && w'.apps[b].phase == Applying(app.phase.next + 1) && w'.apps[b].attempt == app.attempt
  {
    var app := w.apps[b];
    var p := app.attempt.plan[app.phase.next];
    assert RunProper(b, app) && p in app.attempt.plan;
    StampedIsOwned(patch, Get(w.cluster, p.ref.Id()), p.manifest, b, app.attempt.revision);
    StepKeepsNames(patch, w, Patch(b, Done));
    StepKeepsRunsProper(patch, w, Patch(b, Done));
    hide Named, RunsProper, RunProper, Owned, KeepsMetadata, Proper;
  }

  /** A run that is applying can go on until a given object is this application's. */
  lemma {:induction false} PatchesReach(patch: PatchFn, w: World, b: string, j: nat)
    requires KeepsMetadata(patch) && OwnershipInv(w) && b in w.apps && w.apps[b].phase.Applying?
    requires w.apps[b].phase.next <= j < |w.apps[b].attempt.plan|
    ensures var es := Patches(b, j + 1 - w.apps[b].phase.next);
            && Admissible(patch, w, es) && b in Run(patch, w, es).apps
            && OwnedIn(Run(patch, w, es).cluster, w.apps[b].attempt.plan[j].ref.Id(), b)
    decreases j - w.apps[b].phase.next
  {
    hide KeepsMetadata, OwnershipInv, OwnedIn, Next, Enabled;
    var app, e := w.apps[b], Patch(b, Done);
    PatchOwns(patch, w, b);
    var rest := Patches(b, j - app.phase.next);
    assert ([e] + rest)[1..] == rest && Patches(b, j + 1 - app.phase.next) == [e] + rest;
    if app.phase.next == j {
      assert Patches(b, 0) == [];
    } else {
      PatchesReach(patch, Next(patch, w, e), b, j);
    }
  }

  lemma PlaceToApply(app: App, id: Identity) returns (j: nat)
    requires id in ToApply(app)
    ensures app.phase.Applying? && app.phase.next <= j < |app.attempt.plan| && app.attempt.plan[j].ref.Id() == id
  {
    var rest := app.attempt.plan[app.phase.next..];
    var i :| 0 <= i < |rest| && rest[i].ref.Id() == id;
    j := app.phase.next + i;
    assert rest[i] == app.attempt.plan[j];
  }

  /** One application has this identity still to apply: its own steps make the pending delete hit its object. */
  lemma RunningRivalIsHit(patch: PatchFn, w: World, uid: string, id: Identity, b: string, may: Bounds)
    returns (window: seq<Event>)
    requires KeepsMetadata(patch) && OwnershipInv(w) && uid in w.apps && w.apps[uid].phase.Deleting? && id == Target(w.apps[uid])
    requires b in w.apps && b != uid && id in ToApply(w.apps[b])
    ensures Admissible(patch, w, window) && Others(window, uid) && Within(window, may)
    ensures HitsForeign(patch, Run(patch, w, window), uid, id)
  {
    assert RunProper(uid, w.apps[uid]);
    hide Run, Admissible, OwnershipInv, Owned, Others, Within, Patches, HitsForeign, ToApply, Names, KeepsMetadata;
    var j := PlaceToApply(w.apps[b], id);
    var n := j + 1 - w.apps[b].phase.next;
    window := Patches(b, n);
    PatchesReach(patch, w, b, j);
    PatchesAreOthers(b, n, uid, may);
    OthersKeepApp(patch, w, window, uid);
    ForeignIsHit(patch, Run(patch, w, window), uid, id, b);
  }

  lemma ForeignIsHit(patch: PatchFn, v: World, uid: string, id: Identity, b: string)
    requires uid in v.apps && v.apps[uid].phase.Deleting? && v.apps[uid].phase.next < |v.apps[uid].stale|
    requires id == Target(v.apps[uid]) && b in v.apps && b != uid && OwnedIn(v.cluster, id, b)
    ensures HitsForeign(patch, v, uid, id)
  {
    hide Owned, NextApp;
  }

  /** One application may begin a run for this identity: it drops what it is doing, begins, and applies up to there. */
  lemma WantingRivalIsHit(patch: PatchFn, w: World, uid: string, id: Identity, b: string, a: Attempt, may: Bounds)
    returns (window: seq<Event>)
    requires KeepsMetadata(patch) && OwnershipInv(w) && uid in w.apps && w.apps[uid].phase.Deleting? && id == Target(w.apps[uid])
    requires b in w.apps && b != uid && may.desire(b, a) && Proper(b, a) && id in Names(a.plan)
    ensures Admissible(patch, w, window) && Others(window, uid) && Within(window, may)
    ensures HitsForeign(patch, Run(patch, w, window), uid, id)
  {
    var start := [Crash(b), Begin(b, a)];
    DropsAndBegins(patch, w, b, a, id);
    StartsWithin(b, a, uid, may);
    AnnotationNamesLastApplier(patch, w, start);
    hide Run, Admissible, OwnershipInv, Next, ToApply, Names, Proper, HitsForeign, KeepsMetadata, Others, Within, Rival;
    OthersKeepApp(patch, w, start, uid);
    var more := RunningRivalIsHit(patch, Run(patch, w, start), uid, id, b, may);
    RunSplits(patch, w, start, more);
    window := start + more;
    WindowsJoin(start, more, uid, may);
  }

  lemma StartsWithin(b: string, a: Attempt, uid: string, may: Bounds)
    requires b != uid && may.desire(b, a)
    ensures Others([Crash(b), Begin(b, a)], uid) && Within([Crash(b), Begin(b, a)], may)
  {
  }

  lemma WindowsJoin(a: seq<Event>, b: seq<Event>, uid: string, may: Bounds)
    requires Others(a, uid) && Others(b, uid) && Within(a, may) && Within(b, may)
    ensures Others(a + b, uid) && Within(a + b, may)
  {
  }

  lemma DropsAndBegins(patch: PatchFn, w: World, b: string, a: Attempt, id: Identity)
    requires b in w.apps && Proper(b, a) && id in Names(a.plan)
    ensures var es := [Crash(b), Begin(b, a)];
            Admissible(patch, w, es) && b in Run(patch, w, es).apps && id in ToApply(Run(patch, w, es).apps[b])
  {
    hide Proper;
    RunOne(patch, w, [], Crash(b));
    RunOne(patch, w, [] + [Crash(b)], Begin(b, a));
    assert [] + [Crash(b)] + [Begin(b, a)] == [Crash(b), Begin(b, a)] && a.plan[0..] == a.plan;
  }

  /** What holds right after a fetch that leads to a delete. */
  lemma Fetched(patch: PatchFn, w: World, fetch: Event)
    requires KeepsMetadata(patch) && OwnershipInv(w) && fetch.Fetch? && Enabled(w, fetch)
    requires Next(patch, w, fetch).apps[fetch.uid].phase.Deleting?
    ensures var v, uid := Next(patch, w, fetch), fetch.uid;
            var id := Target(v.apps[uid]);
            && OwnershipInv(v) && uid in v.apps && OwnedIn(v.cluster, id, uid)
            && id in v.lastApplier && v.lastApplier[id] == uid
  {
    StepKeepsNames(patch, w, fetch);
    StepKeepsRunsProper(patch, w, fetch);
  }

  /** Between fetch and delete others may act. Some window makes the delete take another application's live object exactly
      if, at the fetch, another application has the identity still to apply or may begin a run for it. */
  lemma DeleteHitsForeignExactly(patch: PatchFn, w: World, fetch: Event, may: Bounds)
    requires KeepsMetadata(patch) && OwnershipInv(w) && fetch.Fetch? && Enabled(w, fetch)
    requires Next(patch, w, fetch).apps[fetch.uid].phase.Deleting?
    ensures var v, uid := Next(patch, w, fetch), fetch.uid;
            var id := Target(v.apps[uid]);
            (exists es :: Window(patch, v, es, uid, may) && HitsForeign(patch, Run(patch, v, es), uid, id))
            <==> Rival(v, uid, id, may)
  {
    var v, uid := Next(patch, w, fetch), fetch.uid;
    var id := Target(v.apps[uid]);
    Fetched(patch, w, fetch);
    hide Next, Enabled;
    if Rival(v, uid, id, may) {
      var es := RivalIsHit(patch, v, uid, id, may);
    } else {
      forall es | Window(patch, v, es, uid, may)
        ensures !HitsForeign(patch, Run(patch, v, es), uid, id)
      {
        NoRivalNoApply(patch, v, es, uid, id, may);
        AnnotationNamesLastApplier(patch, v, es);
        OwnedByLastApplierOnly(Run(patch, v, es), uid, id);
      }
    }
  }

  /** The guarantee the documentation gives for every pruned object, at the moment it is deleted. Some window makes the delete
      take a live object that does not carry this application's metadata exactly if there is such a rival, or an outsider
      may act on the identity. */
  lemma DeleteTakesUnownedExactly(patch: PatchFn, w: World, fetch: Event, may: Bounds)
    requires KeepsMetadata(patch) && OwnershipInv(w) && fetch.Fetch? && Enabled(w, fetch)
    requires Next(patch, w, fetch).apps[fetch.uid].phase.Deleting?
    ensures var v, uid := Next(patch, w, fetch), fetch.uid;
            var id := Target(v.apps[uid]);
            (exists es :: Window(patch, v, es, uid, may) && TakesUnowned(patch, Run(patch, v, es), uid, id))
            <==> Rival(v, uid, id, may) || may.meddle(id)
  {
    var v, uid := Next(patch, w, fetch), fetch.uid;
    var id := Target(v.apps[uid]);
    Fetched(patch, w, fetch);
    hide Next, Enabled, Rival, Window, OwnershipInv, KeepsMetadata, TakesUnowned, TakesUnmanaged;
    if may.meddle(id) {
      var es := MeddlerIsHit(patch, v, uid, id, may);
      UnmanagedIsUnowned(patch, Run(patch, v, es), uid, id);
    } else if Rival(v, uid, id, may) {
      var es := RivalIsHit(patch, v, uid, id, may);
      ForeignIsUnowned(patch, Run(patch, v, es), uid, id);
    } else {
      forall es | Window(patch, v, es, uid, may)
        ensures !TakesUnowned(patch, Run(patch, v, es), uid, id)
      {
        UntouchedStays(patch, v, es, uid, id, may, v.cluster[id]);
        SameIsOwned(patch, Run(patch, v, es), uid, id, v.cluster[id]);
      }
    }
  }

  /** And one that no application has ever marked exactly if an outsider may act on the identity. */
  lemma DeleteTakesUnmanagedExactly(patch: PatchFn, w: World, fetch: Event, may: Bounds)
    requires KeepsMetadata(patch) && OwnershipInv(w) && fetch.Fetch? && Enabled(w, fetch)
    requires Next(patch, w, fetch).apps[fetch.uid].phase.Deleting?
    ensures var v, uid := Next(patch, w, fetch), fetch.uid;
            var id := Target(v.apps[uid]);
            (exists es :: Window(patch, v, es, uid, may) && TakesUnmanaged(patch, Run(patch, v, es), uid, id))
            <==> may.meddle(id)
  {
    var v, uid := Next(patch, w, fetch), fetch.uid;
    var id := Target(v.apps[uid]);
    Fetched(patch, w, fetch);
    hide Next, Enabled, Window, OwnershipInv, KeepsMetadata, TakesUnmanaged;
    if may.meddle(id) {
      var es := MeddlerIsHit(patch, v, uid, id, may);
    } else {
      forall es | Window(patch, v, es, uid, may)
        ensures !TakesUnmanaged(patch, Run(patch, v, es), uid, id)
      {
        StaysManaged(patch, v, es, uid, id, may);
        ManagedIsNotTaken(patch, Run(patch, v, es), uid, id);
      }
    }
  }

  /** An outsider who replaces the object is enough. */
  lemma MeddlerIsHit(patch: PatchFn, v: World, uid: string, id: Identity, may: Bounds) returns (es: seq<Event>)
    requires OwnershipInv(v) && uid in v.apps && v.apps[uid].phase.Deleting? && id == Target(v.apps[uid]) && may.meddle(id)
    ensures Window(patch, v, es, uid, may) && TakesUnmanaged(patch, Run(patch, v, es), uid, id)
  {
    assert RunProper(uid, v.apps[uid]);
    var e := Outsider(id, Some(Live(map[], map[], "")));
    RunOne(patch, v, [], e);
    es := [] + [e];
  }

  lemma UnmanagedIsUnowned(patch: PatchFn, v: World, uid: string, id: Identity)
    requires TakesUnmanaged(patch, v, uid, id)
    ensures TakesUnowned(patch, v, uid, id)
  {
    hide Enabled, Next;
  }

  lemma ForeignIsUnowned(patch: PatchFn, v: World, uid: string, id: Identity)
    requires HitsForeign(patch, v, uid, id)
    ensures TakesUnowned(patch, v, uid, id)
  {
    hide Enabled, Next;
  }

  lemma SameIsOwned(patch: PatchFn, v: World, uid: string, id: Identity, live: Live)
    requires Owned(live, uid) && (id in v.cluster ==> v.cluster[id] == live)
    ensures !TakesUnowned(patch, v, uid, id)
  {
    hide Enabled, Next;
  }

  lemma ManagedIsNotTaken(patch: PatchFn, v: World, uid: string, id: Identity)
    requires id in v.cluster ==> Managed(v.cluster[id])
    ensures !TakesUnmanaged(patch, v, uid, id)
  {
    hide Enabled, Next;
  }

  /** Where no step of others applies or meddles, an object is as it was or gone. */
  lemma {:induction false} UntouchedStays(patch: PatchFn, w: World, es: seq<Event>, uid: string, id: Identity, may: Bounds, live: Live)
    requires Window(patch, w, es, uid, may) && !Rival(w, uid, id, may) && !may.meddle(id)
    requires id in w.cluster ==> w.cluster[id] == live
    ensures id in Run(patch, w, es).cluster ==> Run(patch, w, es).cluster[id] == live
    decreases |es|
  {
    hide NextApp, Rival;
    if es != [] {
      assert es[0] in es;
      StepAwayFrom(patch, w, es[0], uid, id, may);
      assert id in Next(patch, w, es[0]).cluster ==> Next(patch, w, es[0]).cluster[id] == live;
      hide Enabled, NextCluster;
      UntouchedStays(patch, Next(patch, w, es[0]), es[1..], uid, id, may, live);
    }
  }

  /** Where no outsider meddles, an object that is managed stays so or goes. */
  lemma {:induction false} StaysManaged(patch: PatchFn, w: World, es: seq<Event>, uid: string, id: Identity, may: Bounds)
    requires KeepsMetadata(patch) && OwnershipInv(w) && Window(patch, w, es, uid, may) && !may.meddle(id)
    requires id in w.cluster ==> Managed(w.cluster[id])
    ensures id in Run(patch, w, es).cluster ==> Managed(Run(patch, w, es).cluster[id])
    decreases |es|
  {
    if es != [] {
      assert es[0] in es;
      StepStaysManaged(patch, w, es[0], id);
      StepKeepsNames(patch, w, es[0]);
      StepKeepsRunsProper(patch, w, es[0]);
      hide Enabled, Next, OwnershipInv, KeepsMetadata, Managed;
      StaysManaged(patch, Next(patch, w, es[0]), es[1..], uid, id, may);
    }
  }

  lemma StepStaysManaged(patch: PatchFn, w: World, e: Event, id: Identity)
    requires KeepsMetadata(patch) && OwnershipInv(w) && Enabled(w, e) && (e.Outsider? ==> e.id != id)
    requires id in w.cluster ==> Managed(w.cluster[id])
    ensures id in Next(patch, w, e).cluster ==> Managed(Next(patch, w, e).cluster[id])
  {
    if Lands(w, e) == Some(id) {
      var app := w.apps[e.uid];
      var p := app.attempt.plan[app.phase.next];
      assert RunProper(e.uid, app) && p in app.attempt.plan;
      StampedIsOwned(patch, Get(w.cluster, p.ref.Id()), p.manifest, e.uid, app.attempt.revision);
    }
    hide KeepsMetadata, Proper, NextApp;
  }

  lemma OwnedByLastApplierOnly(v: World, uid: string, id: Identity)
    requires Named(v) && id in v.lastApplier && v.lastApplier[id] == uid
    ensures forall b :: b in v.apps && OwnedIn(v.cluster, id, b) ==> b == uid
  {
  }

  lemma RivalIsHit(patch: PatchFn, v: World, uid: string, id: Identity, may: Bounds) returns (es: seq<Event>)
    requires KeepsMetadata(patch) && OwnershipInv(v) && uid in v.apps && v.apps[uid].phase.Deleting? && id == Target(v.apps[uid])
    requires Rival(v, uid, id, may)
    ensures Window(patch, v, es, uid, may) && HitsForeign(patch, Run(patch, v, es), uid, id)
  {
    hide HitsForeign, ToApply, Proper, Admissible, Run, Names, Within, Others, OwnershipInv, KeepsMetadata;
    var b :| b in v.apps && b != uid &&
      (id in ToApply(v.apps[b]) || exists a :: may.desire(b, a) && Proper(b, a) && id in Names(a.plan));
    if id in ToApply(v.apps[b]) {
      es := RunningRivalIsHit(patch, v, uid, id, b, may);
    } else {
      var a :| may.desire(b, a) && Proper(b, a) && id in Names(a.plan);
      es := WantingRivalIsHit(patch, v, uid, id, b, a, may);
    }
  }

  /** Application a owns an object it no longer wants; application b is about to want it. */
  function RaceStart(): World {
    var ours := ConfigMap("a", "v1", "x");
    World(map[ours.ref.Id() := Replace(None, ours.manifest)], map["a" := Fresh([ours.ref]), "b" := Fresh([])], map[ours.ref.Id() := "a"])
  }

  /** a fetches the object, then b applies it. */
  function Race(): seq<Event> {
    PruningEvents("a") + [Begin("b", Wanting(ConfigMap("b", "v1", "x"))), Patch("b", Done)]
  }

  lemma RaceRuns()
    ensures OwnershipInv(RaceStart()) && Admissible(Replace, RaceStart(), Race())
    ensures var ours, theirs := ConfigMap("a", "v1", "x"), ConfigMap("b", "v1", "x");
            Run(Replace, RaceStart(), Race()) == Applied(PruningWorld(RaceStart(), "a", ours.ref), "b", theirs)
  {
    hide Stamp, Stamped, Owned, Proper;
    var ours, theirs := ConfigMap("a", "v1", "x"), ConfigMap("b", "v1", "x");
    var w := RaceStart();
    ConfigMapIsStamped("a", "v1", "x");
    WantingIsProper("b", "v1", "x");
    NamedOnce(w, ours.ref.Id(), "a");
    PruningRuns(w, "a", ours.ref);
    var v := PruningWorld(w, "a", ours.ref);
    StartedRuns(v, "b", theirs);
    RunSplits(Replace, w, PruningEvents("a"), Started(v, "b", theirs));
  }

  /** The window is real: one application's prune can delete what another has just applied. */
  lemma RaceDeletesForeignObject()
    ensures OwnershipInv(RaceStart()) && Admissible(Replace, RaceStart(), Race())
    ensures var v, id := Run(Replace, RaceStart(), Race()), ConfigMap("b", "v1", "x").ref.Id();
            && OwnedIn(v.cluster, id, "b") && Enabled(v, Delete("a", Done))
            && id !in Next(Replace, v, Delete("a", Done)).cluster
  {
    ConfigMapIsStamped("b", "v1", "x");
    RaceRuns();
    hide Stamp, Stamped, Owned, Proper, OwnershipInv, Run, Admissible, Race, NextApp, Replace;
  }

  lemma NamedOnce(w: World, id: Identity, uid: string)
    requires w.cluster.Keys == {id} && Owned(w.cluster[id], uid) && id in w.lastApplier && w.lastApplier[id] == uid
    ensures Named(w)
  {
  }
}
