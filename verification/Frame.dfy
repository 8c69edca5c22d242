/** Applications that share no object do not notice each other: what a run alone does, it does among others. */
module Frames {
  import opened ResourceReferences
  import opened Inventory
  import opened Clusters
  import opened AppStatus
  import opened Protocol
  import opened Ledger
  import opened Ownership
  import opened StatusHistory
  import opened PruneOutcome
  import opened Convergence

  /** The identities an application can touch before it begins another run. */
  function Reach(app: App): set<Identity> {
    Identities(app.stored.inventory) +
    if Active(app) then
      Identities(app.memory.inventory) + Identities(app.stale) + Names(app.attempt.plan) + Identities(app.attempt.refs)
    else {}
  }

  function Aims(a: Attempt): set<Identity> {
    Names(a.plan) + Identities(a.refs)
  }

  predicate By(e: Event, uid: string) {
    !e.Outsider? && e.uid == uid
  }

  /** A step of someone else that neither touches these identities nor begins a run for them. */
  predicate Elsewhere(e: Event, uid: string, ids: set<Identity>) {
    && !By(e, uid) && (e.Outsider? ==> e.id !in ids) && (e.Begin? ==> Aims(e.attempt) !! ids)
  }

  function Own(es: seq<Event>, uid: string): seq<Event> {
    if es == [] then [] else (if By(es[0], uid) then [es[0]] else []) + Own(es[1..], uid)
  }

  /** No step but a begin widens what an application can touch. */
  lemma StepReach(w: World, e: Event)
    requires Enabled(w, e) && !e.Outsider?
    ensures Reach(NextApp(w, e)) <= Reach(w.apps[e.uid]) + if e.Begin? then Aims(e.attempt) else {}
  {
    hide Stale, Proper, Merge, MergeFrom, Success, Failure, Suspended, IsNormalization, AfterRecordFailure, AfterSuspend;
    var app := w.apps[e.uid];
    match e
    case RecordFailure(_, reply, reason, message, generation, now) =>
      FailureKeepsInventory(app, reply, reason, message, generation, now);
      FailureEndsRun(app, reply, reason, message, generation, now);
    case Suspend(_, reply, generation, now) =>
      SuspendKeepsInventory(app, reply, generation, now);
      SuspendEndsIdle(app, reply, generation, now);
    case RecordSuccess(_, reply, inventory, generation, now) =>
      RecordedReach(app, reply, inventory, generation, now);
    case ApplyEnds(_) => StaleIdentities(app.memory.inventory, app.attempt.refs);
    case Begin(_, _) => assert Identities([]) == {};
    case _ =>
  }

  lemma StaleIdentities(previous: seq<ResourceReference>, desired: seq<ResourceReference>)
    ensures Identities(Stale(previous, desired)) <= Identities(previous)
  {
    hide Stale;
    StaleComesFromPrevious(previous, desired);
  }

  lemma RecordedReach(app: App, reply: Reply, inventory: seq<ResourceReference>, generation: int, now: nat)
    requires app.phase.Finishing? && IsNormalization(inventory, app.attempt.refs)
    ensures Reach(AfterRecordSuccess(app, reply, inventory, generation, now)) <= Reach(app)
  {
    NormalizationSameIdentities(inventory, app.attempt.refs);
    hide IsNormalization;
  }

  /** The world among others and the world alone look the same to this application. */
  ghost predicate Alike(w: World, v: World, uid: string, ids: set<Identity>) {
    && uid in w.apps && uid in v.apps && w.apps[uid] == v.apps[uid] && Reach(w.apps[uid]) <= ids
    && (forall id :: id in ids ==> Get(w.cluster, id) == Get(v.cluster, id))
    && (forall b :: b in w.apps && b != uid ==> Reach(w.apps[b]) !! ids)
  }

  /** Where a step can change the cluster. */
  function Writes(w: World, e: Event): set<Identity>
    requires Enabled(w, e)
  {
    match e
    case Patch(uid, _) => {w.apps[uid].attempt.plan[w.apps[uid].phase.next].ref.Id()}
    case Delete(uid, _) => {w.apps[uid].stale[w.apps[uid].phase.next].Id()}
    case Outsider(id, _) => {id}
    case _ => {}
  }

  lemma WritesWithinReach(patch: PatchFn, w: World, e: Event)
    requires Enabled(w, e)
    ensures !e.Outsider? ==> Writes(w, e) <= Reach(w.apps[e.uid])
    ensures forall id :: id !in Writes(w, e) ==> Get(Next(patch, w, e).cluster, id) == Get(w.cluster, id)
  {
    hide NextApp, Proper;
  }

  lemma ElsewhereWrites(patch: PatchFn, w: World, v: World, e: Event, uid: string, ids: set<Identity>)
    requires Alike(w, v, uid, ids) && Enabled(w, e) && Elsewhere(e, uid, ids)
    ensures forall id :: id in ids ==> Get(Next(patch, w, e).cluster, id) == Get(w.cluster, id)
  {
    WritesWithinReach(patch, w, e);
    if e.Outsider? {
      assert Writes(w, e) == {e.id};
    } else {
      assert Reach(w.apps[e.uid]) !! ids;
    }
    hide Reach, Aims, Writes, Get, Enabled, Next;
  }

  lemma ElsewhereReaches(w: World, v: World, e: Event, uid: string, ids: set<Identity>)
    requires Alike(w, v, uid, ids) && Enabled(w, e) && Elsewhere(e, uid, ids) && !e.Outsider?
    ensures Reach(NextApp(w, e)) !! ids
  {
    StepReach(w, e);
    assert e.uid in w.apps && Reach(w.apps[e.uid]) !! ids;
    hide Reach, Aims, NextApp, Enabled, Get;
  }

  lemma StepElsewhere(patch: PatchFn, w: World, v: World, e: Event, uid: string, ids: set<Identity>)
    requires Alike(w, v, uid, ids) && Enabled(w, e) && Elsewhere(e, uid, ids)
    ensures Alike(Next(patch, w, e), v, uid, ids)
  {
    ElsewhereWrites(patch, w, v, e, uid, ids);
    hide Reach, Aims, NextApp, NextCluster, Enabled, Get;
    if e.Outsider? {
      assert Next(patch, w, e).apps == w.apps;
    } else {
      ElsewhereReaches(w, v, e, uid, ids);
      assert Next(patch, w, e).apps == w.apps[e.uid := NextApp(w, e)];
    }
  }

  lemma StepAlike(patch: PatchFn, w: World, v: World, e: Event, uid: string, ids: set<Identity>)
    requires Alike(w, v, uid, ids) && Enabled(w, e) && By(e, uid) && (e.Begin? ==> Aims(e.attempt) <= ids)
    ensures Enabled(v, e) && Alike(Next(patch, w, e), Next(patch, v, e), uid, ids)
  {
    hide Reach, Aims, NextApp, NextCluster, Writes, Enabled;
    StepReach(w, e);
    WritesWithinReach(patch, w, e);
    SameEnabled(w, v, e, ids);
    WritesWithinReach(patch, v, e);
    SameWritten(patch, w, v, e, ids);
    AlikeOn(w.cluster, v.cluster, Next(patch, w, e).cluster, Next(patch, v, e).cluster, Writes(w, e), ids);
    hide Get;
  }

  lemma AlikeOn(c: Cluster, d: Cluster, c': Cluster, d': Cluster, written: set<Identity>, ids: set<Identity>)
    requires forall id :: id in ids ==> Get(c, id) == Get(d, id)
    requires forall id :: id !in written ==> Get(c', id) == Get(c, id)
    requires forall id :: id !in written ==> Get(d', id) == Get(d, id)
    requires forall id :: id in written ==> Get(c', id) == Get(d', id)
    ensures forall id :: id in ids ==> Get(c', id) == Get(d', id)
  {
    hide Get;
  }

  lemma SameEnabled(w: World, v: World, e: Event, ids: set<Identity>)
    requires !e.Outsider? && Alike(w, v, e.uid, ids) && Enabled(w, e)
    ensures Enabled(v, e) && NextApp(w, e) == NextApp(v, e) && Writes(w, e) == Writes(v, e)
  {
    hide Proper, IsNormalization, Stale, Owned, AfterRecordSuccess, AfterRecordFailure, AfterSuspend;
    var app := w.apps[e.uid];
    if e.Fetch? || e.Delete? {
      var id := app.stale[app.phase.next].Id();
      assert id in Reach(app);
      assert Get(w.cluster, id) == Get(v.cluster, id);
    }
  }

  lemma SameWritten(patch: PatchFn, w: World, v: World, e: Event, ids: set<Identity>)
    requires !e.Outsider? && Alike(w, v, e.uid, ids) && Enabled(w, e) && Enabled(v, e)
    ensures forall id :: id in Writes(w, e) ==> Get(Next(patch, w, e).cluster, id) == Get(Next(patch, v, e).cluster, id)
  {
    WritesWithinReach(patch, w, e);
    hide Proper, IsNormalization, Reach, NextApp;
    var app := w.apps[e.uid];
    if e.Patch? {
      var id := app.attempt.plan[app.phase.next].ref.Id();
      assert id in Writes(w, e) && Get(w.cluster, id) == Get(v.cluster, id);
    }
    if e.Delete? {
      var id := app.stale[app.phase.next].Id();
      assert id in Writes(w, e) && Get(w.cluster, id) == Get(v.cluster, id);
    }
  }

  /** Every step is one of this application's runs for this attempt, or a step elsewhere. */
  ghost predicate Among(es: seq<Event>, uid: string, a: Attempt, ids: set<Identity>) {
    forall e :: e in es ==> SoloEvent(e, uid, a) || Elsewhere(e, uid, ids)
  }

  lemma {:induction false} RunsAlike(patch: PatchFn, w: World, v: World, es: seq<Event>, uid: string, a: Attempt, ids: set<Identity>)
    requires Alike(w, v, uid, ids) && Admissible(patch, w, es) && Among(es, uid, a, ids) && Aims(a) <= ids
    ensures Admissible(patch, v, Own(es, uid)) && Solo(Own(es, uid), uid, a)
    ensures Alike(Run(patch, w, es), Run(patch, v, Own(es, uid)), uid, ids)
    decreases |es|
  {
    if es != [] {
      assert es[0] in es;
      hide Alike, Next, Enabled, Aims, Elsewhere;
      var rest := Own(es[1..], uid);
      if By(es[0], uid) {
        assert SoloEvent(es[0], uid, a) by {
          OwnIsSolo(es[0], uid, a, ids);
        }
        StepAlike(patch, w, v, es[0], uid, ids);
        RunsAlike(patch, Next(patch, w, es[0]), Next(patch, v, es[0]), es[1..], uid, a, ids);
        assert ([es[0]] + rest)[1..] == rest && Own(es, uid) == [es[0]] + rest;
      } else {
        StepElsewhere(patch, w, v, es[0], uid, ids);
        RunsAlike(patch, Next(patch, w, es[0]), v, es[1..], uid, a, ids);
        assert Own(es, uid) == [] + rest == rest;
      }
    }
  }

  lemma OwnIsSolo(e: Event, uid: string, a: Attempt, ids: set<Identity>)
    requires By(e, uid) && (SoloEvent(e, uid, a) || Elsewhere(e, uid, ids))
    ensures SoloEvent(e, uid, a)
  {
  }

  /** An application and the others share nothing when a run of it begins. */
  ghost predicate Apart(w: World, uid: string, a: Attempt, ids: set<Identity>) {
    && uid in w.apps && Reach(w.apps[uid]) + Aims(a) <= ids
    && forall b :: b in w.apps && b != uid ==> Reach(w.apps[b]) !! ids
  }

  /** In any interleaving, an application whose plan and inventory share no identity with those of the others goes exactly
      through what its own steps alone would take it through: same record, same objects. */
  lemma OthersDoNotShow(patch: PatchFn, w: World, es: seq<Event>, uid: string, a: Attempt, ids: set<Identity>)
    requires Apart(w, uid, a, ids) && Admissible(patch, w, es) && Among(es, uid, a, ids)
    ensures Admissible(patch, w, Own(es, uid)) && Solo(Own(es, uid), uid, a)
    ensures var x, y := Run(patch, w, es), Run(patch, w, Own(es, uid));
            && uid in x.apps && uid in y.apps && x.apps[uid] == y.apps[uid]
            && (forall id :: id in ids ==> Get(x.cluster, id) == Get(y.cluster, id))
  {
    RunsAlike(patch, w, w, es, uid, a, ids);
  }

  /** A success among others that share nothing: enabled alone as well, and with the same effect on this application. */
  lemma SuccessAlike(patch: PatchFn, w: World, es: seq<Event>, uid: string, a: Attempt, ids: set<Identity>, success: Event)
    requires Apart(w, uid, a, ids) && Admissible(patch, w, es) && Among(es, uid, a, ids)
    requires LedgerInv(w) && w.apps[uid].phase.Idle?
    requires Enabled(Run(patch, w, es), success) && success.RecordSuccess? && success.uid == uid && !success.reply.Refused?
    ensures Succeeds(patch, w, Own(es, uid), uid, a, success)
    ensures Alike(Next(patch, Run(patch, w, es), success), Next(patch, Run(patch, w, Own(es, uid)), success), uid, ids)
  {
    RunsAlike(patch, w, w, es, uid, a, ids);
    hide Alike, Run, Admissible, Enabled, Next, LedgerInv;
    StepAlike(patch, Run(patch, w, es), Run(patch, w, Own(es, uid)), success, uid, ids);
  }

  /** Retries converge among others as they do alone. */
  lemma RetriesConvergeAmongOthers(patch: PatchFn, w: World, es: seq<Event>, uid: string, a: Attempt, ids: set<Identity>, success: Event)
    requires Apart(w, uid, a, ids) && Admissible(patch, w, es) && Among(es, uid, a, ids)
    requires LedgerInv(w) && w.apps[uid].phase.Idle? && Repeatable(patch, uid, a) && NoVersionAlias(w.apps[uid].stored.inventory, a.refs)
    requires Enabled(Run(patch, w, es), success) && success.RecordSuccess? && success.uid == uid && !success.reply.Refused?
    ensures var end := Next(patch, Run(patch, w, es), success);
            && uid in end.apps && IsNormalization(end.apps[uid].stored.inventory, a.refs)
            && (forall id :: id in ids ==>
                  Get(end.cluster, id) == Get(Settled(patch, w.cluster, w.apps[uid].stored.inventory, uid, a), id))
  {
    SuccessAlike(patch, w, es, uid, a, ids, success);
    hide Succeeds, Repeatable, NoVersionAlias, LedgerInv, Next, Enabled, Run, Admissible, Settled, Reach, Aims;
    RetriesConverge(patch, w, Own(es, uid), uid, a, success);
  }

  ghost predicate AllOwned(c: Cluster, plan: seq<Planned>, uid: string) {
    forall p :: p in plan ==> OwnedIn(c, p.ref.Id(), uid)
  }

  lemma OwnedAlike(x: Cluster, y: Cluster, plan: seq<Planned>, uid: string, ids: set<Identity>)
    requires Names(plan) <= ids && forall id :: id in ids ==> Get(x, id) == Get(y, id)
    ensures AllOwned(x, plan, uid) <==> AllOwned(y, plan, uid)
  {
    hide Owned;
    forall p | p in plan
      ensures OwnedIn(x, p.ref.Id(), uid) <==> OwnedIn(y, p.ref.Id(), uid)
    {
      var i :| 0 <= i < |plan| && plan[i] == p;
      assert p.ref.Id() in Names(plan);
      assert Get(x, p.ref.Id()) == Get(y, p.ref.Id());
    }
  }

  lemma SuccessAloneIffNoAlias(patch: PatchFn, w: World, es: seq<Event>, uid: string, a: Attempt, success: Event)
    requires KeepsMetadata(patch) && a.prune && Succeeds(patch, w, es, uid, a, success)
    ensures uid in Run(patch, w, es).apps
    ensures AllOwned(Next(patch, Run(patch, w, es), success).cluster, a.plan, uid)
            <==> NoVersionAlias(Run(patch, w, es).apps[uid].stored.inventory, a.refs)
  {
    SuccessKeepsDesiredIffNoAlias(patch, w, es, uid, a, success);
    hide LedgerInv, Run, Admissible, NoVersionAlias, OwnedIn, KeepsMetadata, Next;
  }

  /** So does the exact outcome of prune. */
  lemma SuccessAmongOthersIffNoAlias(patch: PatchFn, w: World, es: seq<Event>, uid: string, a: Attempt, ids: set<Identity>, success: Event)
    requires Apart(w, uid, a, ids) && Admissible(patch, w, es) && Among(es, uid, a, ids)
    requires LedgerInv(w) && w.apps[uid].phase.Idle? && KeepsMetadata(patch) && a.prune
    requires Enabled(Run(patch, w, es), success) && success.RecordSuccess? && success.uid == uid && !success.reply.Refused?
    ensures uid in Run(patch, w, es).apps
    ensures AllOwned(Next(patch, Run(patch, w, es), success).cluster, a.plan, uid)
            <==> NoVersionAlias(Run(patch, w, es).apps[uid].stored.inventory, a.refs)
  {
    hide NoVersionAlias, LedgerInv, Next, Enabled, Run, Admissible, Reach, KeepsMetadata, AllOwned, Among, Names;
    SuccessAlike(patch, w, es, uid, a, ids, success);
    OthersDoNotShow(patch, w, es, uid, a, ids);
    SuccessAloneIffNoAlias(patch, w, Own(es, uid), uid, a, success);
    OwnedAlike(Next(patch, Run(patch, w, es), success).cluster, Next(patch, Run(patch, w, Own(es, uid)), success).cluster,
               a.plan, uid, ids);
  }
}
