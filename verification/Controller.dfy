/** internal/controller: one reconcile, written against an API server whose every call may fail,
    and proved to be a run of the step machine. */
module Controller {
  import opened Outcomes
  import opened StableSort
  import opened ResourceReferences
  import opened Inventory
  import opened Manifests
  import opened Admission
  import opened Clusters
  import opened AppStatus
  import opened Protocol
  import opened Ledger
  import opened Ownership
  import opened PruneOutcome
  import opened Convergence
  import opened Frames

  datatype Fetched = Found(live: Live) | NotFound | Unanswered

  /** The API server, as one application's reconcile sees it. Other applications and outsiders use it too: Interfere is
      any number of their steps, or none where the caller says that this application is alone. trouble counts the calls of
      this application that the server refused or that went unanswered; a NotFound is an answer. */
  class Server {
    var objects: Cluster
    var status: Status
    ghost var trouble: nat

    constructor (objects: Cluster, status: Status)
      ensures this.objects == objects && this.status == status && trouble == 0
    {
      this.objects, this.status, trouble := objects, status, 0;
    }

    method Interfere(patch: PatchFn, uid: string, ghost alone: bool, ghost w: World) returns (ghost es: seq<Event>)
      requires uid in w.apps && objects == w.cluster
      modifies this`objects
      ensures Admissible(patch, w, es) && Others(es, uid) && (alone ==> es == [])
      ensures objects == Run(patch, w, es).cluster
      ensures uid in Run(patch, w, es).apps && Run(patch, w, es).apps[uid] == w.apps[uid]
    {
      es := [];
    }

    /** A server-side apply patch. The caller learns only whether it failed. */
    method Patch(patch: PatchFn, p: Planned) returns (failed: bool, ghost reply: Reply)
      modifies this`objects, this`trouble
      ensures failed == !reply.Done? && trouble == old(trouble) + if failed then 1 else 0
      ensures objects == if reply.Refused? then old(objects) else ApplyOne(patch, old(objects), p)
    {
      var lands: bool, answered: bool := *, *;
      if lands {
        objects := ApplyOne(patch, objects, p);
      }
      failed := !lands || !answered;
      trouble := trouble + if failed then 1 else 0;
      reply := if !lands then Refused else if answered then Done else DoneUnacknowledged;
    }

    method Get(id: Identity) returns (r: Fetched)
      modifies this`trouble
      ensures trouble == old(trouble) + if r.Unanswered? then 1 else 0
      ensures r.Found? ==> id in objects && r.live == objects[id]
      ensures r.NotFound? ==> id !in objects
    {
      var answered: bool := *;
      trouble := trouble + if answered then 0 else 1;
      r := if !answered then Unanswered else if id in objects then Found(objects[id]) else NotFound;
    }

    /** Deleting what is gone is an error as well. */
    method Delete(id: Identity) returns (failed: bool, ghost reply: Reply)
      modifies this`objects, this`trouble
      ensures failed == !reply.Done? && trouble == old(trouble) + if failed then 1 else 0
      ensures !reply.Refused? ==> id in old(objects)
      ensures objects == if reply.Refused? then old(objects) else old(objects) - {id}
    {
      var lands: bool, answered: bool := *, *;
      lands := lands && id in objects;
      if lands {
        objects := objects - {id};
      }
      failed := !lands || !answered;
      trouble := trouble + if failed then 1 else 0;
      reply := if !lands then Refused else if answered then Done else DoneUnacknowledged;
    }

    method PatchStatus(p: StatusPatch) returns (failed: bool, ghost reply: Reply)
      modifies this`status, this`trouble
      ensures failed == !reply.Done? && trouble == old(trouble) + if failed then 1 else 0
      ensures status == if reply.Refused? then old(status) else Merge(old(status), p)
    {
      var lands: bool, answered: bool := *, *;
      if lands {
        status := Merge(status, p);
      }
      failed := !lands || !answered;
      trouble := trouble + if failed then 1 else 0;
      reply := if !lands then Refused else if answered then Done else DoneUnacknowledged;
    }
  }

  datatype Spec = Spec(interval: int, prune: bool, suspend: bool, destinationNamespace: string, allowedClusterScopedKinds: seq<string>)

  datatype Config = Config(minimumRequeueInterval: int, allowClusterScoped: bool)

  const SECOND := 1_000_000_000

  function MinimumRequeueInterval(cfg: Config): int {
    if cfg.minimumRequeueInterval <= 0 then 15 * SECOND else cfg.minimumRequeueInterval
  }

  /** The copy of the resource a reconcile works on. */
  class GitApplication {
    const uid: string
    const generation: int
    const spec: Spec
    var status: Status

    constructor (uid: string, generation: int, spec: Spec, status: Status)
      ensures this.uid == uid && this.generation == generation && this.spec == spec && this.status == status
    {
      this.uid, this.generation, this.spec, this.status := uid, generation, spec, status;
    }

    /** setCondition overwrites the first entry of the type where it stands, or appends. */
    method SetCondition(c: Condition)
      modifies this
      ensures status == old(status).(conditions := AppStatus.SetCondition(old(status).conditions, c))
    {
      var cs := status.conditions;
      for i := 0 to |cs|
        invariant forall j :: 0 <= j < i ==> cs[j].name != c.name
        invariant status == old(status)
      {
        if cs[i].name == c.name {
          SetConditionAt(cs, c, i);
          status := status.(conditions := cs[i := c]);
          return;
        }
      }
      SetConditionAt(cs, c, |cs|);
      status := status.(conditions := cs + [c]);
    }

    /** The assignments of updateSuccess. */
    method MarkReconciled(revision: string, inventory: seq<ResourceReference>, now: nat)
      modifies this
      ensures status == Success(old(status), revision, inventory, generation, now)
    {
      status := status.(observedGeneration := generation, attemptedRevision := revision, appliedRevision := revision,
                        lastAttemptTime := Some(now), lastSuccessTime := Some(now), inventory := inventory);
      SetCondition(Condition("Reconciling", false, "Reconciled", "reconciliation complete", generation, now));
      SetCondition(Condition("Ready", true, "Reconciled", "application is ready", generation, now));
      SetCondition(Condition("Stalled", false, "Reconciled", "", generation, now));
      hide AppStatus.SetCondition;
    }

    /** The assignments of updateSuspended. */
    method MarkSuspended(now: nat)
      modifies this
      ensures status == Suspended(old(status), generation, now)
    {
      SetCondition(Condition("Reconciling", false, "Suspended", "reconciliation is suspended", generation, now));
      SetCondition(Condition("Ready", false, "Suspended", "reconciliation is suspended", generation, now));
      status := status.(lastAttemptTime := Some(now));
      hide AppStatus.SetCondition;
    }

    /** The assignments of fail. */
    method MarkFailed(stalled: bool, reason: string, message: string, now: nat)
      modifies this
      ensures status == Failure(old(status), stalled, reason, message, generation, now)
    {
      status := status.(observedGeneration := generation, lastAttemptTime := Some(now));
      SetCondition(Condition("Stalled", stalled, reason, if stalled then message else "", generation, now));
      SetCondition(Condition("Reconciling", false, reason, message, generation, now));
      SetCondition(Condition("Ready", false, reason, message, generation, now));
      hide AppStatus.SetCondition;
    }
  }

  lemma SetConditionUnfolds(cs: seq<Condition>, c: Condition)
    ensures cs == [] || cs[0].name == c.name ==> AppStatus.SetCondition(cs, c) == [c] + if cs == [] then [] else cs[1..]
    ensures cs != [] && cs[0].name != c.name ==> AppStatus.SetCondition(cs, c) == [cs[0]] + AppStatus.SetCondition(cs[1..], c)
  {
  }

  lemma {:induction false} SetConditionAt(cs: seq<Condition>, c: Condition, i: nat)
    requires i <= |cs| && (forall j :: 0 <= j < i ==> cs[j].name != c.name) && (i < |cs| ==> cs[i].name == c.name)
    ensures AppStatus.SetCondition(cs, c) == if i < |cs| then cs[i := c] else cs + [c]
  {
    hide AppStatus.SetCondition;
    SetConditionUnfolds(cs, c);
    if i > 0 {
      assert forall j :: 0 <= j < i - 1 ==> cs[1..][j] == cs[j + 1];
      SetConditionAt(cs[1..], c, i - 1);
    }
  }

  /** Server and in-memory copy agree with this application's part of the step machine's world. */
  ghost predicate Mirrors(server: Server, app: GitApplication, w: World)
    reads server, app
  {
    && app.uid in w.apps
    && server.objects == w.cluster
    && server.status == w.apps[app.uid].stored
    && app.status == w.apps[app.uid].memory
  }

  /** A reconcile starts from a fresh copy of the stored resource. */
  ghost predicate Loaded(server: Server, app: GitApplication, w: World)
    reads server, app
  {
    && app.uid in w.apps && w.apps[app.uid].phase.Idle?
    && server.objects == w.cluster
    && server.status == w.apps[app.uid].stored == app.status
  }

  function PlanOf(mapper: Mapper, ms: seq<Manifest>): (r: seq<Planned>)
    requires forall m :: m in ms ==> mapper(GvkOf(m)).Some?
    ensures |r| == |ms| && forall i :: 0 <= i < |ms| ==> r[i] == Planned(ReferenceFor(mapper, ms[i]), ms[i])
  {
    if ms == [] then [] else [Planned(ReferenceFor(mapper, ms[0]), ms[0])] + PlanOf(mapper, ms[1..])
  }

  /** Steps of this application for this attempt, with those of others in between unless it is alone. */
  ghost predicate Mine(es: seq<Event>, uid: string, a: Attempt, alone: bool) {
    forall e :: e in es ==> SoloEvent(e, uid, a) || (!alone && IsOthers(e, uid))
  }

  predicate IsOthers(e: Event, uid: string) {
    e.Outsider? || e.uid != uid
  }

  /** The same, with no begin of its own. */
  ghost predicate OwnEvents(es: seq<Event>, uid: string, alone: bool) {
    forall e :: e in es ==> (!IsOthers(e, uid) && !e.Begin?) || (!alone && IsOthers(e, uid))
  }

  /** None of its own steps writes an object. */
  ghost predicate WritesNothing(es: seq<Event>, uid: string) {
    forall e :: e in es && !IsOthers(e, uid) ==> !e.Patch? && !e.Delete?
  }

  lemma AloneIsSolo(es: seq<Event>, uid: string, a: Attempt)
    ensures Mine(es, uid, a, true) <==> Solo(es, uid, a)
  {
  }

  lemma OwnEventsAppend(patch: PatchFn, w: World, es: seq<Event>, more: seq<Event>, uid: string, a: Attempt, alone: bool)
    requires Admissible(patch, w, es) && Mine(es, uid, a, alone)
    requires Admissible(patch, Run(patch, w, es), more) && OwnEvents(more, uid, alone)
    ensures Admissible(patch, w, es + more) && Run(patch, w, es + more) == Run(patch, Run(patch, w, es), more)
    ensures Mine(es + more, uid, a, alone)
    ensures WritesNothing(es, uid) && WritesNothing(more, uid) ==> WritesNothing(es + more, uid)
  {
    RunSplits(patch, w, es, more);
    hide Admissible, Run;
  }

  lemma OwnEventAppend(patch: PatchFn, w: World, es: seq<Event>, e: Event, uid: string, a: Attempt, alone: bool)
    requires Admissible(patch, w, es) && Mine(es, uid, a, alone)
    requires Enabled(Run(patch, w, es), e) && SoloEvent(e, uid, a)
    ensures Admissible(patch, w, es + [e]) && Run(patch, w, es + [e]) == Next(patch, Run(patch, w, es), e)
    ensures Mine(es + [e], uid, a, alone)
    ensures WritesNothing(es, uid) && !e.Patch? && !e.Delete? ==> WritesNothing(es + [e], uid)
  {
    RunOne(patch, w, es, e);
    hide Admissible, Run, Enabled, Next;
  }

  lemma OthersAreOwn(es: seq<Event>, uid: string, alone: bool)
    requires Others(es, uid) && (alone ==> es == [])
    ensures OwnEvents(es, uid, alone) && WritesNothing(es, uid)
  {
  }

  lemma OwnEventsJoin(patch: PatchFn, w: World, es: seq<Event>, more: seq<Event>, uid: string, alone: bool)
    requires Admissible(patch, w, es) && OwnEvents(es, uid, alone)
    requires Admissible(patch, Run(patch, w, es), more) && OwnEvents(more, uid, alone)
    ensures Admissible(patch, w, es + more) && Run(patch, w, es + more) == Run(patch, Run(patch, w, es), more)
    ensures OwnEvents(es + more, uid, alone)
  {
    RunSplits(patch, w, es, more);
    hide Admissible, Run;
  }

  lemma OwnEventJoins(patch: PatchFn, w: World, es: seq<Event>, e: Event, uid: string, alone: bool)
    requires Admissible(patch, w, es) && OwnEvents(es, uid, alone)
    requires Enabled(Run(patch, w, es), e) && !IsOthers(e, uid) && !e.Begin?
    ensures Admissible(patch, w, es + [e]) && Run(patch, w, es + [e]) == Next(patch, Run(patch, w, es), e)
    ensures OwnEvents(es + [e], uid, alone)
  {
    RunOne(patch, w, es, e);
    hide Admissible, Run, Enabled, Next;
  }

  /** The objects the first k patches of the plan are for. */
  function Applied(plan: seq<Planned>, k: nat): set<Identity>
    requires k <= |plan|
  {
    Names(plan[..k])
  }

  lemma TouchesOneMore(plan: seq<Planned>, k: nat)
    requires k < |plan|
    ensures Applied(plan, k + 1) == Applied(plan, k) + {plan[k].ref.Id()}
  {
    assert plan[..k + 1] == plan[..k] + [plan[k]];
  }

  /** One object: others act, then its patch is sent. */
  method ApplyOneObject(patch: PatchFn, server: Server, app: GitApplication, p: Planned, ghost alone: bool, ghost w: World)
    returns (failed: bool, ghost es: seq<Event>, ghost lands: bool)
    requires Mirrors(server, app, w) && w.apps[app.uid].phase.Applying?
    requires w.apps[app.uid].phase.next < |w.apps[app.uid].attempt.plan| && w.apps[app.uid].attempt.plan[w.apps[app.uid].phase.next] == p
    modifies server`objects, server`trouble
    ensures Admissible(patch, w, es) && Mirrors(server, app, Run(patch, w, es)) && OwnEvents(es, app.uid, alone)
    ensures var app' := Run(patch, w, es).apps[app.uid];
            && app'.attempt == w.apps[app.uid].attempt
            && app'.phase == (if failed then Failing(false) else Applying(w.apps[app.uid].phase.next + 1))
            && app'.touched == w.apps[app.uid].touched + if lands then {p.ref.Id()} else {}
    ensures alone ==> server.objects == if lands then ApplyOne(patch, old(server.objects), p) else old(server.objects)
    ensures !failed ==> lands
    ensures server.trouble == old(server.trouble) + if failed then 1 else 0
  {
    hide Run, Admissible, OwnEvents, Others, Stale, AfterRecordSuccess, AfterRecordFailure, AfterSuspend;
    var uid := app.uid;
    ghost var others := server.Interfere(patch, uid, alone, w);
    OthersAreOwn(others, uid, alone);
    if alone {
      RunNothing(patch, w);
    }
    es := others;
    ghost var v := Run(patch, w, es);
    ghost var reply;
    failed, reply := server.Patch(patch, p);
    OwnEventJoins(patch, w, es, Event.Patch(uid, reply), uid, alone);
    es := es + [Event.Patch(uid, reply)];
    lands := !reply.Refused?;
  }

  lemma RunNothing(patch: PatchFn, w: World)
    ensures Admissible(patch, w, []) && Run(patch, w, []) == w
  {
  }

  /** The first k patches of the plan, in order, are what this application has applied since it had touched `before`; alone,
      they are all that has happened to the objects c. */
  ghost predicate AppliedPrefix(patch: PatchFn, plan: seq<Planned>, k: nat, before: set<Identity>, touched: set<Identity>,
                                c: Cluster, c': Cluster, alone: bool)
  {
    k <= |plan| && touched == before + Applied(plan, k) && (alone ==> c' == ApplyAll(patch, c, plan[..k]))
  }

  lemma PrefixGrows(patch: PatchFn, plan: seq<Planned>, k: nat, before: set<Identity>, touched: set<Identity>,
                    c: Cluster, c1: Cluster, c2: Cluster, alone: bool, lands: bool)
    requires AppliedPrefix(patch, plan, k, before, touched, c, c1, alone) && k < |plan|
    requires alone ==> c2 == if lands then ApplyOne(patch, c1, plan[k]) else c1
    ensures AppliedPrefix(patch, plan, if lands then k + 1 else k, before, touched + if lands then {plan[k].ref.Id()} else {},
                          c, c2, alone)
  {
    TouchesOneMore(plan, k);
    ApplyAllGrows(patch, c, plan, k);
    hide Applied, ApplyAll, ApplyOne;
  }

  lemma EmptyPrefix(patch: PatchFn, plan: seq<Planned>, touched: set<Identity>, c: Cluster, uid: string, alone: bool)
    ensures AppliedPrefix(patch, plan, 0, touched, touched, c, c, alone) && OwnEvents([], uid, alone)
  {
  }

  /** Apply, with others acting before every patch: the first k patches, in order, have taken effect and no other one. */
  method Apply(patch: PatchFn, server: Server, app: GitApplication, plan: seq<Planned>, ghost alone: bool, ghost w: World)
    returns (failed: bool, ghost es: seq<Event>, ghost k: nat)
    requires Mirrors(server, app, w) && w.apps[app.uid].phase == Applying(0) && w.apps[app.uid].attempt.plan == plan
    modifies server`objects, server`trouble
    ensures Admissible(patch, w, es) && Mirrors(server, app, Run(patch, w, es)) && OwnEvents(es, app.uid, alone)
    ensures Run(patch, w, es).apps[app.uid].attempt == w.apps[app.uid].attempt
    ensures Run(patch, w, es).apps[app.uid].phase == if failed then Failing(false) else Applying(|plan|)
    ensures AppliedPrefix(patch, plan, k, w.apps[app.uid].touched, Run(patch, w, es).apps[app.uid].touched,
                          old(server.objects), server.objects, alone)
    ensures !failed ==> k == |plan|
    ensures server.trouble == old(server.trouble) + if failed then 1 else 0
  {
    var uid := app.uid;
    es, k := [], 0;
    ghost var v, before := w, server.objects;
    hide Run, Admissible, AppliedPrefix, OwnEvents, ApplyOne;
    RunNothing(patch, w);
    EmptyPrefix(patch, plan, w.apps[uid].touched, before, uid, alone);
    for i := 0 to |plan|
      invariant Admissible(patch, w, es) && v == Run(patch, w, es) && Mirrors(server, app, v) && OwnEvents(es, uid, alone)
      invariant v.apps[uid].attempt == w.apps[uid].attempt && v.apps[uid].phase == Applying(i)
      invariant server.trouble == old(server.trouble)
      invariant k == i && AppliedPrefix(patch, plan, i, w.apps[uid].touched, v.apps[uid].touched, before, server.objects, alone)
    {
      ghost var touched, objects := v.apps[uid].touched, server.objects;
      ghost var more, lands;
      failed, more, lands := ApplyOneObject(patch, server, app, plan[i], alone, v);
      OwnEventsJoin(patch, w, es, more, uid, alone);
      es := es + more;
      v := Run(patch, w, es);
      PrefixGrows(patch, plan, i, w.apps[uid].touched, touched, before, objects, server.objects, alone, lands);
      if lands {
        k := i + 1;
      }
      if failed {
        return;
      }
    }
    failed := false;
  }

  /** One stale reference: fetch the live object, and delete it if it carried this application's metadata then. Others
      act before both calls. */
  method PruneOne(patch: PatchFn, server: Server, app: GitApplication, ref: ResourceReference, ghost alone: bool, ghost w: World)
    returns (failed: bool, ghost es: seq<Event>)
    requires Mirrors(server, app, w) && w.apps[app.uid].phase.Pruning?
    requires w.apps[app.uid].phase.next < |w.apps[app.uid].stale| && w.apps[app.uid].stale[w.apps[app.uid].phase.next] == ref
    modifies server`objects, server`trouble
    ensures Admissible(patch, w, es) && Mirrors(server, app, Run(patch, w, es)) && OwnEvents(es, app.uid, alone)
    ensures var app' := Run(patch, w, es).apps[app.uid];
            && app'.attempt == w.apps[app.uid].attempt && app'.stale == w.apps[app.uid].stale
            && app'.phase == if failed then Failing(false) else Pruning(w.apps[app.uid].phase.next + 1)
    ensures server.trouble == old(server.trouble) + if failed then 1 else 0
  {
    hide Owned, Stale, Run, Admissible, OwnEvents, Others, AfterRecordSuccess, AfterRecordFailure, AfterSuspend;
    var uid := app.uid;
    ghost var others := server.Interfere(patch, uid, alone, w);
    OthersAreOwn(others, uid, alone);
    es := others;
    ghost var v := Run(patch, w, es);
    var fetched := server.Get(ref.Id());
    ghost var fetch := Event.Fetch(uid, !fetched.Unanswered?);
    OwnEventJoins(patch, w, es, fetch, uid, alone);
    es := es + [fetch];
    v := Next(patch, v, fetch);
    if fetched.Unanswered? {
      return true, es;
    }
    failed := false;
    if fetched.Found? && Owned(fetched.live, uid) {
      others := server.Interfere(patch, uid, alone, v);
      OthersAreOwn(others, uid, alone);
      OwnEventsJoin(patch, w, es, others, uid, alone);
      es := es + others;
      v := Run(patch, w, es);
      ghost var reply;
      failed, reply := server.Delete(ref.Id());
      OwnEventJoins(patch, w, es, Event.Delete(uid, reply), uid, alone);
      es := es + [Event.Delete(uid, reply)];
    }
  }

  /** prune: walks the stale references of the recorded inventory in order, and stops at the first failure. */
  method Prune(patch: PatchFn, server: Server, app: GitApplication, desired: seq<ResourceReference>, ghost alone: bool, ghost w: World)
    returns (failed: bool, ghost es: seq<Event>)
    requires Mirrors(server, app, w) && w.apps[app.uid].attempt.prune && w.apps[app.uid].attempt.refs == desired
    requires w.apps[app.uid].phase == Applying(|w.apps[app.uid].attempt.plan|)
    modifies server`objects, server`trouble
    ensures Admissible(patch, w, es) && Mirrors(server, app, Run(patch, w, es)) && OwnEvents(es, app.uid, alone)
    ensures Run(patch, w, es).apps[app.uid].attempt == w.apps[app.uid].attempt
    ensures Run(patch, w, es).apps[app.uid].phase == if failed then Failing(false) else Finishing
    ensures server.trouble == old(server.trouble) + if failed then 1 else 0
  {
    hide Owned, Proper, IsNormalization, Stale, AfterRecordSuccess, AfterRecordFailure, AfterSuspend;
    var stale := Diff(app.status.inventory, desired);
    var uid := app.uid;
    OwnEventJoins(patch, w, [], ApplyEnds(uid), uid, alone);
    es := [] + [ApplyEnds(uid)];
    ghost var v := Run(patch, w, es);
    hide Run, Admissible, OwnEvents;
    for i := 0 to |stale|
      invariant Admissible(patch, w, es) && v == Run(patch, w, es) && Mirrors(server, app, v) && OwnEvents(es, uid, alone)
      invariant v.apps[uid].attempt == w.apps[uid].attempt && v.apps[uid].phase == Pruning(i) && v.apps[uid].stale == stale
      invariant server.trouble == old(server.trouble)
    {
      ghost var more;
      failed, more := PruneOne(patch, server, app, stale[i], alone, v);
      OwnEventsJoin(patch, w, es, more, uid, alone);
      es := es + more;
      v := Run(patch, w, es);
      if failed {
        return;
      }
    }
    OwnEventJoins(patch, w, es, PruneEnds(uid), uid, alone);
    es := es + [PruneEnds(uid)];
    failed := false;
  }

  /** What a user reads after a success. */
  ghost predicate ReadsReconciled(s: Status, revision: string, desired: seq<ResourceReference>, now: nat) {
    && IsTrue(s.conditions, "Ready") && Coherent(s.conditions)
    && s.appliedRevision == revision && IsNormalization(s.inventory, desired) && s.lastSuccessTime == Some(now)
  }

  /** And after a failure: not ready, for the reason given, and stalled or not. */
  ghost predicate ReadsUnready(cs: seq<Condition>, stalled: bool, reason: string, message: string) {
    var ready := Find(cs, "Ready");
    && ready.Some? && !ready.value.holds && ready.value.reason == reason && ready.value.message == message
    && (IsTrue(cs, "Stalled") <==> stalled)
  }

  ghost predicate ReadsFailed(s: Status, stalled: bool, reason: string, message: string, now: nat) {
    ReadsUnready(s.conditions, stalled, reason, message) && s.lastAttemptTime == Some(now)
  }

  lemma RecordedReads(stored: Status, base: Status, revision: string, inventory: seq<ResourceReference>,
                      desired: seq<ResourceReference>, generation: int, now: nat)
    requires IsNormalization(inventory, desired)
    ensures var memory := Success(base, revision, inventory, generation, now);
            && IsTrue(memory.conditions, "Ready")
            && (base == stored.(attemptedRevision := revision) ==>
                  ReadsReconciled(Merge(stored, MergeFrom(base, memory)), revision, desired, now))
  {
    SuccessConditions(base, revision, inventory, generation, now);
    hide Success, IsTrue, Coherent, IsNormalization;
  }

  /** And of a suspended application: not ready and so why, but otherwise as before. */
  ghost predicate ReadsSuspended(s: Status, before: Status, now: nat) {
    && Find(s.conditions, "Ready").Some? && !IsTrue(s.conditions, "Ready") && Find(s.conditions, "Ready").value.reason == "Suspended"
    && Find(s.conditions, "Stalled") == Find(before.conditions, "Stalled")
    && s.observedGeneration == before.observedGeneration && s.appliedRevision == before.appliedRevision
    && s.inventory == before.inventory && s.lastSuccessTime == before.lastSuccessTime && s.lastAttemptTime == Some(now)
  }

  lemma SuspendedReads(base: Status, generation: int, now: nat)
    ensures ReadsSuspended(Merge(base, MergeFrom(base, Suspended(base, generation, now))), base, now)
    ensures Merge(base, MergeFrom(base, Suspended(base, generation, now))).inventory == base.inventory
  {
    SuspendedConditions(base, generation, now);
    hide Suspended, IsTrue, Find;
  }

  /** The conditions the patch is computed from are the stored ones, or say ready, so that the failure's differ from them. */
  ghost predicate Told(stored: Status, base: Status) {
    base.conditions == stored.conditions || IsTrue(base.conditions, "Ready")
  }

  lemma FailedReads(stored: Status, base: Status, stalled: bool, reason: string, message: string, generation: int, now: nat)
    ensures var s := Merge(stored, MergeFrom(base, Failure(base, stalled, reason, message, generation, now)));
            && s.inventory == stored.inventory && s.appliedRevision == stored.appliedRevision
            && (base == stored.(attemptedRevision := base.attemptedRevision) ==> ReadsFailed(s, stalled, reason, message, now))
            && (Told(stored, base) ==> ReadsUnready(s.conditions, stalled, reason, message))
  {
    FailureConditions(base, stalled, reason, message, generation, now);
    hide Failure, Find;
  }

  method UpdateSuccess(patch: PatchFn, server: Server, app: GitApplication, revision: string, desired: seq<ResourceReference>,
                       now: nat, ghost w: World)
    returns (failed: bool, ghost e: Event)
    requires Mirrors(server, app, w) && w.apps[app.uid].phase.Finishing?
    requires w.apps[app.uid].attempt.revision == revision && w.apps[app.uid].attempt.refs == desired
    modifies server`status, server`trouble, app
    ensures e.RecordSuccess? && e.uid == app.uid && Enabled(w, e) && Mirrors(server, app, Next(patch, w, e))
    ensures failed == !e.reply.Done?
    ensures Next(patch, w, e).apps[app.uid].phase == if failed then Failing(false) else Idle
    ensures server.trouble == old(server.trouble) + if failed then 1 else 0
    ensures IsTrue(app.status.conditions, "Ready")
    ensures !failed && old(app.status) == old(server.status).(attemptedRevision := revision) ==>
              ReadsReconciled(server.status, revision, desired, now)
  {
    var base := app.status;
    var inventory := Normalize(desired);
    app.MarkReconciled(revision, inventory, now);
    RecordedReads(server.status, base, revision, inventory, desired, app.generation, now);
    hide AppStatus.SetCondition, IsNormalization, Merge, MergeFrom, IsTrue, ReadsReconciled, Success;
    ghost var reply;
    failed, reply := server.PatchStatus(MergeFrom(base, app.status));
    e := RecordSuccess(app.uid, reply, inventory, app.generation, now);
  }

  method Fail(patch: PatchFn, server: Server, app: GitApplication, stalled: bool, reason: string, message: string, now: nat, ghost w: World)
    returns (ghost e: Event)
    requires Mirrors(server, app, w) && w.apps[app.uid].phase == Failing(stalled)
    modifies server`status, server`trouble, app
    ensures e.RecordFailure? && e.uid == app.uid && Enabled(w, e) && Mirrors(server, app, Next(patch, w, e))
    ensures Next(patch, w, e).apps[app.uid].phase.Idle?
    ensures server.status.inventory == old(server.status).inventory && server.status.appliedRevision == old(server.status).appliedRevision
    ensures server.trouble == old(server.trouble) + if e.reply.Done? then 0 else 1
    ensures e.reply.Done? && old(app.status) == old(server.status).(attemptedRevision := old(app.status).attemptedRevision) ==>
              ReadsFailed(server.status, stalled, reason, message, now)
    ensures e.reply.Done? && Told(old(server.status), old(app.status)) ==> ReadsUnready(server.status.conditions, stalled, reason, message)
  {
    var base := app.status;
    app.MarkFailed(stalled, reason, message, now);
    FailedReads(server.status, base, stalled, reason, message, app.generation, now);
    hide Failure, Merge, MergeFrom, ReadsFailed, ReadsUnready, Told, AfterRecordSuccess, AfterSuspend;
    var failed; ghost var reply;
    failed, reply := server.PatchStatus(MergeFrom(base, app.status));
    e := RecordFailure(app.uid, reply, reason, message, app.generation, now);
  }

  method UpdateSuspended(patch: PatchFn, server: Server, app: GitApplication, now: nat, ghost w: World)
    returns (failed: bool, ghost e: Event)
    requires Loaded(server, app, w)
    modifies server`status, server`trouble, app
    ensures e.Suspend? && e.uid == app.uid && Enabled(w, e) && Mirrors(server, app, Next(patch, w, e))
    ensures server.status.inventory == old(server.status).inventory
    ensures Next(patch, w, e).apps[app.uid].phase.Idle?
    ensures server.trouble == old(server.trouble) + if failed then 1 else 0
    ensures !failed ==> ReadsSuspended(server.status, old(server.status), now)
  {
    var base := app.status;
    app.MarkSuspended(now);
    SuspendedReads(base, app.generation, now);
    hide Suspended, Merge, MergeFrom, ReadsSuspended;
    ghost var reply;
    failed, reply := server.PatchStatus(MergeFrom(base, app.status));
    e := Event.Suspend(app.uid, reply, app.generation, now);
  }

  /** What came of validation, credentials, checkout and rendering. */
  datatype Source =
    | InvalidSpec
    | NoCredentials(stalled: bool)
    | NoCheckout
    | Unrendered(revision: string)
    | Rendered(revision: string, objects: seq<Unstructured?>)

  ghost function Objects(source: Source): set<Unstructured> {
    if source.Rendered? then NonNull(source.objects) else {}
  }

  /** Names the API server admits: discovery knows no empty kind, no group or kind with a slash, no version with a comma. */
  ghost predicate Sane(mapper: Mapper) {
    forall g :: mapper(g).Some? ==>
      '/' !in mapper(g).value.group && ',' !in mapper(g).value.version && g.kind != "" && '/' !in g.kind
  }

  lemma AdmittedReference(mapper: Mapper, sizer: Sizer, policy: Policy, m: Manifest)
    requires WithinPolicy(mapper, sizer, policy, m) && Sane(mapper) && '/' !in policy.destinationNamespace
    ensures Stamped(m, policy.applicationUid, policy.sourceRevision)
    ensures ReferenceFor(mapper, m).WellFormed() && ReferenceFor(mapper, m).kind == m.kind
  {
    hide Stamped, ClusterScopedKindAllowed;
  }

  lemma PlanHasReferences(mapper: Mapper, admitted: seq<Manifest>, out: seq<Manifest>, refs: seq<ResourceReference>)
    requires forall m :: m in admitted ==> mapper(GvkOf(m)).Some?
    requires forall m :: m in out <==> m in admitted
    requires forall r :: r in refs <==> r in References(mapper, admitted)
    ensures forall p :: p in PlanOf(mapper, out) ==> p.manifest in admitted && p.ref == ReferenceFor(mapper, p.manifest) && p.ref in refs
    ensures forall r :: r in refs ==> r in PlanRefs(PlanOf(mapper, out)) && exists m :: m in admitted && r == ReferenceFor(mapper, m)
  {
    hide GvkOf, ReferenceFor;
    var plan := PlanOf(mapper, out);
    forall p | p in plan
      ensures p.manifest in admitted && p.ref == ReferenceFor(mapper, p.manifest) && p.ref in refs
    {
      var i :| 0 <= i < |plan| && plan[i] == p;
      assert out[i] in out;
      var j :| 0 <= j < |admitted| && admitted[j] == out[i];
      assert References(mapper, admitted)[j] == p.ref;
    }
    forall r | r in refs
      ensures r in PlanRefs(plan) && exists m :: m in admitted && r == ReferenceFor(mapper, m)
    {
      var i :| 0 <= i < |admitted| && References(mapper, admitted)[i] == r;
      assert admitted[i] in admitted && admitted[i] in out;
      var j :| 0 <= j < |out| && out[j] == admitted[i];
      assert PlanRefs(plan)[j] == r;
    }
  }

  /** What admission returns is what a run of the step machine may begin with. */
  lemma AdmittedIsProper(mapper: Mapper, sizer: Sizer, policy: Policy, ms: seq<Option<Manifest>>,
                         admitted: seq<Manifest>, out: seq<Manifest>, a: Attempt)
    requires AdmitAll(mapper, sizer, policy, ms) == Ok(admitted) && Sane(mapper) && '/' !in policy.destinationNamespace
    requires forall m :: m in admitted ==> mapper(GvkOf(m)).Some?
    requires out == Sort(AppliesEarlier, admitted)
    requires forall m :: m in out ==> mapper(GvkOf(m)).Some?
    requires a.plan == PlanOf(mapper, out) && a.refs == Sort(KeyLess, References(mapper, admitted)) && a.revision == policy.sourceRevision
    ensures Proper(policy.applicationUid, a) && KindsAgree(a.plan)
    ensures forall p :: p in a.plan ==> p.manifest in admitted && RefersTo(mapper, p.ref, p.manifest)
  {
    assert forall m :: m in out <==> m in admitted by {
      SortPermutes(AppliesEarlier, admitted);
    }
    assert forall r :: r in a.refs <==> r in References(mapper, admitted) by {
      SortPermutes(KeyLess, References(mapper, admitted));
    }
    PlanHasReferences(mapper, admitted, out, a.refs);
    AdmittedReferences(mapper, sizer, policy, ms, admitted);
    hide Admit, AdmitAll, Sort, AppliesEarlier, KeyLess, Stamped, GvkOf, WithinPolicy, ReferenceFor, RefersTo, Sane, PlanOf,
      References, ResourceReference.WellFormed;
  }

  lemma AdmittedReferences(mapper: Mapper, sizer: Sizer, policy: Policy, ms: seq<Option<Manifest>>, admitted: seq<Manifest>)
    requires AdmitAll(mapper, sizer, policy, ms) == Ok(admitted) && Sane(mapper) && '/' !in policy.destinationNamespace
    requires forall m :: m in admitted ==> mapper(GvkOf(m)).Some?
    ensures forall m :: m in admitted ==>
              && Stamped(m, policy.applicationUid, policy.sourceRevision)
              && ReferenceFor(mapper, m).WellFormed() && ReferenceFor(mapper, m).kind == m.kind
              && RefersTo(mapper, ReferenceFor(mapper, m), m)
  {
    AllAdmittedAgain(mapper, sizer, policy, ms);
    hide Admit, AdmitAll, Stamped, GvkOf, WithinPolicy, ReferenceFor, RefersTo, Sane, ResourceReference.WellFormed;
    forall m | m in admitted
      ensures Stamped(m, policy.applicationUid, policy.sourceRevision)
      ensures ReferenceFor(mapper, m).WellFormed() && ReferenceFor(mapper, m).kind == m.kind
      ensures RefersTo(mapper, ReferenceFor(mapper, m), m)
    {
      ReferencesTellApart(mapper, m, m);
      AdmittedReference(mapper, sizer, policy, m);
    }
  }

  /** The order of the admitted objects is the order of the plan, whichever of the two is sorted. */
  lemma PlanOfSortedIsSortedPlan(mapper: Mapper, admitted: seq<Manifest>)
    requires forall m :: m in admitted ==> mapper(GvkOf(m)).Some?
    ensures forall m :: m in Sort(AppliesEarlier, admitted) ==> mapper(GvkOf(m)).Some?
    ensures PlanOf(mapper, Sort(AppliesEarlier, admitted)) == Sort(PlannedEarlier, PlanOf(mapper, admitted))
  {
    SortPermutes(AppliesEarlier, admitted);
    var plan := PlanOf(mapper, admitted);
    var f := (p: Planned) => p.manifest;
    SortPermutes(PlannedEarlier, plan);
    SortCommutesWithMap(f, PlannedEarlier, AppliesEarlier, plan);
    assert StableSort.Map(f, plan) == admitted;
    var sorted := Sort(PlannedEarlier, plan);
    forall p | p in plan
      ensures p == Planned(ReferenceFor(mapper, p.manifest), p.manifest)
    {
    }
    assert forall i :: 0 <= i < |sorted| ==> sorted[i] in plan;
  }

  /** From the first apply to the recorded success, or to the first failure. */
  method WriteOut(patch: PatchFn, server: Server, app: GitApplication, a: Attempt, now: nat, ghost alone: bool, ghost w: World)
    returns (failed: bool, ghost es: seq<Event>, ghost success: Event)
    requires Loaded(server, app, w) && Proper(app.uid, a) && app.spec.prune == a.prune
    modifies server, app
    ensures Admissible(patch, w, es) && Mine(es, app.uid, a, alone)
    ensures failed ==> Mirrors(server, app, Run(patch, w, es)) && Run(patch, w, es).apps[app.uid].phase == Failing(false)
    ensures !failed ==>
              && success.RecordSuccess? && success.uid == app.uid && success.reply.Done?
              && Enabled(Run(patch, w, es), success) && Mirrors(server, app, Next(patch, Run(patch, w, es), success))
    ensures server.trouble == old(server.trouble) + if failed then 1 else 0
    ensures !failed ==> ReadsReconciled(server.status, a.revision, a.refs, now)
    ensures failed ==> Told(server.status, app.status)
  {
    var uid := app.uid;
    hide ReadsReconciled, IsTrue;
    hide Proper, Stale, IsNormalization, Mine, OwnEvents, WritesNothing, Merge, MergeFrom, Success, Applied;
    app.status := app.status.(attemptedRevision := a.revision);
    NoEventsAreMine(uid, a, alone);
    OwnEventAppend(patch, w, [], Begin(uid, a), uid, a, alone);
    es := [] + [Begin(uid, a)];
    success := Crash(uid);
    ghost var v := Run(patch, w, es);
    hide Run, Admissible;
    ghost var more, k;
    failed, more, k := Apply(patch, server, app, a.plan, alone, v);
    OwnEventsAppend(patch, w, es, more, uid, a, alone);
    es := es + more;
    v := Run(patch, w, es);
    if failed {
      return;
    }
    failed, more := PruneIfAsked(patch, server, app, a, alone, v);
    OwnEventsAppend(patch, w, es, more, uid, a, alone);
    es := es + more;
    v := Run(patch, w, es);
    if failed {
      return;
    }
    es := LetOthersAct(patch, server, app, a, alone, w, es);
    v := Run(patch, w, es);
    failed, success := UpdateSuccess(patch, server, app, a.revision, a.refs, now, v);
    if failed {
      OwnEventAppend(patch, w, es, success, uid, a, alone);
      es := es + [success];
    }
  }

  /** Others act; this application and its copy stay as they are. */
  method LetOthersAct(patch: PatchFn, server: Server, app: GitApplication, ghost a: Attempt, ghost alone: bool,
                      ghost w: World, ghost before: seq<Event>)
    returns (ghost es: seq<Event>)
    requires Admissible(patch, w, before) && Mine(before, app.uid, a, alone)
    requires app.uid in Run(patch, w, before).apps && server.objects == Run(patch, w, before).cluster
    modifies server`objects
    ensures Admissible(patch, w, es) && Mine(es, app.uid, a, alone) && (alone ==> es == before)
    ensures app.uid in Run(patch, w, es).apps && server.objects == Run(patch, w, es).cluster
    ensures Run(patch, w, es).apps[app.uid] == Run(patch, w, before).apps[app.uid]
    ensures WritesNothing(before, app.uid) ==> WritesNothing(es, app.uid)
  {
    hide Run, Admissible, Mine, OwnEvents, WritesNothing, Others;
    ghost var others := server.Interfere(patch, app.uid, alone, Run(patch, w, before));
    OthersAreOwn(others, app.uid, alone);
    OwnEventsAppend(patch, w, before, others, app.uid, a, alone);
    es := before + others;
  }

  lemma NoEventsAreMine(uid: string, a: Attempt, alone: bool)
    ensures Mine([], uid, a, alone) && WritesNothing([], uid)
  {
  }

  method PruneIfAsked(patch: PatchFn, server: Server, app: GitApplication, a: Attempt, ghost alone: bool, ghost w: World)
    returns (failed: bool, ghost es: seq<Event>)
    requires Mirrors(server, app, w) && w.apps[app.uid].attempt == a && w.apps[app.uid].phase == Applying(|a.plan|)
    requires app.spec.prune == a.prune
    modifies server`objects, server`trouble
    ensures Admissible(patch, w, es) && Mirrors(server, app, Run(patch, w, es)) && OwnEvents(es, app.uid, alone)
    ensures Run(patch, w, es).apps[app.uid].attempt == a
    ensures Run(patch, w, es).apps[app.uid].phase == if failed then Failing(false) else Finishing
    ensures server.trouble == old(server.trouble) + if failed then 1 else 0
  {
    if app.spec.prune {
      failed, es := Prune(patch, server, app, a.refs, alone, w);
    } else {
      failed := false;
      OwnEventJoins(patch, w, [], ApplyEnds(app.uid), app.uid, alone);
      es := [] + [ApplyEnds(app.uid)];
    }
  }

  /** After the call the server holds what the step machine holds, and the run is over. */
  ghost predicate Settles(server: Server, app: GitApplication, w: World)
    reads server
  {
    && app.uid in w.apps && w.apps[app.uid].phase.Idle?
    && server.objects == w.cluster && server.status == w.apps[app.uid].stored
  }

  /** Any failure before the first apply patch: only the status is written. */
  method FailEarly(patch: PatchFn, server: Server, app: GitApplication, attempted: Option<string>, stalled: bool,
                   reason: string, message: string, now: nat, ghost alone: bool, ghost w: World, ghost a: Attempt)
    returns (ghost es: seq<Event>)
    requires Loaded(server, app, w)
    modifies server, app
    ensures Admissible(patch, w, es) && Mine(es, app.uid, a, alone) && Settles(server, app, Run(patch, w, es))
    ensures WritesNothing(es, app.uid) && (alone ==> server.objects == old(server.objects))
    ensures server.status.inventory == old(server.status).inventory && server.status.appliedRevision == old(server.status).appliedRevision
    ensures server.trouble >= old(server.trouble)
    ensures server.trouble == old(server.trouble) ==> ReadsFailed(server.status, stalled, reason, message, now)
  {
    hide ReadsFailed, ReadsUnready, Told;
    hide Mine, WritesNothing, Merge, MergeFrom, Failure;
    ghost var begin := BeginFails(app.uid, attempted, stalled);
    if attempted.Some? {
      app.status := app.status.(attemptedRevision := attempted.value);
    }
    NoEventsAreMine(app.uid, a, alone);
    OwnEventAppend(patch, w, [], begin, app.uid, a, alone);
    es := [] + [begin];
    hide Run, Admissible;
    es := LetOthersAct(patch, server, app, a, alone, w, es);
    ghost var v := Run(patch, w, es);
    ghost var e := Fail(patch, server, app, stalled, reason, message, now, v);
    OwnEventAppend(patch, w, es, e, app.uid, a, alone);
    es := es + [e];
  }

  /** The run ended in a success the API server has acknowledged. */
  ghost predicate EndsInSuccess(patch: PatchFn, w: World, es: seq<Event>, uid: string) {
    && es != [] && es[|es| - 1].RecordSuccess? && es[|es| - 1].uid == uid && es[|es| - 1].reply.Done?
    && Admissible(patch, w, es[..|es| - 1]) && Enabled(Run(patch, w, es[..|es| - 1]), es[|es| - 1])
  }

  /** What the attempt of a rendered, admitted set of objects is. */
  ghost predicate AttemptOf(mapper: Mapper, admitted: seq<Manifest>, revision: string, prune: bool, a: Attempt) {
    && (forall m :: m in admitted ==> mapper(GvkOf(m)).Some?)
    && a.revision == revision && a.prune == prune
    && a.plan == Sort(PlannedEarlier, PlanOf(mapper, admitted))
    && a.refs == Sort(KeyLess, References(mapper, admitted))
  }

  function PolicyOf(cfg: Config, app: GitApplication, revision: string): Policy {
    Policy(app.spec.destinationNamespace, app.uid, revision, cfg.allowClusterScoped, app.spec.allowedClusterScopedKinds)
  }

  /** What the specification of the application and the operator's configuration allow, and where the references stand. */
  ghost predicate WithinSpec(mapper: Mapper, cfg: Config, app: GitApplication, revision: string, a: Attempt) {
    forall p :: p in a.plan ==>
      && RefersTo(mapper, p.ref, p.manifest)
      && (mapper(GvkOf(p.manifest)).value.namespaced ==> p.manifest.namespace == app.spec.destinationNamespace)
      && (!mapper(GvkOf(p.manifest)).value.namespaced ==>
            && p.manifest.namespace == "" && cfg.allowClusterScoped
            && ClusterScopedKindAllowed(GvkOf(p.manifest).kind, app.spec.allowedClusterScopedKinds))
      && Stamped(p.manifest, app.uid, revision)
  }

  lemma AdmittedIsWithinSpec(mapper: Mapper, sizer: Sizer, cfg: Config, app: GitApplication, revision: string,
                             ms: seq<Option<Manifest>>, admitted: seq<Manifest>, out: seq<Manifest>, a: Attempt)
    requires AdmitAll(mapper, sizer, PolicyOf(cfg, app, revision), ms) == Ok(admitted)
    requires forall m :: m in admitted ==> mapper(GvkOf(m)).Some?
    requires out == Sort(AppliesEarlier, admitted)
    requires forall m :: m in out ==> mapper(GvkOf(m)).Some?
    requires a.plan == PlanOf(mapper, out)
    ensures WithinSpec(mapper, cfg, app, revision, a)
  {
    SortPermutes(AppliesEarlier, admitted);
    AllAdmittedAgain(mapper, sizer, PolicyOf(cfg, app, revision), ms);
    forall p | p in a.plan
      ensures RefersTo(mapper, p.ref, p.manifest)
      ensures WithinPolicy(mapper, sizer, PolicyOf(cfg, app, revision), p.manifest)
    {
      var i :| 0 <= i < |a.plan| && a.plan[i] == p;
      assert out[i] in out;
      ReferencesTellApart(mapper, out[i], out[i]);
    }
    hide AdmitAll, Admit, Sort, PlanOf, RefersTo, Stamped, GvkOf, ClusterScopedKindAllowed;
  }

  /** Which failures before the first apply count as stalled. */
  function Stalls(source: Source): bool {
    match source
    case InvalidSpec => true
    case NoCredentials(stalled) => stalled
    case NoCheckout => false
    case Unrendered(_) => false
    case Rendered(_, _) => true
  }

  /** Admission, apply, prune and the status write, for objects that rendered. */
  method ReconcileRendered(patch: PatchFn, mapper: Mapper, sizer: Sizer, cfg: Config, server: Server, app: GitApplication,
                           revision: string, objects: seq<Unstructured?>, reason: string, message: string, now: nat,
                           ghost alone: bool, ghost w: World)
    returns (succeeded: bool, ghost es: seq<Event>, ghost a: Attempt)
    requires Loaded(server, app, w) && Sane(mapper) && '/' !in app.spec.destinationNamespace
    modifies server, app, NonNull(objects)
    ensures Admissible(patch, w, es) && Mine(es, app.uid, a, alone) && Settles(server, app, Run(patch, w, es))
    ensures succeeded ==> EndsInSuccess(patch, w, es, app.uid)
    ensures var admitted := AdmitAll(mapper, sizer, PolicyOf(cfg, app, revision), old(Contents(objects)));
            && (admitted.Err? ==>
                  && !succeeded && WritesNothing(es, app.uid) && (alone ==> server.objects == old(server.objects))
                  && server.status.inventory == old(server.status).inventory)
            && (admitted.Ok? ==> AttemptOf(mapper, admitted.value, revision, app.spec.prune, a) && Proper(app.uid, a))
            && (admitted.Ok? ==> WithinSpec(mapper, cfg, app, revision, a))
            && (admitted.Ok? ==> (succeeded <==> server.trouble == old(server.trouble)))
            && (admitted.Ok? && server.trouble == old(server.trouble) + 1 ==>
                  ReadsUnready(server.status.conditions, false, reason, message))
            && (admitted.Err? && server.trouble == old(server.trouble) ==> ReadsFailed(server.status, true, reason, message, now))
    ensures succeeded ==> ReadsReconciled(server.status, revision, a.refs, now)
    ensures server.trouble >= old(server.trouble)
  {
    hide ReadsFailed, ReadsUnready, Told, ReadsReconciled, WithinSpec;
    hide Mine, WritesNothing, AdmitAll, Proper, Sane, Sort, PlannedEarlier, AppliesEarlier, KeyLess, GvkOf, ReferenceFor,
      PlanOf, References;
    var policy := PolicyOf(cfg, app, revision);
    ghost var ms := Contents(objects);
    var r := NormalizeAndValidate(mapper, sizer, objects, policy);
    if r.Err? {
      a := Attempt(revision, app.spec.prune, [], []);
      es := FailEarly(patch, server, app, Some(revision), true, reason, message, now, alone, w, a);
      return false, es, a;
    }
    ghost var admitted := AdmitAll(mapper, sizer, policy, ms).value;
    var out := Values(r.value.0);
    PlanOfSortedIsSortedPlan(mapper, admitted);
    var attempt := Attempt(revision, app.spec.prune, PlanOf(mapper, out), r.value.1);
    AdmittedIsProper(mapper, sizer, policy, ms, admitted, out, attempt);
    AdmittedIsWithinSpec(mapper, sizer, cfg, app, revision, ms, admitted, out, attempt);
    a := attempt;
    var failed; ghost var success;
    failed, es, success := WriteOut(patch, server, app, attempt, now, alone, w);
    es := Conclude(patch, server, app, failed, reason, message, now, alone, w, es, success, a);
    succeeded := !failed;
  }

  /** The failure path of a run that had begun to write, or nothing more after a success. */
  method Conclude(patch: PatchFn, server: Server, app: GitApplication, failed: bool, reason: string, message: string, now: nat,
                  ghost alone: bool, ghost w: World, ghost before: seq<Event>, ghost success: Event, ghost a: Attempt)
    returns (ghost es: seq<Event>)
    requires Admissible(patch, w, before) && Mine(before, app.uid, a, alone)
    requires failed ==> Mirrors(server, app, Run(patch, w, before)) && Run(patch, w, before).apps[app.uid].phase == Failing(false)
    requires failed ==> Told(server.status, app.status)
    requires !failed ==>
               && success.RecordSuccess? && success.uid == app.uid && success.reply.Done?
               && Enabled(Run(patch, w, before), success) && Mirrors(server, app, Next(patch, Run(patch, w, before), success))
    modifies server, app
    ensures Admissible(patch, w, es) && Mine(es, app.uid, a, alone) && Settles(server, app, Run(patch, w, es))
    ensures !failed ==> EndsInSuccess(patch, w, es, app.uid)
    ensures server.trouble >= old(server.trouble)
    ensures !failed ==> server.trouble == old(server.trouble) && server.status == old(server.status)
    ensures failed && server.trouble == old(server.trouble) ==> ReadsUnready(server.status.conditions, false, reason, message)
  {
    hide Mine, WritesNothing, Merge, MergeFrom, Failure, Success, ReadsFailed, ReadsUnready, Told;
    es := before;
    ghost var e := success;
    if failed {
      es := LetOthersAct(patch, server, app, a, alone, w, es);
      e := Fail(patch, server, app, false, reason, message, now, Run(patch, w, es));
    }
    OwnEventAppend(patch, w, es, e, app.uid, a, alone);
    assert (es + [e])[..|es|] == es;
    es := es + [e];
  }

  /** Reconcile: every path through it, with every API call free to fail and others free to act before every call, is a run
      of the step machine in which this application's own steps are those of one attempt. */
  method Reconcile(patch: PatchFn, mapper: Mapper, sizer: Sizer, cfg: Config, server: Server, app: GitApplication, source: Source,
                   reason: string, message: string, now: nat, ghost alone: bool, ghost w: World)
    returns (requeueAfter: Option<int>, ghost es: seq<Event>, ghost a: Attempt)
    requires Loaded(server, app, w) && Sane(mapper)
    requires source.Rendered? ==> '/' !in app.spec.destinationNamespace
    modifies server, app, Objects(source)
    ensures Admissible(patch, w, es) && Mine(es, app.uid, a, alone) && Settles(server, app, Run(patch, w, es))
    ensures alone ==> Solo(es, app.uid, a)
    ensures requeueAfter.Some? && !app.spec.suspend ==> source.Rendered? && EndsInSuccess(patch, w, es, app.uid)
    ensures app.spec.suspend || !source.Rendered? ||
            AdmitAll(mapper, sizer, PolicyOf(cfg, app, source.revision), old(Contents(source.objects))).Err? ==>
              && WritesNothing(es, app.uid) && (alone ==> server.objects == old(server.objects))
              && server.status.inventory == old(server.status).inventory
    ensures !app.spec.suspend && source.Rendered? ==>
              var admitted := AdmitAll(mapper, sizer, PolicyOf(cfg, app, source.revision), old(Contents(source.objects)));
              && (requeueAfter.Some? ==> admitted.Ok?)
              && (admitted.Ok? ==> AttemptOf(mapper, admitted.value, source.revision, app.spec.prune, a) && Proper(app.uid, a))
              && (admitted.Ok? ==> WithinSpec(mapper, cfg, app, source.revision, a))
              && (admitted.Ok? ==> (requeueAfter.Some? <==> server.trouble == old(server.trouble)))
              && (admitted.Ok? && server.trouble == old(server.trouble) + 1 ==>
                    ReadsUnready(server.status.conditions, false, reason, message))
              && (requeueAfter.Some? ==> ReadsReconciled(server.status, source.revision, a.refs, now))
    ensures !app.spec.suspend && server.trouble == old(server.trouble) &&
            (!source.Rendered? || AdmitAll(mapper, sizer, PolicyOf(cfg, app, source.revision), old(Contents(source.objects))).Err?) ==>
              ReadsFailed(server.status, Stalls(source), reason, message, now)
    ensures app.spec.suspend ==> (requeueAfter.Some? <==> server.trouble == old(server.trouble))
    ensures app.spec.suspend && requeueAfter.Some? ==>
              requeueAfter.value == MinimumRequeueInterval(cfg) > 0 && ReadsSuspended(server.status, old(server.status), now)
    ensures !app.spec.suspend && requeueAfter.Some? ==>
              && requeueAfter.value >= app.spec.interval && requeueAfter.value >= cfg.minimumRequeueInterval
              && (requeueAfter.value == app.spec.interval || requeueAfter.value == cfg.minimumRequeueInterval)
              && (app.spec.interval >= MinimumRequeueInterval(cfg) ==> requeueAfter.value > 0)
  {
    hide Mine, WritesNothing, AdmitAll, Proper, Sane, AttemptOf, EndsInSuccess, Run, Admissible, Merge, MergeFrom, Suspended,
      ReadsFailed, ReadsUnready, ReadsReconciled, WithinSpec, ReadsSuspended;
    requeueAfter := None;
    a := Attempt("", app.spec.prune, [], []);
    if app.spec.suspend {
      var failed;
      failed, es := Suspend(patch, server, app, now, alone, w, a);
      if !failed {
        requeueAfter := Some(MinimumRequeueInterval(cfg));
      }
    } else {
      match source
      case InvalidSpec => es := FailEarly(patch, server, app, None, true, reason, message, now, alone, w, a);
      case NoCredentials(stalled) => es := FailEarly(patch, server, app, None, stalled, reason, message, now, alone, w, a);
      case NoCheckout => es := FailEarly(patch, server, app, None, false, reason, message, now, alone, w, a);
      case Unrendered(revision) => es := FailEarly(patch, server, app, Some(revision), false, reason, message, now, alone, w, a);
      case Rendered(revision, objects) =>
        var succeeded;
        succeeded, es, a := ReconcileRendered(patch, mapper, sizer, cfg, server, app, revision, objects, reason, message, now, alone, w);
        if succeeded {
          requeueAfter := Some(if app.spec.interval < cfg.minimumRequeueInterval then cfg.minimumRequeueInterval else app.spec.interval);
        }
    }
    if alone {
      AloneIsSolo(es, app.uid, a);
    }
  }

  /** The suspend path: the status write, with others acting before it. */
  method Suspend(patch: PatchFn, server: Server, app: GitApplication, now: nat, ghost alone: bool, ghost w: World, ghost a: Attempt)
    returns (failed: bool, ghost es: seq<Event>)
    requires Loaded(server, app, w)
    modifies server, app
    ensures Admissible(patch, w, es) && Mine(es, app.uid, a, alone) && Settles(server, app, Run(patch, w, es))
    ensures WritesNothing(es, app.uid) && (alone ==> server.objects == old(server.objects))
    ensures server.status.inventory == old(server.status).inventory
    ensures server.trouble == old(server.trouble) + if failed then 1 else 0
    ensures !failed ==> ReadsSuspended(server.status, old(server.status), now)
  {
    hide Mine, WritesNothing, Merge, MergeFrom, AppStatus.Suspended, ReadsSuspended;
    NoEventsAreMine(app.uid, a, alone);
    es := LetOthersAct(patch, server, app, a, alone, w, []);
    ghost var e;
    failed, e := UpdateSuspended(patch, server, app, now, Run(patch, w, es));
    OwnEventAppend(patch, w, es, e, app.uid, a, alone);
    es := es + [e];
  }

  /** Where a successful run ends does not depend on the sort: applying in render order and pruning gives the same cluster. */
  lemma SettledAsRendered(patch: PatchFn, mapper: Mapper, c: Cluster, inventory: seq<ResourceReference>, uid: string,
                          admitted: seq<Manifest>, revision: string, prune: bool, a: Attempt)
    requires AttemptOf(mapper, admitted, revision, prune, a) && KindsAgree(a.plan)
    ensures Settled(patch, c, inventory, uid, a) ==
            Pruned(ApplyAll(patch, c, PlanOf(mapper, admitted)), if prune then Identities(Stale(inventory, a.refs)) else {}, uid)
  {
    var plan := PlanOf(mapper, admitted);
    SortPermutes(PlannedEarlier, plan);
    ReorderingPreservesMeaning(patch, c, plan);
    hide Pruned, Stale, Sort;
  }

  /** What a reconcile that reports success has done to the server, with no one else at work: every desired
      object is there and this application's unless a stale reference named it too, and nothing else it recorded is left. */
  lemma SuccessfulReconcile(patch: PatchFn, w: World, es: seq<Event>, uid: string, a: Attempt)
    requires KeepsMetadata(patch) && LedgerInv(w) && uid in w.apps && w.apps[uid].phase.Idle? && a.prune
    requires Admissible(patch, w, es) && Solo(es, uid, a) && EndsInSuccess(patch, w, es, uid)
    ensures Succeeds(patch, w, es[..|es| - 1], uid, a, es[|es| - 1])
    ensures var was := Run(patch, w, es[..|es| - 1]).apps[uid].stored.inventory;
            && (forall p :: p in a.plan ==> (p.ref.Id() in Run(patch, w, es).cluster <==> p.ref.Id() !in Identities(Stale(was, a.refs))))
            && (forall p :: p in a.plan && p.ref.Id() in Run(patch, w, es).cluster ==> Owned(Run(patch, w, es).cluster[p.ref.Id()], uid))
            && (forall r :: r in was && r.Id() !in Identities(a.refs) ==> !OwnedIn(Run(patch, w, es).cluster, r.Id(), uid))
    ensures Repeatable(patch, uid, a) && NoVersionAlias(w.apps[uid].stored.inventory, a.refs) ==>
              Run(patch, w, es).cluster == Settled(patch, w.cluster, w.apps[uid].stored.inventory, uid, a)
  {
    var front, last := es[..|es| - 1], es[|es| - 1];
    assert es == front + [last];
    RunOne(patch, w, front, last);
    assert Solo(front, uid, a) by {
      assert forall e :: e in front ==> e in es;
    }
    hide KeepsMetadata, LedgerInv, Solo, Run, Admissible, Stale, Settled, Repeatable, NoVersionAlias, Owned;
    PruneLeavesExactly(patch, w, front, uid, a, last);
    if Repeatable(patch, uid, a) && NoVersionAlias(w.apps[uid].stored.inventory, a.refs) {
      RetriesConverge(patch, w, front, uid, a, last);
    }
  }

  /** And with others at work, as long as they share no identity with this application: the same settled objects. */
  lemma SuccessfulReconcileAmongOthers(patch: PatchFn, w: World, es: seq<Event>, uid: string, a: Attempt, ids: set<Identity>)
    requires LedgerInv(w) && Apart(w, uid, a, ids) && w.apps[uid].phase.Idle?
    requires Repeatable(patch, uid, a) && NoVersionAlias(w.apps[uid].stored.inventory, a.refs)
    requires Admissible(patch, w, es) && Mine(es, uid, a, false) && EndsInSuccess(patch, w, es, uid)
    requires forall e :: e in es && IsOthers(e, uid) ==> Elsewhere(e, uid, ids)
    ensures uid in Run(patch, w, es).apps && IsNormalization(Run(patch, w, es).apps[uid].stored.inventory, a.refs)
    ensures forall id :: id in ids ==>
              Get(Run(patch, w, es).cluster, id) == Get(Settled(patch, w.cluster, w.apps[uid].stored.inventory, uid, a), id)
  {
    hide LedgerInv, Run, Admissible, Settled, Repeatable, NoVersionAlias, Apart, Mine, Enabled, Next, IsOthers, Elsewhere, Among, Get;
    var front, last := es[..|es| - 1], es[|es| - 1];
    assert es == front + [last];
    MineIsAmong(es, uid, a, ids);
    FrontIsAmong(front, last, uid, a, ids);
    RunOne(patch, w, front, last);
    RetriesConvergeAmongOthers(patch, w, front, uid, a, ids, last);
  }

  lemma MineIsAmong(es: seq<Event>, uid: string, a: Attempt, ids: set<Identity>)
    requires Mine(es, uid, a, false) && forall e :: e in es && IsOthers(e, uid) ==> Elsewhere(e, uid, ids)
    ensures Among(es, uid, a, ids)
  {
    hide SoloEvent, Elsewhere;
  }

  lemma FrontIsAmong(front: seq<Event>, last: Event, uid: string, a: Attempt, ids: set<Identity>)
    requires Among(front + [last], uid, a, ids)
    ensures Among(front, uid, a, ids)
  {
    hide SoloEvent, Elsewhere;
    assert forall e :: e in front ==> e in front + [last];
  }
}
