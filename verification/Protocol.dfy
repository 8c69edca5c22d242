/** Reconciliation as a step machine: any number of applications and outside actors share one cluster. */
module Protocol {
  import opened Outcomes
  import opened ResourceReferences
  import opened Inventory
  import opened Manifests
  import opened Clusters
  import opened AppStatus

  /** What one run has computed when it starts to write. */
  datatype Attempt = Attempt(revision: string, prune: bool, plan: seq<Planned>, refs: seq<ResourceReference>)

  function PlanRefs(plan: seq<Planned>): (r: seq<ResourceReference>)
    ensures |r| == |plan| && forall i :: 0 <= i < |plan| ==> r[i] == plan[i].ref
  {
    seq(|plan|, i requires 0 <= i < |plan| => plan[i].ref)
  }

  /** What NormalizeAndValidate hands on: stamped objects, and the references of exactly these objects. */
  ghost predicate Proper(uid: string, a: Attempt) {
    && (forall p :: p in a.plan ==> Stamped(p.manifest, uid, a.revision))
    && (forall p :: p in a.plan ==> p.ref in a.refs)
    && (forall r :: r in a.refs ==> r in PlanRefs(a.plan))
    && AllWellFormed(a.refs)
  }

  datatype Phase =
    | Idle
    | Applying(next: nat)
    | Pruning(next: nat)
    | Deleting(next: nat, found: Live)
    | Finishing
    | Failing(stalled: bool)

  datatype Write = NoWrite | WroteSuccess | WroteFailure | WroteSuspended

  /** One application: what the API server stores for it, and its current run. The last four fields only record history. */
  datatype App = App(
    stored: Status,
    phase: Phase, attempt: Attempt, memory: Status, stale: seq<ResourceReference>,
    touched: set<Identity>,
    orphans: set<Identity>,
    recorded: (seq<ResourceReference>, string),
    lastWrite: Write)

  /** lastApplier records which application last applied each identity. */
  datatype World = World(cluster: Cluster, apps: map<string, App>, lastApplier: map<Identity, string>)

  /** What can become of an API call: it takes effect, it does not, or it does and the caller sees an error. */
  datatype Reply = Done | Refused | DoneUnacknowledged

  datatype Event =
    | Begin(uid: string, attempt: Attempt)
    | BeginFails(uid: string, attempted: Option<string>, stalled: bool)
    | Suspend(uid: string, reply: Reply, generation: int, now: nat)
    | Patch(uid: string, reply: Reply)
    | ApplyEnds(uid: string)
    | Fetch(uid: string, answered: bool)
    | Delete(uid: string, reply: Reply)
    | PruneEnds(uid: string)
    | RecordSuccess(uid: string, reply: Reply, inventory: seq<ResourceReference>, generation: int, now: nat)
    | RecordFailure(uid: string, reply: Reply, reason: string, message: string, generation: int, now: nat)
    | Crash(uid: string)
    | Outsider(id: Identity, found: Option<Live>)

  /** Hands an application's ownership to an object that does not have it. Short of that outsiders may do anything: change,
      strip, relabel with any other UID or none, or delete. */
  predicate Forges(w: World, id: Identity, live: Live) {
    && Lookup(live.labels, MANAGED_BY_LABEL) == MANAGED_BY_VALUE
    && Lookup(live.annotations, APPLICATION_UID_ANNO) in w.apps
    && !OwnedIn(w.cluster, id, Lookup(live.annotations, APPLICATION_UID_ANNO))
  }

  ghost predicate Enabled(w: World, e: Event) {
    if e.Outsider? then e.found.Some? ==> !Forges(w, e.id, e.found.value)
    else
      && e.uid in w.apps
      && var app := w.apps[e.uid];
      match e
      case Begin(uid, attempt) => app.phase.Idle? && Proper(uid, attempt)
      case BeginFails(_, _, _) => app.phase.Idle?
      case Suspend(_, _, _, _) => app.phase.Idle?
      case Patch(_, _) => app.phase.Applying? && app.phase.next < |app.attempt.plan|
      case ApplyEnds(_) => app.phase.Applying? && app.phase.next == |app.attempt.plan|
      case Fetch(_, _) => app.phase.Pruning? && app.phase.next < |app.stale|
      case Delete(_, reply) =>
        && app.phase.Deleting? && app.phase.next < |app.stale|
        && (reply.Refused? || app.stale[app.phase.next].Id() in w.cluster)
      case PruneEnds(_) => app.phase.Pruning? && app.phase.next == |app.stale|
      case RecordSuccess(_, _, inventory, _, _) => app.phase.Finishing? && IsNormalization(inventory, app.attempt.refs)
      case RecordFailure(_, _, _, _, _, _) => app.phase.Failing?
      case Crash(_) => true
  }

  /** The run is over without a recorded success: what it applied outside the inventory is orphaned. */
  function Abandon(app: App): App {
    app.(phase := Idle, touched := {}, orphans := (app.orphans + app.touched) - Identities(app.stored.inventory))
  }

  /** What the success patch leaves behind; a reply that got lost sends the run on to its failure path. */
  function AfterRecordSuccess(app: App, reply: Reply, inventory: seq<ResourceReference>, generation: int, now: nat): App {
    var memory := Success(app.memory, app.attempt.revision, inventory, generation, now);
    if reply.Refused? then app.(memory := memory, phase := Failing(false))
    else
      var dropped := if app.attempt.prune then {} else Identities(app.stored.inventory);
      app.(memory := memory,
           stored := Merge(app.stored, MergeFrom(app.memory, memory)),
           phase := if reply.Done? then Idle else Failing(false),
           touched := {},
           orphans := (app.orphans + dropped) - Identities(inventory),
           recorded := (inventory, app.attempt.revision),
           lastWrite := WroteSuccess)
  }

  function AfterRecordFailure(app: App, reply: Reply, reason: string, message: string, generation: int, now: nat): App
    requires app.phase.Failing?
  {
    var memory := Failure(app.memory, app.phase.stalled, reason, message, generation, now);
    var app' := Abandon(app.(memory := memory));
    if reply.Refused? then app'
    else app'.(stored := Merge(app.stored, MergeFrom(app.memory, memory)), lastWrite := WroteFailure)
  }

  function AfterSuspend(app: App, reply: Reply, generation: int, now: nat): App {
    var memory := Suspended(app.stored, generation, now);
    if reply.Refused? then app.(memory := memory)
    else app.(memory := memory, stored := Merge(app.stored, MergeFrom(app.stored, memory)), lastWrite := WroteSuspended)
  }

  function NextApp(w: World, e: Event): App
    requires Enabled(w, e) && !e.Outsider?
  {
    var app := w.apps[e.uid];
    match e
    case Begin(_, attempt) =>
      app.(phase := Applying(0), attempt := attempt, memory := app.stored.(attemptedRevision := attempt.revision), stale := [])
    case BeginFails(_, attempted, stalled) =>
      app.(phase := Failing(stalled),
           memory := if attempted.Some? then app.stored.(attemptedRevision := attempted.value) else app.stored)
    case Suspend(_, reply, generation, now) => AfterSuspend(app, reply, generation, now)
    case Patch(_, reply) =>
      var id := app.attempt.plan[app.phase.next].ref.Id();
      app.(phase := if reply.Done? then Applying(app.phase.next + 1) else Failing(false),
           touched := if reply.Refused? then app.touched else app.touched + {id})
    case ApplyEnds(_) =>
      if app.attempt.prune then app.(phase := Pruning(0), stale := Stale(app.memory.inventory, app.attempt.refs))
      else app.(phase := Finishing)
    case Fetch(uid, answered) =>
      var id := app.stale[app.phase.next].Id();
      app.(phase := if !answered then Failing(false)
                    else if OwnedIn(w.cluster, id, uid) then Deleting(app.phase.next, w.cluster[id])
                    else Pruning(app.phase.next + 1))
    case Delete(_, reply) =>
      app.(phase := if reply.Done? then Pruning(app.phase.next + 1) else Failing(false))
    case PruneEnds(_) => app.(phase := Finishing)
    case RecordSuccess(_, reply, inventory, generation, now) => AfterRecordSuccess(app, reply, inventory, generation, now)
    case RecordFailure(_, reply, reason, message, generation, now) => AfterRecordFailure(app, reply, reason, message, generation, now)
    case Crash(_) => Abandon(app)
  }

  function NextCluster(patch: PatchFn, w: World, e: Event): Cluster
    requires Enabled(w, e)
  {
    match e
    case Patch(uid, reply) =>
      if reply.Refused? then w.cluster else ApplyOne(patch, w.cluster, w.apps[uid].attempt.plan[w.apps[uid].phase.next])
    case Delete(uid, reply) =>
      if reply.Refused? then w.cluster else w.cluster - {w.apps[uid].stale[w.apps[uid].phase.next].Id()}
    case Outsider(id, found) =>
      if found.Some? then w.cluster[id := found.value] else w.cluster - {id}
    case _ => w.cluster
  }

  function Next(patch: PatchFn, w: World, e: Event): World
    requires Enabled(w, e)
  {
    World(
      NextCluster(patch, w, e),
      if e.Outsider? then w.apps else w.apps[e.uid := NextApp(w, e)],
      if Lands(w, e).Some? then w.lastApplier[Lands(w, e).value := e.uid] else w.lastApplier)
  }

  /** The identity an apply patch takes effect on, if this event is one. */
  function Lands(w: World, e: Event): Option<Identity>
    requires Enabled(w, e)
    ensures Lands(w, e).Some? ==> e.Patch?
  {
    if e.Patch? && !e.reply.Refused? then Some(w.apps[e.uid].attempt.plan[w.apps[e.uid].phase.next].ref.Id()) else None
  }

  /** Every step of the sequence is possible when its turn comes. */
  ghost predicate Admissible(patch: PatchFn, w: World, es: seq<Event>)
    decreases |es|
  {
    es == [] || (Enabled(w, es[0]) && Admissible(patch, Next(patch, w, es[0]), es[1..]))
  }

  function Run(patch: PatchFn, w: World, es: seq<Event>): World
    requires Admissible(patch, w, es)
    decreases |es|
  {
    if es == [] then w else Run(patch, Next(patch, w, es[0]), es[1..])
  }

  lemma {:induction false} RunSplits(patch: PatchFn, w: World, es: seq<Event>, more: seq<Event>)
    requires Admissible(patch, w, es)
    ensures Admissible(patch, w, es + more) <==> Admissible(patch, Run(patch, w, es), more)
    ensures Admissible(patch, w, es + more) ==> Run(patch, w, es + more) == Run(patch, Run(patch, w, es), more)
    decreases |es|
  {
    if es == [] {
      assert [] + more == more;
    } else {
      assert (es + more)[0] == es[0] && (es + more)[1..] == es[1..] + more;
      RunSplits(patch, Next(patch, w, es[0]), es[1..], more);
    }
  }

  lemma RunOne(patch: PatchFn, w: World, es: seq<Event>, e: Event)
    requires Admissible(patch, w, es) && Enabled(Run(patch, w, es), e)
    ensures Admissible(patch, w, es + [e])
    ensures Run(patch, w, es + [e]) == Next(patch, Run(patch, w, es), e)
  {
    RunSplits(patch, w, es, [e]);
    var v := Run(patch, w, es);
    assert [e][1..] == [];
    assert Admissible(patch, Next(patch, v, e), []);
    assert Admissible(patch, v, [e]);
    assert Run(patch, v, [e]) == Next(patch, v, e);
  }
}
