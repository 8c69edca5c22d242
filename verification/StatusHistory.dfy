/** What the stored status can say after any sequence of successes, failures, suspensions and lost replies. */
module StatusHistory {
  import opened ResourceReferences
  import opened Inventory
  import opened Clusters
  import opened AppStatus
  import opened Protocol

  predicate Active(app: App) {
    app.phase.Applying? || app.phase.Pruning? || app.phase.Deleting? || app.phase.Finishing?
  }

  /** Before the success patch the status in memory differs from the stored one in the attempted revision only. */
  predicate MemoryTracks(app: App) {
    && (Active(app) ==> app.memory == app.stored.(attemptedRevision := app.attempt.revision))
    && (app.phase.Failing? ==> app.memory.conditions == app.stored.conditions || IsTrue(app.memory.conditions, "Ready"))
    && (app.phase.Failing? ==> UniqueTypes(app.memory.conditions))
  }

  predicate StatusInv(app: App) {
    && MemoryTracks(app)
    && (app.stored.inventory, app.stored.appliedRevision) == app.recorded
    && UniqueTypes(app.stored.conditions)
    && Coherent(app.stored.conditions)
    && (IsTrue(app.stored.conditions, "Ready") ==> app.lastWrite == WroteSuccess)
  }

  ghost predicate StatusesInv(w: World) {
    forall uid :: uid in w.apps ==> StatusInv(w.apps[uid])
  }

  lemma RecordSuccessKeepsStatus(app: App, reply: Reply, inventory: seq<ResourceReference>, generation: int, now: nat)
    requires StatusInv(app) && app.phase.Finishing?
    ensures StatusInv(AfterRecordSuccess(app, reply, inventory, generation, now))
    ensures AfterRecordSuccess(app, reply, inventory, generation, now).stored.attemptedRevision == app.stored.attemptedRevision
  {
    SuccessConditions(app.memory, app.attempt.revision, inventory, generation, now);
    hide SetCondition, Find, UniqueTypes;
  }

  lemma FailureTouchesConditionsOnly(s: Status, stalled: bool, reason: string, message: string, generation: int, now: nat)
    ensures var t := Failure(s, stalled, reason, message, generation, now);
            && t.inventory == s.inventory && t.appliedRevision == s.appliedRevision
            && t.attemptedRevision == s.attemptedRevision && t.lastSuccessTime == s.lastSuccessTime
  {
  }

  lemma FailurePatch(app: App, memory: Status)
    requires app.memory.conditions == app.stored.conditions || IsTrue(app.memory.conditions, "Ready")
    requires !IsTrue(memory.conditions, "Ready")
    requires memory.inventory == app.memory.inventory && memory.appliedRevision == app.memory.appliedRevision
    requires memory.attemptedRevision == app.memory.attemptedRevision
    ensures var s := Merge(app.stored, MergeFrom(app.memory, memory));
            && s.conditions == memory.conditions && s.inventory == app.stored.inventory
            && s.appliedRevision == app.stored.appliedRevision && s.attemptedRevision == app.stored.attemptedRevision
  {
    hide IsTrue;
    assert memory.conditions != app.memory.conditions || app.memory.conditions == app.stored.conditions;
  }

  lemma RecordFailureKeepsStored(app: App, reply: Reply, reason: string, message: string, generation: int, now: nat)
    requires MemoryTracks(app) && app.phase.Failing?
    ensures var app' := AfterRecordFailure(app, reply, reason, message, generation, now);
            && app'.phase.Idle? && app'.recorded == app.recorded
            && app'.memory == Failure(app.memory, app.phase.stalled, reason, message, generation, now)
            && app'.stored.inventory == app.stored.inventory && app'.stored.appliedRevision == app.stored.appliedRevision
            && app'.stored.attemptedRevision == app.stored.attemptedRevision
            && (reply.Refused? ==> app'.stored == app.stored && app'.lastWrite == app.lastWrite)
            && (!reply.Refused? ==> app'.stored.conditions == app'.memory.conditions && app'.lastWrite == WroteFailure)
  {
    FailureConditions(app.memory, app.phase.stalled, reason, message, generation, now);
    FailureTouchesConditionsOnly(app.memory, app.phase.stalled, reason, message, generation, now);
    hide Failure, UniqueTypes, IsTrue, Merge, MergeFrom;
    FailurePatch(app, Failure(app.memory, app.phase.stalled, reason, message, generation, now));
  }

  lemma RecordFailureKeepsStatus(app: App, reply: Reply, reason: string, message: string, generation: int, now: nat)
    requires StatusInv(app) && app.phase.Failing?
    ensures StatusInv(AfterRecordFailure(app, reply, reason, message, generation, now))
  {
    RecordFailureKeepsStored(app, reply, reason, message, generation, now);
    FailureConditions(app.memory, app.phase.stalled, reason, message, generation, now);
    NotReadyIsCoherent(Failure(app.memory, app.phase.stalled, reason, message, generation, now).conditions);
    hide Failure, UniqueTypes, IsTrue, Coherent, AfterRecordFailure;
  }

  lemma NotReadyIsCoherent(cs: seq<Condition>)
    ensures !IsTrue(cs, "Ready") ==> Coherent(cs)
  {
  }

  lemma SuspendKeepsStatus(app: App, reply: Reply, generation: int, now: nat)
    requires StatusInv(app) && app.phase.Idle?
    ensures StatusInv(AfterSuspend(app, reply, generation, now))
    ensures AfterSuspend(app, reply, generation, now).stored.attemptedRevision == app.stored.attemptedRevision
  {
    SuspendedConditions(app.stored, generation, now);
    NotReadyIsCoherent(Suspended(app.stored, generation, now).conditions);
    hide SetCondition, Find, UniqueTypes, Coherent;
  }

  lemma StepKeepsStatus(w: World, e: Event)
    requires StatusesInv(w) && Enabled(w, e) && !e.Outsider?
    ensures StatusInv(NextApp(w, e))
    ensures NextApp(w, e).stored.attemptedRevision == w.apps[e.uid].stored.attemptedRevision
  {
    var app := w.apps[e.uid];
    assert StatusInv(app);
    match e
    case Suspend(_, reply, generation, now) => SuspendKeepsStatus(app, reply, generation, now);
    case RecordSuccess(_, reply, inventory, generation, now) => RecordSuccessKeepsStatus(app, reply, inventory, generation, now);
    case RecordFailure(_, reply, reason, message, generation, now) =>
      RecordFailureKeepsStatus(app, reply, reason, message, generation, now);
      RecordFailureKeepsStored(app, reply, reason, message, generation, now);
    case _ =>
      hide Coherent, UniqueTypes, Stale, IsTrue;
  }

  /** Over every run: each condition type occurs once; Ready=True implies not stalled, not reconciling and that the last
      write was a success; and inventory and applied revision are those of one and the same recorded success. */
  lemma {:induction false} StatusHoldsInEveryRun(patch: PatchFn, w: World, es: seq<Event>)
    requires StatusesInv(w) && Admissible(patch, w, es)
    ensures StatusesInv(Run(patch, w, es))
    ensures Run(patch, w, es).apps.Keys == w.apps.Keys
    ensures forall uid :: uid in w.apps ==>
              Run(patch, w, es).apps[uid].stored.attemptedRevision == w.apps[uid].stored.attemptedRevision
    decreases |es|
  {
    hide StatusInv;
    if es != [] {
      var w' := Next(patch, w, es[0]);
      if !es[0].Outsider? {
        StepKeepsStatus(w, es[0]);
      }
      StatusHoldsInEveryRun(patch, w', es[1..]);
    }
  }

  /** The documented status.attemptedRevision is never persisted: no run of any length changes the stored one. */
  lemma AttemptedRevisionIsNeverStored(patch: PatchFn, w: World, es: seq<Event>, uid: string)
    requires StatusesInv(w) && Admissible(patch, w, es) && uid in w.apps
    ensures uid in Run(patch, w, es).apps
    ensures Run(patch, w, es).apps[uid].stored.attemptedRevision == w.apps[uid].stored.attemptedRevision
  {
    StatusHoldsInEveryRun(patch, w, es);
  }

  lemma SuccessPair(app: App, reply: Reply, inventory: seq<ResourceReference>, generation: int, now: nat)
    requires StatusInv(app) && app.phase.Finishing?
    ensures var app' := AfterRecordSuccess(app, reply, inventory, generation, now);
            (app'.stored.inventory, app'.stored.appliedRevision) ==
            if reply.Refused? then (app.stored.inventory, app.stored.appliedRevision) else (inventory, app.attempt.revision)
  {
    hide SetCondition, Find, UniqueTypes, Coherent;
  }

  lemma OtherEventsKeepPair(w: World, e: Event)
    requires StatusesInv(w) && Enabled(w, e) && !e.Outsider? && !e.RecordSuccess?
    ensures NextApp(w, e).stored.inventory == w.apps[e.uid].stored.inventory
    ensures NextApp(w, e).stored.appliedRevision == w.apps[e.uid].stored.appliedRevision
  {
    var app := w.apps[e.uid];
    assert StatusInv(app);
    match e
    case RecordFailure(_, reply, reason, message, generation, now) =>
      RecordFailureKeepsStored(app, reply, reason, message, generation, now);
      hide StatusInv, AfterRecordFailure;
    case _ =>
      hide Coherent, UniqueTypes, Stale, IsTrue, SetCondition;
  }

  /** Stored inventory and applied revision change only when a success patch lands, and then both to that attempt's values. */
  lemma PairChangesTogether(patch: PatchFn, w: World, es: seq<Event>, e: Event, uid: string)
    requires StatusesInv(w) && Admissible(patch, w, es) && Enabled(Run(patch, w, es), e) && uid in Run(patch, w, es).apps
    ensures var was, now := Run(patch, w, es).apps[uid], Next(patch, Run(patch, w, es), e).apps[uid];
            (now.stored.inventory, now.stored.appliedRevision) ==
            if e.RecordSuccess? && e.uid == uid && !e.reply.Refused? then (e.inventory, was.attempt.revision)
            else (was.stored.inventory, was.stored.appliedRevision)
  {
    StatusHoldsInEveryRun(patch, w, es);
    var v := Run(patch, w, es);
    hide StatusInv, AfterRecordSuccess, AfterRecordFailure, AfterSuspend, Run, Admissible, NextCluster;
    if !e.Outsider? && e.uid == uid {
      OwnStepChangesPair(v, e);
    }
    hide NextApp, Enabled;
  }

  lemma OwnStepChangesPair(w: World, e: Event)
    requires StatusesInv(w) && Enabled(w, e) && !e.Outsider?
    ensures var was, now := w.apps[e.uid], NextApp(w, e);
            (now.stored.inventory, now.stored.appliedRevision) ==
            if e.RecordSuccess? && !e.reply.Refused? then (e.inventory, was.attempt.revision)
            else (was.stored.inventory, was.stored.appliedRevision)
  {
    hide StatusInv, AfterRecordSuccess, AfterRecordFailure, AfterSuspend;
    assert StatusInv(w.apps[e.uid]);
    if e.RecordSuccess? {
      SuccessPair(w.apps[e.uid], e.reply, e.inventory, e.generation, e.now);
    } else {
      OtherEventsKeepPair(w, e);
      hide NextApp;
    }
  }

  /** A success patch that does not land, followed by the failure path: memory has the new values, the store keeps the old. */
  lemma RefusedSuccessKeepsStoredPair(patch: PatchFn, w: World, lost: Event, after: Event)
    requires StatusesInv(w) && Enabled(w, lost) && lost.RecordSuccess? && lost.reply.Refused?
    requires Enabled(Next(patch, w, lost), after) && after.RecordFailure? && after.uid == lost.uid
    ensures var was, now := w.apps[lost.uid], Next(patch, Next(patch, w, lost), after).apps[lost.uid];
            && now.memory.inventory == lost.inventory && now.memory.appliedRevision == was.attempt.revision
            && now.stored.inventory == was.stored.inventory && now.stored.appliedRevision == was.stored.appliedRevision
            && (!after.reply.Refused? ==> !IsTrue(now.stored.conditions, "Ready") && now.lastWrite == WroteFailure)
  {
    var app := w.apps[lost.uid];
    assert StatusInv(app);
    RecordSuccessKeepsStatus(app, lost.reply, lost.inventory, lost.generation, lost.now);
    var mid := AfterRecordSuccess(app, lost.reply, lost.inventory, lost.generation, lost.now);
    RecordFailureKeepsStored(mid, after.reply, after.reason, after.message, after.generation, after.now);
    FailureConditions(mid.memory, mid.phase.stalled, after.reason, after.message, after.generation, after.now);
    FailureTouchesConditionsOnly(mid.memory, mid.phase.stalled, after.reason, after.message, after.generation, after.now);
    hide Failure, Find, UniqueTypes, Coherent, SetCondition, AfterRecordFailure;
  }
}
