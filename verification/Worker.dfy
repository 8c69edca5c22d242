/** cmd/main.go: the workers, the informer and the timers around one work queue. */
module Workers {
  import opened Outcomes
  import opened Text
  import opened WorkQueues

  datatype ObjectName = ObjectName(namespace: string, name: string)

  /** MetaNamespaceKeyFunc. */
  function KeyOf(o: ObjectName): string {
    if o.namespace == "" then o.name else o.namespace + "/" + o.name
  }

  /** SplitMetaNamespaceKey: at most one slash. */
  function SplitKey(key: string): Option<ObjectName> {
    var parts := Split(key, '/');
    if |parts| == 1 then Some(ObjectName("", parts[0]))
    else if |parts| == 2 then Some(ObjectName(parts[0], parts[1]))
    else None
  }

  /** The key a handler enqueues leads the worker back to the object. */
  lemma KeySplitsBack(o: ObjectName)
    requires '/' !in o.namespace && '/' !in o.name
    ensures SplitKey(KeyOf(o)) == Some(o)
  {
    if o.namespace != "" {
      SplitCut(o.namespace, '/', o.name);
      assert Split(o.name, '/') == [o.name];
    }
  }

  /** How a call of Reconcile ends: a result, an error that is or is not context.Canceled, a panic. */
  datatype Outcome = Finished(after: int, requeue: bool) | Failed(cancellation: bool) | Panicked

  /** What the worker puts back for an outcome, before its deferred Done. `canceled` is what it saw of its context. */
  function Readd(q: Queue, key: string, o: Outcome, canceled: bool): Queue {
    match o
    case Finished(after, requeue) =>
      if after > 0 then q.AddAfter(key, after) else if requeue then q.AddRateLimited(key) else q
    case Failed(cancellation) => if cancellation || canceled then q else q.AddRateLimited(key)
    case Panicked => q.AddRateLimited(key)
  }

  // The protocol

  /** seen is what Reconcile's read of the application found: whether it exists and is not being deleted. */
  datatype Step = Idle | Working(key: string, seen: Option<bool>) | Finishing(key: string) | Stopped

  /** live is the set of keys of existing applications that are not being deleted, pending the informer events not yet handled. */
  datatype World = World(live: set<string>, pending: multiset<string>, q: Queue, workers: map<nat, Step>, canceled: bool)

  datatype Event =
    | Create(key: string)
    | Retire(key: string)
    | Touch(key: string)
    | Deliver(key: string)
    | Fire(key: string)
    | Cancel
    | ShutDown
    | Take(worker: nat, key: string)
    | Read(worker: nat)
    | Finish(worker: nat, outcome: Outcome, canceled: bool)
    | Done(worker: nat)
    | Stop(worker: nat)

  predicate Busy(s: Step) {
    s.Working? || s.Finishing?
  }

  predicate At(w: World, worker: nat, busy: bool) {
    worker in w.workers && Busy(w.workers[worker]) == busy
  }

  /** Reconcile returns without error only after its read, and for an application it found it always asks to come back:
      the interval of a valid spec and the suspend interval are positive. What the worker sees of its context may be out of
      date, but only in that a cancellation is missed. */
  predicate Enabled(w: World, e: Event) {
    match e
    case Create(key) => key !in w.live && SplitKey(key).Some?
    case Retire(key) => key in w.live
    case Touch(key) => true
    case Deliver(key) => key in w.pending
    case Fire(key) => key in w.q.delayed
    case Cancel => true
    case ShutDown => w.canceled
    case Take(worker, key) => worker in w.workers && w.workers[worker].Idle? && w.q.items != [] && w.q.items[0] == key
    case Read(worker) => worker in w.workers && w.workers[worker].Working? && w.workers[worker].seen.None?
    case Finish(worker, o, canceled) =>
      && worker in w.workers && w.workers[worker].Working? && (canceled ==> w.canceled)
      && var seen := w.workers[worker].seen;
         o.Finished? ==> seen.Some? && (seen.value ==> o.after > 0 || o.requeue)
    case Done(worker) =>
      worker in w.workers && w.workers[worker].Finishing? && w.workers[worker].key in w.q.processing
    case Stop(worker) => worker in w.workers && w.workers[worker].Idle? && w.canceled
  }

  function Next(w: World, e: Event): World
    requires Enabled(w, e)
  {
    match e
    case Create(key) => w.(live := w.live + {key}, pending := w.pending + multiset{key})
    case Retire(key) => w.(live := w.live - {key}, pending := w.pending + multiset{key})
    case Touch(key) => w.(pending := w.pending + multiset{key})
    case Deliver(key) => w.(pending := w.pending - multiset{key}, q := w.q.Add(key))
    case Fire(key) => w.(q := w.q.Fire(key))
    case Cancel => w.(canceled := true)
    case ShutDown => w.(q := w.q.ShutDown())
    case Take(worker, key) => w.(q := w.q.Get(), workers := w.workers[worker := Working(key, None)])
    case Read(worker) =>
      var key := w.workers[worker].key;
      w.(workers := w.workers[worker := Working(key, Some(key in w.live))])
    case Finish(worker, o, canceled) =>
      var key := w.workers[worker].key;
      w.(q := Readd(w.q, key, o, canceled), workers := w.workers[worker := Finishing(key)])
    case Done(worker) =>
      w.(q := w.q.Done(w.workers[worker].key), workers := w.workers[worker := Idle])
    case Stop(worker) => w.(workers := w.workers[worker := Stopped])
  }

  predicate Admissible(w: World, es: seq<Event>)
    decreases |es|
  {
    es == [] || (Enabled(w, es[0]) && Admissible(Next(w, es[0]), es[1..]))
  }

  function Run(w: World, es: seq<Event>): World
    requires Admissible(w, es)
    decreases |es|
  {
    if es == [] then w else Run(Next(w, es[0]), es[1..])
  }

  /** A process as it starts: the informer will report every application there is. */
  function Start(live: set<string>, workers: set<nat>): World {
    World(live, multiset(live), EMPTY, map worker | worker in workers :: Idle, false)
  }

  // What every step keeps

  ghost predicate Inv(w: World) {
    && w.q.Valid()
    && (w.q.shuttingDown ==> w.canceled)
    && (forall key :: key in w.live ==> SplitKey(key).Some?)
    && (forall v :: At(w, v, true) ==> w.workers[v].key in w.q.processing)
    && (forall v, u :: At(w, v, true) && At(w, u, true) && v != u ==> w.workers[v].key != w.workers[u].key)
  }

  /** A worker has the key and has not been told that the application is gone. */
  ghost predicate OnDuty(workers: map<nat, Step>, key: string) {
    exists v :: v in workers && workers[v].Working? && workers[v].key == key && workers[v].seen != Some(false)
  }

  ghost predicate Kept(w: World, key: string) {
    w.q.Scheduled(key) || key in w.pending || OnDuty(w.workers, key)
  }

  ghost predicate Covered(w: World) {
    forall key :: key in w.live ==> Kept(w, key)
  }

  /** The one way to lose an application: context.Canceled from somewhere else, with nothing else about to bring the key back. */
  predicate Loses(w: World, e: Event) {
    && e.Finish? && e.outcome == Failed(true)
    && e.worker in w.workers && w.workers[e.worker].Working?
    && var key := w.workers[e.worker].key;
    && key in w.live && !w.q.Scheduled(key) && key !in w.pending
  }

  lemma ReaddKeepsValid(q: Queue, key: string, o: Outcome, canceled: bool)
    requires q.Valid()
    ensures Readd(q, key, o, canceled).Valid()
    ensures Readd(q, key, o, canceled).processing == q.processing
    ensures Readd(q, key, o, canceled).shuttingDown == q.shuttingDown
    ensures !q.shuttingDown ==> forall k :: q.Scheduled(k) ==> Readd(q, key, o, canceled).Scheduled(k)
  {
  }

  lemma StepKeepsInv(w: World, e: Event)
    requires Inv(w) && Enabled(w, e)
    ensures Inv(Next(w, e))
  {
    hide At, Readd, SplitKey;
    StepKeepsWorkers(w, e);
    match e
    case Take(_, _) => GetKeepsValid(w.q);
    case Finish(worker, o, canceled) => ReaddKeepsValid(w.q, w.workers[worker].key, o, canceled);
    case Done(worker) => DoneKeepsValid(w.q, w.workers[worker].key);
    case _ =>
  }

  lemma StepKeepsWorkers(w: World, e: Event)
    requires Inv(w) && Enabled(w, e)
    ensures var w' := Next(w, e);
            && (forall v :: At(w', v, true) ==> w'.workers[v].key in w'.q.processing)
            && (forall v, u :: At(w', v, true) && At(w', u, true) && v != u ==> w'.workers[v].key != w'.workers[u].key)
  {
    match e {
      case Take(_, _) => GetKeepsValid(w.q);
      case Finish(worker, o, canceled) => ReaddKeepsValid(w.q, w.workers[worker].key, o, canceled);
      case Done(worker) => assert At(w, worker, true);
      case _ =>
    }
    var w' := Next(w, e);
    hide Readd, SplitKey;
    assert forall v :: At(w', v, true) && (e.Take? ==> v != e.worker) ==> At(w, v, true) && w'.workers[v].key == w.workers[v].key;
  }

  lemma DutyElsewhere(workers: map<nat, Step>, v: nat, s: Step, key: string)
    requires OnDuty(workers, key)
    requires v in workers && workers[v].Working? && workers[v].seen != Some(false) ==> workers[v].key != key
    ensures OnDuty(workers[v := s], key)
  {
    var u :| u in workers && workers[u].Working? && workers[u].key == key && workers[u].seen != Some(false);
    assert workers[v := s][u] == workers[u];
  }

  lemma DutyTaken(workers: map<nat, Step>, v: nat, key: string, seen: Option<bool>)
    requires seen != Some(false)
    ensures OnDuty(workers[v := Working(key, seen)], key)
  {
    assert v in workers[v := Working(key, seen)];
  }

  lemma TakeKeeps(w: World, e: Event, key: string)
    requires Inv(w) && Enabled(w, e) && e.Take? && Kept(w, key)
    ensures Kept(Next(w, e), key)
  {
    if key == w.q.items[0] {
      DutyTaken(w.workers, e.worker, key, None);
    } else if OnDuty(w.workers, key) {
      DutyElsewhere(w.workers, e.worker, Working(w.q.items[0], None), key);
    }
  }

  lemma ReadKeeps(w: World, e: Event, key: string)
    requires Inv(w) && Enabled(w, e) && e.Read? && key in w.live && Kept(w, key)
    ensures Kept(Next(w, e), key)
  {
    if key == w.workers[e.worker].key {
      DutyTaken(w.workers, e.worker, key, Some(true));
    } else if OnDuty(w.workers, key) {
      DutyElsewhere(w.workers, e.worker, Next(w, e).workers[e.worker], key);
    }
  }

  lemma DoneKeeps(w: World, e: Event, key: string)
    requires Inv(w) && Enabled(w, e) && e.Done? && Kept(w, key)
    ensures Kept(Next(w, e), key)
  {
    if OnDuty(w.workers, key) {
      DutyElsewhere(w.workers, e.worker, Next(w, e).workers[e.worker], key);
    }
  }

  lemma FinishKeepsExactly(w: World, e: Event, key: string)
    requires Inv(w) && Enabled(w, e) && e.Finish? && !w.canceled && key in w.live && Kept(w, key)
    ensures Kept(Next(w, e), key) <==> !(Loses(w, e) && key == w.workers[e.worker].key)
  {
    var mine := w.workers[e.worker].key;
    ReaddKeepsValid(w.q, mine, e.outcome, e.canceled);
    if key != mine {
      if OnDuty(w.workers, key) {
        DutyElsewhere(w.workers, e.worker, Finishing(mine), key);
      }
    } else {
      NoOtherDuty(w, e.worker);
      assert !OnDuty(Next(w, e).workers, key);
    }
  }

  lemma NoOtherDuty(w: World, v: nat)
    requires Inv(w) && At(w, v, true)
    ensures !OnDuty(w.workers[v := Finishing(w.workers[v].key)], w.workers[v].key)
  {
    forall u | u in w.workers && u != v && w.workers[u].Working?
      ensures w.workers[u].key != w.workers[v].key
    {
      assert At(w, u, true);
    }
  }

  /** While nobody cancels, a step keeps every live application on its way to a worker unless it is the losing one. */
  lemma StepCoversExactly(w: World, e: Event)
    requires Inv(w) && Covered(w) && Enabled(w, e) && !Next(w, e).canceled
    ensures Covered(Next(w, e)) <==> !Loses(w, e)
  {
    var w' := Next(w, e);
    forall key | key in w'.live
      ensures Kept(w', key) <==> !(Loses(w, e) && key == w.workers[e.worker].key)
    {
      assert key in w.live ==> Kept(w, key);
      match e
      case Take(_, _) => TakeKeeps(w, e, key);
      case Read(_) => ReadKeeps(w, e, key);
      case Finish(_, _, _) => FinishKeepsExactly(w, e, key);
      case Done(_) => DoneKeeps(w, e, key);
      case _ =>
    }
    if Loses(w, e) {
      assert w.workers[e.worker].key in w'.live;
    }
  }

  /** context.Canceled comes back only when the context is canceled. */
  ghost predicate Honest(w: World, es: seq<Event>)
    requires Admissible(w, es)
    decreases |es|
  {
    es != [] ==> (es[0].Finish? && es[0].outcome == Failed(true) ==> w.canceled) && Honest(Next(w, es[0]), es[1..])
  }

  lemma {:induction false} CanceledForever(w: World, es: seq<Event>)
    requires Admissible(w, es) && w.canceled
    ensures Run(w, es).canceled
    decreases |es|
  {
    if es != [] {
      CanceledForever(Next(w, es[0]), es[1..]);
    }
  }

  lemma {:induction false} InvHoldsInEveryRun(w: World, es: seq<Event>)
    requires Inv(w) && Admissible(w, es)
    ensures Inv(Run(w, es))
    decreases |es|
  {
    if es != [] {
      StepKeepsInv(w, es[0]);
      InvHoldsInEveryRun(Next(w, es[0]), es[1..]);
    }
  }

  lemma {:induction false} CoveredInEveryRun(w: World, es: seq<Event>)
    requires Inv(w) && Covered(w) && Admissible(w, es) && Honest(w, es) && !Run(w, es).canceled
    ensures Covered(Run(w, es))
    decreases |es|
  {
    if es != [] {
      var w' := Next(w, es[0]);
      if w'.canceled {
        CanceledForever(w', es[1..]);
      }
      StepKeepsInv(w, es[0]);
      StepCoversExactly(w, es[0]);
      CoveredInEveryRun(w', es[1..]);
    }
  }

  lemma StartIsCovered(live: set<string>, workers: set<nat>)
    requires forall key :: key in live ==> SplitKey(key).Some?
    ensures Inv(Start(live, workers)) && Covered(Start(live, workers))
  {
  }

  /** No live application is lost: until the context is canceled its key is queued, with a worker, waiting for a timer,
      or in an informer event still to be handled, in every state of every run of a process. */
  lemma NoLiveApplicationIsLost(live: set<string>, workers: set<nat>, es: seq<Event>, key: string)
    requires forall k :: k in live ==> SplitKey(k).Some?
    requires Admissible(Start(live, workers), es) && Honest(Start(live, workers), es)
    requires var w := Run(Start(live, workers), es); !w.canceled && key in w.live
    ensures var w := Run(Start(live, workers), es);
            key in w.q.dirty || key in w.q.processing || key in w.q.delayed || key in w.pending
  {
    var w0 := Start(live, workers);
    StartIsCovered(live, workers);
    CoveredInEveryRun(w0, es);
    InvHoldsInEveryRun(w0, es);
    var w := Run(w0, es);
    assert Kept(w, key);
    if OnDuty(w.workers, key) {
      var v :| v in w.workers && w.workers[v].Working? && w.workers[v].key == key;
      assert At(w, v, true);
    }
  }

  /** Reconciles of one application never overlap: at any time at most one worker has its key. */
  lemma OneWorkerPerApplication(live: set<string>, workers: set<nat>, es: seq<Event>, v: nat, u: nat)
    requires forall k :: k in live ==> SplitKey(k).Some?
    requires Admissible(Start(live, workers), es)
    requires At(Run(Start(live, workers), es), v, true) && At(Run(Start(live, workers), es), u, true)
    requires Run(Start(live, workers), es).workers[v].key == Run(Start(live, workers), es).workers[u].key
    ensures v == u
  {
    StartIsCovered(live, workers);
    InvHoldsInEveryRun(Start(live, workers), es);
  }

  lemma RunOne(w: World, e: Event, rest: seq<Event>, end: World)
    requires Enabled(w, e) && Admissible(Next(w, e), rest) && Run(Next(w, e), rest) == end
    ensures Admissible(w, [e] + rest) && Run(w, [e] + rest) == end
  {
    assert ([e] + rest)[1..] == rest;
  }

  /** One turn of a worker with nobody in between: four steps of the machine, the queue changing as the code changes it. */
  lemma TurnIsFourSteps(w: World, me: nat, o: Outcome)
    requires Inv(w) && me in w.workers && w.workers[me].Idle? && w.q.items != []
    requires o.Finished? && w.q.items[0] in w.live ==> o.after > 0 || o.requeue
    ensures Admissible(w, Steps(Turn(w.q.items[0], o, w.canceled, true), me))
    ensures var w' := Run(w, Steps(Turn(w.q.items[0], o, w.canceled, true), me));
            && w'.q == Turned(w.q, o, w.canceled) && w'.live == w.live && w'.pending == w.pending && w'.canceled == w.canceled
            && me in w'.workers && w'.workers[me] == Idle
  {
    var key := w.q.items[0];
    GetKeepsValid(w.q);
    var w1 := Next(w, Take(me, key));
    assert key in w1.q.processing && w1.workers[me] == Working(key, None);
    var w2 := Next(w1, Read(me));
    assert w2.q == w.q.Get() && w2.workers[me] == Working(key, Some(key in w.live));
    ReaddKeepsValid(w2.q, key, o, w.canceled);
    var w3 := Next(w2, Finish(me, o, w.canceled));
    assert w3.q == Readd(w.q.Get(), key, o, w.canceled) && w3.workers[me] == Finishing(key);
    var w4 := Next(w3, Done(me));
    assert w4.q == Turned(w.q, o, w.canceled);
    FourSteps(w, Take(me, key), Read(me), Finish(me, o, w.canceled), Done(me));
    assert Steps(Turn(key, o, w.canceled, true), me)
        == [Take(me, key)] + ([Read(me)] + ([Finish(me, o, w.canceled)] + ([Done(me)] + [])));
  }

  lemma FourSteps(w: World, a: Event, b: Event, c: Event, d: Event)
    requires Enabled(w, a) && Enabled(Next(w, a), b) && Enabled(Next(Next(w, a), b), c)
    requires Enabled(Next(Next(Next(w, a), b), c), d)
    ensures Admissible(w, [a] + ([b] + ([c] + ([d] + []))))
    ensures Run(w, [a] + ([b] + ([c] + ([d] + [])))) == Next(Next(Next(Next(w, a), b), c), d)
  {
    hide Enabled, Next;
    var w1 := Next(w, a);
    var w2 := Next(w1, b);
    var w3 := Next(w2, c);
    var w4 := Next(w3, d);
    RunOne(w3, d, [], w4);
    RunOne(w2, c, [d] + [], w4);
    RunOne(w1, b, [c] + ([d] + []), w4);
    RunOne(w, a, [b] + ([c] + ([d] + [])), w4);
  }

  /** One turn of a worker: the key it took, how Reconcile ended, whether an error met a canceled context, and whether
      Reconcile got to its read. */
  datatype Turn = Turn(key: string, outcome: Outcome, canceled: bool, read: bool)

  /** What a worker does for a key it has taken: read, finish with the outcome, and done last. */
  function Rest(t: Turn, me: nat): seq<Event> {
    (if t.read then [Read(me)] else []) + [Finish(me, t.outcome, t.canceled)] + [Done(me)]
  }

  function Steps(t: Turn, me: nat): seq<Event> {
    [Take(me, t.key)] + Rest(t, me)
  }

  function AllSteps(turns: seq<Turn>, me: nat): seq<Event> {
    if turns == [] then [] else AllSteps(turns[..|turns| - 1], me) + Steps(turns[|turns| - 1], me)
  }

  function Turned(q: Queue, o: Outcome, canceled: bool): Queue
    requires q.Valid() && q.items != []
  {
    GetKeepsValid(q);
    ReaddKeepsValid(q.Get(), q.items[0], o, canceled);
    Readd(q.Get(), q.items[0], o, canceled).Done(q.items[0])
  }

  /** The honesty of context.Canceled is needed: one error that claims it in vain, and the application is in no set. */
  lemma FalseCancellationLosesTheKey(key: string)
    requires SplitKey(key).Some?
    ensures var es := [Deliver(key)] + Steps(Turn(key, Failed(true), false, true), 0);
            && Admissible(Start({key}, {0}), es)
            && var w := Run(Start({key}, {0}), es);
            !w.canceled && key in w.live && w.pending == multiset{} && w.q == EMPTY
  {
    hide Admissible, Run, Inv, Covered, Steps, SplitKey;
    var w0 := Start({key}, {0});
    StartIsCovered({key}, {0});
    var w1 := Next(w0, Deliver(key));
    StepKeepsInv(w0, Deliver(key));
    assert w1.q.items == [key] && w1.pending == multiset{};
    TurnIsFourSteps(w1, 0, Failed(true));
    var turn := Steps(Turn(key, Failed(true), false, true), 0);
    RunOne(w0, Deliver(key), turn, Run(w1, turn));
    assert Turned(w1.q, Failed(true), false) == EMPTY;
  }

  // The code of one worker

  datatype Call = Call(key: string, outcome: Outcome)

  /** Reconcile is called once in a turn, for a key that names an object. */
  function Calls(turns: seq<Turn>): seq<Call> {
    if turns == [] then []
    else Calls(turns[..|turns| - 1]) + CallsIn(turns[|turns| - 1])
  }

  function CallsIn(t: Turn): seq<Call> {
    if SplitKey(t.key).Some? then [Call(t.key, t.outcome)] else []
  }

  /** What the worker asks of the queue for an outcome: after a success the delay that Reconcile asked for, and for a panic, an error
      that is no cancellation, or a plain requeue, the rate limiter's. */
  function Requests(key: string, o: Outcome, canceled: bool): seq<Request> {
    match o
    case Finished(after, requeue) => if after > 0 then [After(key, after)] else if requeue then [RateLimited(key)] else []
    case Failed(cancellation) => if cancellation || canceled then [] else [RateLimited(key)]
    case Panicked => [RateLimited(key)]
  }

  function RequestsIn(t: Turn): seq<Request> {
    Requests(t.key, t.outcome, t.canceled)
  }

  function AllRequests(turns: seq<Turn>): seq<Request> {
    if turns == [] then [] else AllRequests(turns[..|turns| - 1]) + RequestsIn(turns[|turns| - 1])
  }

  lemma NoTurns(me: nat)
    ensures AllSteps([], me) == [] && Calls([]) == [] && AllRequests([]) == []
  {
  }

  lemma OneMoreTurn(turns: seq<Turn>, t: Turn, me: nat)
    ensures AllSteps(turns + [t], me) == AllSteps(turns, me) + Steps(t, me)
    ensures Calls(turns + [t]) == Calls(turns) + CallsIn(t)
    ensures AllRequests(turns + [t]) == AllRequests(turns) + RequestsIn(t)
  {
    assert (turns + [t])[..|turns|] == turns;
  }

  /** What the workers share besides the queue: the applications on the API server and the context. The ghost fields record
      what this worker did, and only these methods write them: `calls` the calls of Reconcile with how they ended, written
      by Reconcile, and `waits` how often it waited for a key, written by Await. */
  class Surroundings {
    var live: set<string>
    var canceled: bool
    ghost var calls: seq<Call>
    ghost var waits: nat

    constructor (live: set<string>)
      ensures this.live == live && !canceled
    {
      this.live, canceled := live, false;
    }
  }

  /** A state some honest run leads to, by these steps. */
  ghost predicate Reached(start: World, es: seq<Event>, w: World) {
    Inv(start) && Admissible(start, es) && Honest(start, es) && Run(start, es) == w && Inv(w)
  }

  ghost predicate Honestly(w: World, e: Event) {
    e.Finish? && e.outcome == Failed(true) ==> w.canceled
  }

  lemma {:induction false} RunGrows(w: World, es: seq<Event>, e: Event)
    requires Admissible(w, es) && Honest(w, es) && Enabled(Run(w, es), e) && Honestly(Run(w, es), e)
    ensures Admissible(w, es + [e]) && Honest(w, es + [e]) && Run(w, es + [e]) == Next(Run(w, es), e)
    decreases |es|
  {
    hide Enabled, Next;
    if es == [] {
      assert [] + [e] == [e] && [e][1..] == [];
    } else {
      assert (es + [e])[1..] == es[1..] + [e];
      RunGrows(Next(w, es[0]), es[1..], e);
    }
  }

  predicate ByWorker(e: Event, me: nat) {
    (e.Take? || e.Read? || e.Finish? || e.Done? || e.Stop?) && e.worker == me
  }

  /** The steps of one worker in a run. */
  function Mine(es: seq<Event>, me: nat): seq<Event> {
    if es == [] then []
    else Mine(es[..|es| - 1], me) + if ByWorker(es[|es| - 1], me) then [es[|es| - 1]] else []
  }

  lemma ReachedByOneMore(start: World, es: seq<Event>, w: World, e: Event, me: nat)
    requires Reached(start, es, w) && Enabled(w, e) && Honestly(w, e) && ByWorker(e, me)
    ensures Reached(start, es + [e], Next(w, e))
    ensures Mine(es + [e], me) == Mine(es, me) + [e]
  {
    hide Inv, Next, Enabled;
    RunGrows(start, es, e);
    StepKeepsInv(w, e);
    assert (es + [e])[..|es|] == es;
  }

  /** The queue and the surroundings are those of a state reached, and this worker stands at this step in it. */
  ghost predicate Stands(queue: WorkQueue, around: Surroundings, me: nat, step: Step, start: World, es: seq<Event>, w: World)
    reads queue, around
  {
    && Reached(start, es, w) && me in w.workers && w.workers[me] == step
    && queue.State() == w.q && around.live == w.live && around.canceled == w.canceled
  }

  /** Any number of steps of the other workers, the informer, the timers, the users and the signal handler. */
  method Interfere(queue: WorkQueue, around: Surroundings, me: nat, step: Step,
                   ghost start: World, ghost before: seq<Event>, ghost w0: World)
    returns (ghost es: seq<Event>, ghost w: World)
    requires Stands(queue, around, me, step, start, before, w0)
    modifies queue`items, queue`dirty, queue`processing, queue`delayed, queue`shuttingDown,
             around`live, around`canceled
    ensures Stands(queue, around, me, step, start, es, w) && Mine(es, me) == Mine(before, me)
    ensures w0.canceled ==> w.canceled
  {
    es, w := before, w0;
  }

  /** The queue keeps a worker waiting while it has no key and is not shutting down. */
  method Await(queue: WorkQueue, around: Surroundings, me: nat, ghost start: World, ghost before: seq<Event>, ghost w0: World)
    returns (ghost es: seq<Event>, ghost w: World)
    requires Stands(queue, around, me, Idle, start, before, w0) && queue.items == [] && !queue.shuttingDown
    modifies queue`items, queue`dirty, queue`processing, queue`delayed, queue`shuttingDown,
             around`live, around`canceled, around`waits
    ensures Stands(queue, around, me, Idle, start, es, w) && Mine(es, me) == Mine(before, me)
    ensures w0.canceled ==> w.canceled
    ensures around.waits == old(around.waits) + 1
  {
    hide Reached, Mine;
    es, w := Interfere(queue, around, me, Idle, start, before, w0);
    around.waits := around.waits + 1;
  }

  /** What the protocol knows of a worker that has a key. */
  lemma Holds(start: World, es: seq<Event>, w: World, me: nat)
    requires Reached(start, es, w) && me in w.workers
    ensures w.q.Valid() && (w.q.shuttingDown ==> w.canceled)
    ensures Busy(w.workers[me]) ==> w.workers[me].key in w.q.processing
    ensures forall key :: key in w.live ==> SplitKey(key).Some?
  {
    assert Busy(w.workers[me]) ==> At(w, me, true);
  }

  /** Reconcile, up to what the worker needs of it: it may fail or panic before or after it has read the application. */
  method Reconcile(queue: WorkQueue, around: Surroundings, me: nat, key: string,
                   ghost start: World, ghost before: seq<Event>, ghost w0: World)
    returns (o: Outcome, seen: Option<bool>, ghost es: seq<Event>, ghost w: World)
    requires Stands(queue, around, me, Working(key, None), start, before, w0)
    modifies queue`items, queue`dirty, queue`processing, queue`delayed, queue`shuttingDown,
             around`live, around`canceled, around`calls
    ensures Stands(queue, around, me, Working(key, seen), start, es, w)
    ensures o.Finished? ==> seen.Some? && (seen.value ==> o.after > 0 || o.requeue)
    ensures o == Failed(true) ==> w.canceled
    ensures w0.canceled ==> w.canceled
    ensures Mine(es, me) == Mine(before, me) + if seen.Some? then [Read(me)] else []
    ensures around.calls == old(around.calls) + [Call(key, o)]
  {
    hide Reached, Mine;
    seen, es, w := None, before, w0;
    var gets: bool, fails: bool := *, *;
    if gets {
      es, w := Interfere(queue, around, me, Working(key, None), start, es, w);
      seen := Some(key in around.live);
      ReachedByOneMore(start, es, w, Read(me), me);
      es, w := es + [Read(me)], Next(w, Read(me));
      es, w := Interfere(queue, around, me, Working(key, seen), start, es, w);
    }
    if !gets || fails {
      o := Fails(around);
    } else if seen.value {
      var interval :| interval > 0;
      o := Finished(interval, false);
    } else {
      o := Finished(0, false);
    }
    around.calls := around.calls + [Call(key, o)];
  }

  /** A panic or an error, which is context.Canceled only after a cancellation. */
  method Fails(around: Surroundings) returns (o: Outcome)
    ensures !o.Finished? && (o == Failed(true) ==> around.canceled)
  {
    var panics: bool, cancellation: bool := *, *;
    o := if panics then Panicked else Failed(cancellation && around.canceled);
  }

  /** The function runWorker calls for a key, with everyone else acting between its calls. A key that names an object takes
      exactly one call of Reconcile, which decides the turn; any other takes none. The recovery of a panic adds the key back,
      and only then, as the first defer, comes Done. */
  method Process(queue: WorkQueue, around: Surroundings, me: nat, key: string,
                 ghost start: World, ghost before: seq<Event>, ghost w0: World)
    returns (ghost turn: Turn, ghost es: seq<Event>, ghost w: World)
    requires Stands(queue, around, me, Working(key, None), start, before, w0)
    modifies queue, around`live, around`canceled, around`calls
    ensures Stands(queue, around, me, Idle, start, es, w)
    ensures turn.key == key && Mine(es, me) == Mine(before, me) + Rest(turn, me)
    ensures around.calls == old(around.calls) + CallsIn(turn)
    ensures queue.requests == old(queue.requests) + RequestsIn(turn)
    ensures SplitKey(key).None? ==> turn.outcome == Finished(0, false)
    ensures turn.outcome.Finished? ==> turn.read
    ensures w0.canceled ==> w.canceled && (turn.outcome == Failed(false) ==> turn.canceled)
  {
    hide Reached, Mine;
    var o, seen;
    es, w := before, w0;
    if SplitKey(key).Some? {
      o, seen, es, w := Reconcile(queue, around, me, key, start, es, w);
    } else {
      // No application has such a key.
      Holds(start, es, w, me);
      o, seen := Finished(0, false), Some(false);
      ReachedByOneMore(start, es, w, Read(me), me);
      es, w := es + [Read(me)], Next(w, Read(me));
    }
    ghost var canceled;
    canceled, es, w := Readding(queue, around, me, key, o, seen, start, es, w);
    es, w := Finalize(queue, around, me, key, start, es, w);
    turn := Turn(key, o, canceled, seen.Some?);
  }

  /** The deferred Done. */
  method Finalize(queue: WorkQueue, around: Surroundings, me: nat, key: string,
                  ghost start: World, ghost before: seq<Event>, ghost w0: World)
    returns (ghost es: seq<Event>, ghost w: World)
    requires Stands(queue, around, me, Finishing(key), start, before, w0)
    modifies queue`items, queue`dirty, queue`processing, queue`delayed, queue`shuttingDown,
             around`live, around`canceled
    ensures Stands(queue, around, me, Idle, start, es, w) && Mine(es, me) == Mine(before, me) + [Done(me)]
    ensures w0.canceled ==> w.canceled
  {
    hide Reached, Mine;
    es, w := Interfere(queue, around, me, Finishing(key), start, before, w0);
    Holds(start, es, w, me);
    queue.Done(key);
    ReachedByOneMore(start, es, w, Done(me), me);
    es, w := es + [Done(me)], Next(w, Done(me));
  }

  /** One turn of runWorker: a key taken from the queue and processed, or word of the shutdown. */
  method ProcessNext(queue: WorkQueue, around: Surroundings, me: nat, ghost start: World, ghost before: seq<Event>, ghost w0: World)
    returns (shutdown: bool, ghost turn: Turn, ghost es: seq<Event>, ghost w: World)
    requires Stands(queue, around, me, Idle, start, before, w0) && (queue.items != [] || queue.shuttingDown)
    modifies queue, around`live, around`canceled, around`calls
    ensures Stands(queue, around, me, Idle, start, es, w)
    ensures shutdown <==> old(queue.items) == []
    ensures shutdown ==> es == before && w == w0 && queue.shuttingDown && around.calls == old(around.calls)
    ensures !shutdown ==> turn.key == old(queue.items)[0] && Mine(es, me) == Mine(before, me) + Steps(turn, me)
    ensures !shutdown ==> around.calls == old(around.calls) + CallsIn(turn)
    ensures queue.requests == old(queue.requests) + if shutdown then [] else RequestsIn(turn)
    ensures w0.canceled ==> w.canceled
  {
    hide Reached, Mine, Rest, CallsIn, RequestsIn;
    es, w, turn := before, w0, Turn("", Panicked, false, false);
    var key;
    key, shutdown := queue.Get();
    if shutdown {
      return;
    }
    ReachedByOneMore(start, es, w, Take(me, key), me);
    es, w := es + [Take(me, key)], Next(w, Take(me, key));
    turn, es, w := Process(queue, around, me, key, start, es, w);
  }

  /** What runWorker does with the outcome: it looks at its context only for an error that is not a cancellation. */
  method Readding(queue: WorkQueue, around: Surroundings, me: nat, key: string, o: Outcome, seen: Option<bool>,
                  ghost start: World, ghost before: seq<Event>, ghost w0: World)
    returns (ghost canceled: bool, ghost es: seq<Event>, ghost w: World)
    requires Stands(queue, around, me, Working(key, seen), start, before, w0)
    requires o.Finished? ==> seen.Some? && (seen.value ==> o.after > 0 || o.requeue)
    requires o == Failed(true) ==> w0.canceled
    modifies queue, around`live, around`canceled
    ensures Stands(queue, around, me, Finishing(key), start, es, w)
    ensures Mine(es, me) == Mine(before, me) + [Finish(me, o, canceled)]
    ensures queue.requests == old(queue.requests) + Requests(key, o, canceled)
    ensures w0.canceled ==> w.canceled && (o == Failed(false) ==> canceled)
  {
    hide Reached, Mine;
    canceled := false;
    es, w := Interfere(queue, around, me, Working(key, seen), start, before, w0);
    match o {
      case Panicked => queue.AddRateLimited(key);
      case Failed(cancellation) =>
        var gone := cancellation || around.canceled;
        canceled := !cancellation && gone;
        es, w := Interfere(queue, around, me, Working(key, seen), start, es, w);
        if !gone {
          queue.AddRateLimited(key);
        }
      case Finished(after, requeue) =>
        if after > 0 {
          queue.AddAfter(key, after);
        } else if requeue {
          queue.AddRateLimited(key);
        }
    }
    ReachedByOneMore(start, es, w, Finish(me, o, canceled), me);
    es, w := es + [Finish(me, o, canceled)], Next(w, Finish(me, o, canceled));
  }

  lemma Stops(queue: WorkQueue, around: Surroundings, me: nat, start: World, es: seq<Event>, w: World)
    requires Stands(queue, around, me, Idle, start, es, w) && w.canceled
    ensures Enabled(w, Stop(me)) && Stands(queue, around, me, Stopped, start, es + [Stop(me)], Next(w, Stop(me)))
    ensures Mine(es + [Stop(me)], me) == Mine(es, me) + [Stop(me)] && Next(w, Stop(me)).canceled
  {
    hide Reached, Mine;
    ReachedByOneMore(start, es, w, Stop(me), me);
  }

  /** The loop of one worker, for any number of turns, each a turn of work or of waiting for a key. Whatever everyone else
      does meanwhile, it is a run of the protocol, and an honest one, in which this worker takes exactly the steps of its
      turns and calls Reconcile exactly for their keys. It ends early only when the context is canceled, and once that has
      happened it takes at most one more key. */
  method RunWorker(queue: WorkQueue, around: Surroundings, me: nat, rounds: nat,
                   ghost start: World, ghost before: seq<Event>, ghost w0: World)
    returns (ghost turns: seq<Turn>, ghost es: seq<Event>, ghost w: World, stopped: bool)
    requires Stands(queue, around, me, Idle, start, before, w0)
    modifies queue, around
    ensures Stands(queue, around, me, if stopped then Stopped else Idle, start, es, w)
    ensures Mine(es, me) == Mine(before, me) + AllSteps(turns, me) + if stopped then [Stop(me)] else []
    ensures around.calls == old(around.calls) + Calls(turns)
    ensures queue.requests == old(queue.requests) + AllRequests(turns)
    ensures stopped ==> w.canceled
    ensures |turns| + around.waits <= old(around.waits) + rounds
    ensures !stopped ==> |turns| + around.waits == old(around.waits) + rounds
    ensures w0.canceled ==> |turns| <= 1 && (|turns| == 1 ==> stopped)
  {
    hide Reached, Mine, Steps, CallsIn, RequestsIn, AllSteps, Calls, AllRequests, Enabled, Next;
    NoTurns(me);
    turns, es, w, stopped := [], before, w0, false;
    for round := 0 to rounds
      invariant Stands(queue, around, me, Idle, start, es, w)
      invariant Mine(es, me) == Mine(before, me) + AllSteps(turns, me)
      invariant around.calls == old(around.calls) + Calls(turns)
      invariant queue.requests == old(queue.requests) + AllRequests(turns)
      invariant |turns| + around.waits == old(around.waits) + round
      invariant w0.canceled ==> w.canceled && turns == []
    {
      es, w := Interfere(queue, around, me, Idle, start, es, w);
      if queue.items == [] && !queue.shuttingDown {
        es, w := Await(queue, around, me, start, es, w);
      } else {
        var shutdown;
        ghost var turn;
        shutdown, turn, es, w := ProcessNext(queue, around, me, start, es, w);
        if !shutdown {
          OneMoreTurn(turns, turn, me);
          turns := turns + [turn];
          es, w := Interfere(queue, around, me, Idle, start, es, w);
        }
        if shutdown || around.canceled {
          Holds(start, es, w, me);
          Stops(queue, around, me, start, es, w);
          es, w := es + [Stop(me)], Next(w, Stop(me));
          stopped := true;
          return;
        }
      }
    }
  }
}
