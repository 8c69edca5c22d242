/** internal/git: Checkout as a publish protocol run by any number of workers over one cache directory. */
module CheckoutCache {
  import opened Outcomes

  /** The final directory is named by the hash of the repository URL and the commit. */
  datatype Key = Key(repository: string, sha: string)

  datatype Tree = Partial | Complete(sha: string)

  datatype Step =
    | Looking
    | Locking
    | Locked
    | Making
    | Cloning(temp: nat)
    | CheckingOut(temp: nat)
    | Renaming(temp: nat)
    | RenameFailed(temp: nat)
    | Cleaning(temp: nat)
    | Unlocking(ok: bool)
    | Returned(ok: bool)
    | Crashed

  /** bodies counts how often the critical section was entered. blind says that the stat under the lock erred although the
      directory was published, uncleaned that removing the temp directory failed; left is a temp directory the worker will
      never remove. */
  datatype Worker = Worker(key: Key, step: Step, bodies: nat, blind: bool, uncleaned: bool, left: Option<nat>)

  /** leaked records the temp directories that were there at the start or that some worker left behind. */
  datatype Cache = Cache(
    finals: map<Key, Tree>, temps: map<nat, Tree>, locks: map<Key, nat>, workers: map<nat, Worker>, leaked: set<nat>)

  datatype RenameReply = Renamed | Exists | Refused

  datatype Event =
    | Call(worker: nat, key: Key)
    | Stat(worker: nat, answered: bool)
    | TryLock(worker: nat)
    | TimeOut(worker: nat)
    | Restat(worker: nat, answered: bool)
    | MakeTemp(worker: nat, made: Option<nat>)
    | Clone(worker: nat, ok: bool)
    | CheckOut(worker: nat, ok: bool)
    | Rename(worker: nat, reply: RenameReply)
    | StatTarget(worker: nat, answered: bool)
    | RemoveTemp(worker: nat, removed: bool)
    | Unlock(worker: nat)
    | Crash(worker: nat)

  /** A rename onto a checkout, which is never empty, does not succeed; other errors can come up at any time. */
  predicate Enabled(c: Cache, e: Event) {
    if e.Call? then e.worker !in c.workers
    else
      && e.worker in c.workers
      && var step := c.workers[e.worker].step;
      match e
      case Stat(_, _) => step.Looking?
      case TryLock(_) => step.Locking?
      case TimeOut(_) => step.Locking?
      case Restat(_, _) => step.Locked?
      case MakeTemp(_, made) => step.Making? && (made.Some? ==> made.value !in c.temps)
      case Clone(_, _) => step.Cloning?
      case CheckOut(_, _) => step.CheckingOut?
      case Rename(_, reply) =>
        && step.Renaming? && step.temp in c.temps
        && (reply.Renamed? ==> c.workers[e.worker].key !in c.finals)
        && (reply.Exists? ==> c.workers[e.worker].key in c.finals)
      case StatTarget(_, _) => step.RenameFailed?
      case RemoveTemp(_, _) => step.Cleaning?
      case Unlock(_) => step.Unlocking?
      case Crash(_) => !step.Returned? && !step.Crashed?
  }

  predicate Holding(step: Step) {
    !step.Looking? && !step.Locking? && !step.Returned? && !step.Crashed?
  }

  predicate HasTemp(step: Step) {
    step.Cloning? || step.CheckingOut? || step.Renaming? || step.RenameFailed? || step.Cleaning?
  }

  function NextWorker(c: Cache, e: Event): Worker
    requires Enabled(c, e)
  {
    if e.Call? then Worker(e.key, Looking, 0, false, false, None)
    else
      var w := c.workers[e.worker];
      match e
      case Stat(_, answered) => w.(step := if answered && w.key in c.finals then Returned(true) else Locking)
      case TryLock(_) => if w.key in c.locks then w else w.(step := Locked, bodies := w.bodies + 1)
      case TimeOut(_) => w.(step := Returned(false))
      case Restat(_, answered) =>
        if answered && w.key in c.finals then w.(step := Unlocking(true)) else w.(step := Making, blind := w.key in c.finals)
      case MakeTemp(_, made) => w.(step := if made.Some? then Cloning(made.value) else Unlocking(false))
      case Clone(_, ok) => w.(step := if ok then CheckingOut(w.step.temp) else Cleaning(w.step.temp))
      case CheckOut(_, ok) => w.(step := if ok then Renaming(w.step.temp) else Cleaning(w.step.temp))
      case Rename(_, reply) =>
        match reply {
          case Renamed => w.(step := Unlocking(true))
          case Exists => w.(step := Unlocking(true), left := Some(w.step.temp))
          case Refused => w.(step := RenameFailed(w.step.temp))
        }
      case StatTarget(_, answered) =>
        if answered && w.key in c.finals then w.(step := Unlocking(true), left := Some(w.step.temp))
        else w.(step := Cleaning(w.step.temp))
      case RemoveTemp(_, removed) =>
        w.(step := Unlocking(false), uncleaned := !removed, left := if removed then w.left else Some(w.step.temp))
      case Unlock(_) => w.(step := Returned(w.step.ok))
      case Crash(_) => w.(step := Crashed, left := if HasTemp(w.step) then Some(w.step.temp) else w.left)
  }

  /** The steps after which nobody will remove the worker's temp directory. */
  predicate Leaves(c: Cache, e: Event)
    requires Enabled(c, e)
  {
    || (e.Crash? && HasTemp(c.workers[e.worker].step))
    || (e.Rename? && e.reply.Exists?)
    || (e.RemoveTemp? && !e.removed)
    || (e.StatTarget? && e.answered && c.workers[e.worker].key in c.finals)
  }

  /** A failed git command may leave anything in the temp directory; a successful checkout leaves the whole tree. */
  function NextTemps(c: Cache, e: Event): map<nat, Tree>
    requires Enabled(c, e)
  {
    match e
    case MakeTemp(_, made) => if made.Some? then c.temps[made.value := Partial] else c.temps
    case Clone(worker, _) => c.temps[c.workers[worker].step.temp := Partial]
    case CheckOut(worker, ok) =>
      c.temps[c.workers[worker].step.temp := if ok then Complete(c.workers[worker].key.sha) else Partial]
    case Rename(worker, reply) =>
      if reply.Renamed? then c.temps - {c.workers[worker].step.temp} else c.temps
    case RemoveTemp(worker, removed) =>
      if removed then c.temps - {c.workers[worker].step.temp} else c.temps[c.workers[worker].step.temp := Partial]
    case _ => c.temps
  }

  function Next(c: Cache, e: Event): Cache
    requires Enabled(c, e)
  {
    Cache(
      if e.Rename? && e.reply.Renamed?
      then c.finals[c.workers[e.worker].key := c.temps[c.workers[e.worker].step.temp]]
      else c.finals,
      NextTemps(c, e),
      if e.TryLock? && c.workers[e.worker].key !in c.locks then c.locks[c.workers[e.worker].key := e.worker]
      else if e.Unlock? || (e.Crash? && Holding(c.workers[e.worker].step)) then c.locks - {c.workers[e.worker].key}
      else c.locks,
      c.workers[e.worker := NextWorker(c, e)],
      if Leaves(c, e) then c.leaked + {c.workers[e.worker].step.temp} else c.leaked)
  }

  predicate Admissible(c: Cache, es: seq<Event>)
    decreases |es|
  {
    es == [] || (Enabled(c, es[0]) && Admissible(Next(c, es[0]), es[1..]))
  }

  function Run(c: Cache, es: seq<Event>): Cache
    requires Admissible(c, es)
    decreases |es|
  {
    if es == [] then c else Run(Next(c, es[0]), es[1..])
  }

  // The invariant

  ghost predicate FinalsComplete(c: Cache) {
    forall k :: k in c.finals ==> c.finals[k] == Complete(k.sha)
  }

  /** The lock of a key is held by exactly the worker that is inside its critical section. */
  ghost predicate LocksMatch(locks: map<Key, nat>, workers: map<nat, Worker>) {
    && (forall w :: w in workers && Holding(workers[w].step) ==> workers[w].key in locks && locks[workers[w].key] == w)
    && (forall k :: k in locks ==> locks[k] in workers && workers[locks[k]].key == k && Holding(workers[locks[k]].step))
  }

  predicate Unpublished(step: Step) {
    step.Making? || (HasTemp(step) && !step.Cleaning?)
  }

  ghost predicate WorkerKnows(c: Cache, w: nat)
    requires w in c.workers
  {
    var me := c.workers[w];
    && (Unpublished(me.step) ==> (me.key in c.finals <==> me.blind))
    && (HasTemp(me.step) ==> me.step.temp in c.temps && me.step.temp !in c.leaked)
    && (me.step.Renaming? || me.step.RenameFailed? ==> c.temps[me.step.temp] == Complete(me.key.sha))
    && (me.step == Unlocking(true) || me.step == Returned(true) ==> me.key in c.finals)
    && (me.left.Some? ==> me.left.value in c.leaked)
    && (!me.step.Crashed? ==>
          (me.left.Some? <==> (me.blind && (me.step == Unlocking(true) || me.step == Returned(true))) || me.uncleaned))
    && (me.uncleaned ==> me.step == Unlocking(false) || me.step == Returned(false) || me.step.Crashed?)
    && (me.step.Looking? || me.step.Locking? || me.step.Locked? ==> !me.blind)
    && (me.step.Looking? || me.step.Locking? ==> me.bodies == 0)
    && me.bodies <= 1
  }

  ghost predicate TempsApart(c: Cache) {
    && (forall v, w :: v in c.workers && w in c.workers && v != w && HasTemp(c.workers[v].step) && HasTemp(c.workers[w].step) ==>
          c.workers[v].step.temp != c.workers[w].step.temp)
    && (forall t :: t in c.temps && t !in c.leaked ==>
          exists w :: w in c.workers && HasTemp(c.workers[w].step) && c.workers[w].step.temp == t)
  }

  ghost predicate Inv(c: Cache) {
    && FinalsComplete(c) && LocksMatch(c.locks, c.workers) && TempsApart(c)
    && c.leaked <= c.temps.Keys
    && forall w :: w in c.workers ==> WorkerKnows(c, w)
  }

  lemma StepKeepsFinals(c: Cache, e: Event)
    requires Inv(c) && Enabled(c, e)
    ensures FinalsComplete(Next(c, e))
    ensures forall k :: k in c.finals ==> k in Next(c, e).finals && Next(c, e).finals[k] == c.finals[k]
    ensures forall k :: k in Next(c, e).finals && k !in c.finals ==> k in c.locks && c.locks[k] == e.worker
  {
    if e.Rename? {
      assert WorkerKnows(c, e.worker);
    }
  }

  /** Only taking the lock, releasing it and crashing move a worker into or out of a critical section. */
  lemma HoldingChanges(c: Cache, e: Event)
    requires Enabled(c, e) && !e.Call?
    ensures NextWorker(c, e).key == c.workers[e.worker].key
    ensures Holding(NextWorker(c, e).step) ==
            if e.TryLock? then c.workers[e.worker].key !in c.locks
            else !e.Unlock? && !e.Crash? && Holding(c.workers[e.worker].step)
  {
  }

  lemma LockTaken(locks: map<Key, nat>, workers: map<nat, Worker>, w: nat, me: Worker)
    requires LocksMatch(locks, workers) && w in workers && !Holding(workers[w].step)
    requires me.key == workers[w].key && Holding(me.step) && me.key !in locks
    ensures LocksMatch(locks[me.key := w], workers[w := me])
  {
    hide Holding;
  }

  lemma LockReleased(locks: map<Key, nat>, workers: map<nat, Worker>, w: nat, me: Worker)
    requires LocksMatch(locks, workers) && w in workers && Holding(workers[w].step)
    requires me.key == workers[w].key && !Holding(me.step)
    ensures LocksMatch(locks - {me.key}, workers[w := me])
  {
    hide Holding;
  }

  lemma LocksUntouched(locks: map<Key, nat>, workers: map<nat, Worker>, w: nat, me: Worker)
    requires LocksMatch(locks, workers)
    requires w in workers ==> me.key == workers[w].key && Holding(me.step) == Holding(workers[w].step)
    requires w !in workers ==> !Holding(me.step)
    ensures LocksMatch(locks, workers[w := me])
  {
    hide Holding;
  }

  lemma StepKeepsLocks(c: Cache, e: Event)
    requires Inv(c) && Enabled(c, e)
    ensures LocksMatch(Next(c, e).locks, Next(c, e).workers)
  {
    var me := NextWorker(c, e);
    hide FinalsComplete, TempsApart, WorkerKnows, LocksMatch, NextTemps;
    if e.Call? {
      LocksUntouched(c.locks, c.workers, e.worker, me);
    } else {
      HoldingChanges(c, e);
      if e.TryLock? && me.key !in c.locks {
        LockTaken(c.locks, c.workers, e.worker, me);
      } else if e.Unlock? || (e.Crash? && Holding(c.workers[e.worker].step)) {
        LockReleased(c.locks, c.workers, e.worker, me);
      } else {
        LocksUntouched(c.locks, c.workers, e.worker, me);
      }
    }
  }

  lemma StepKeepsTempsDistinct(c: Cache, e: Event, v: nat, w: nat)
    requires Inv(c) && Enabled(c, e) && v in Next(c, e).workers && w in Next(c, e).workers && v != w
    requires HasTemp(Next(c, e).workers[v].step) && HasTemp(Next(c, e).workers[w].step)
    ensures Next(c, e).workers[v].step.temp != Next(c, e).workers[w].step.temp
  {
    hide FinalsComplete, LocksMatch, NextTemps;
    assert v in c.workers ==> WorkerKnows(c, v);
    assert w in c.workers ==> WorkerKnows(c, w);
  }

  lemma StepKeepsTempHeld(c: Cache, e: Event, t: nat)
    requires Inv(c) && Enabled(c, e) && t in Next(c, e).temps && t !in Next(c, e).leaked
    ensures exists w :: w in Next(c, e).workers && HasTemp(Next(c, e).workers[w].step) && Next(c, e).workers[w].step.temp == t
  {
    hide FinalsComplete, LocksMatch;
    var c' := Next(c, e);
    if t in c.temps {
      var w :| w in c.workers && HasTemp(c.workers[w].step) && c.workers[w].step.temp == t;
      if w == e.worker {
        StepKeepsOwnTemp(c, e, t);
      }
      assert w in c'.workers;
    } else {
      assert e.worker in c'.workers && HasTemp(c'.workers[e.worker].step) && c'.workers[e.worker].step.temp == t;
    }
  }

  lemma StepKeepsLeaked(c: Cache, e: Event)
    requires Inv(c) && Enabled(c, e)
    ensures Next(c, e).leaked <= Next(c, e).temps.Keys
  {
    if !e.Call? {
      assert WorkerKnows(c, e.worker);
    }
    hide FinalsComplete, LocksMatch, TempsApart, NextWorker;
  }

  lemma StepKeepsTemps(c: Cache, e: Event)
    requires Inv(c) && Enabled(c, e)
    ensures TempsApart(Next(c, e)) && Next(c, e).leaked <= Next(c, e).temps.Keys
  {
    var c' := Next(c, e);
    StepKeepsLeaked(c, e);
    hide Next, Enabled, Inv;
    forall v, w | v in c'.workers && w in c'.workers && v != w && HasTemp(c'.workers[v].step) && HasTemp(c'.workers[w].step)
      ensures c'.workers[v].step.temp != c'.workers[w].step.temp
    {
      StepKeepsTempsDistinct(c, e, v, w);
    }
    forall t | t in c'.temps && t !in c'.leaked
      ensures exists w :: w in c'.workers && HasTemp(c'.workers[w].step) && c'.workers[w].step.temp == t
    {
      StepKeepsTempHeld(c, e, t);
    }
  }

  /** A worker lets go of its temp directory only by publishing it, removing it, or crashing. */
  lemma StepKeepsOwnTemp(c: Cache, e: Event, t: nat)
    requires Inv(c) && Enabled(c, e) && !e.Call?
    requires HasTemp(c.workers[e.worker].step) && c.workers[e.worker].step.temp == t
    requires t in Next(c, e).temps && t !in Next(c, e).leaked
    ensures HasTemp(NextWorker(c, e).step) && NextWorker(c, e).step.temp == t
  {
    assert WorkerKnows(c, e.worker);
  }

  lemma StepKeepsOwnKnowledge(c: Cache, e: Event)
    requires Enabled(c, e) && c.leaked <= c.temps.Keys && (!e.Call? ==> WorkerKnows(c, e.worker))
    ensures WorkerKnows(Next(c, e), e.worker)
  {
    if BeforeMoving(e) {
      KnowsBeforeMoving(c, e);
    } else {
      KnowsFromMovingOn(c, e);
    }
    hide WorkerKnows, Next, Enabled;
  }

  predicate BeforeMoving(e: Event) {
    e.Call? || e.Stat? || e.TryLock? || e.TimeOut? || e.Restat? || e.MakeTemp? || e.Clone? || e.CheckOut?
  }

  lemma KnowsBeforeMoving(c: Cache, e: Event)
    requires Enabled(c, e) && BeforeMoving(e) && c.leaked <= c.temps.Keys && (!e.Call? ==> WorkerKnows(c, e.worker))
    ensures WorkerKnows(Next(c, e), e.worker)
  {
  }

  lemma KnowsFromMovingOn(c: Cache, e: Event)
    requires Enabled(c, e) && !BeforeMoving(e) && c.leaked <= c.temps.Keys && WorkerKnows(c, e.worker)
    ensures WorkerKnows(Next(c, e), e.worker)
  {
  }

  lemma StepKeepsOthersKnowledge(c: Cache, e: Event, w: nat)
    requires Inv(c) && Enabled(c, e) && w in c.workers && w != e.worker
    ensures WorkerKnows(Next(c, e), w)
  {
    StepKeepsFinals(c, e);
    assert WorkerKnows(c, w);
    if HasTemp(c.workers[w].step) {
      StepSparesTemp(c, e, w);
    }
    hide FinalsComplete, TempsApart, NextTemps, NextWorker;
  }

  lemma StepSparesTemp(c: Cache, e: Event, w: nat)
    requires Inv(c) && Enabled(c, e) && w in c.workers && w != e.worker && HasTemp(c.workers[w].step)
    ensures var t := c.workers[w].step.temp;
            t in Next(c, e).temps && Next(c, e).temps[t] == c.temps[t] && t !in Next(c, e).leaked
  {
    hide FinalsComplete, LocksMatch;
    assert WorkerKnows(c, w);
  }

  lemma StepKeepsInv(c: Cache, e: Event)
    requires Inv(c) && Enabled(c, e)
    ensures Inv(Next(c, e))
  {
    StepKeepsFinals(c, e);
    StepKeepsLocks(c, e);
    StepKeepsTemps(c, e);
    forall w | w in Next(c, e).workers
      ensures WorkerKnows(Next(c, e), w)
    {
      if w == e.worker {
        StepKeepsOwnKnowledge(c, e);
      } else {
        StepKeepsOthersKnowledge(c, e, w);
      }
    }
    hide FinalsComplete, LocksMatch, TempsApart, WorkerKnows;
  }

  /** In every interleaving, a published directory is the whole tree of its commit and never changes again. */
  lemma {:induction false} PublishedIsCompleteForever(c: Cache, es: seq<Event>)
    requires Inv(c) && Admissible(c, es)
    ensures Inv(Run(c, es))
    ensures forall k :: k in c.finals ==> k in Run(c, es).finals && Run(c, es).finals[k] == c.finals[k] == Complete(k.sha)
    decreases |es|
  {
    hide Next, Enabled, LocksMatch, TempsApart, WorkerKnows;
    if es != [] {
      StepKeepsFinals(c, es[0]);
      StepKeepsInv(c, es[0]);
      PublishedIsCompleteForever(Next(c, es[0]), es[1..]);
    }
  }

  /** Every pair a worker returns names a complete checkout, by whichever stat it was found, now and in any later state. */
  lemma ReturnedIsComplete(c: Cache, es: seq<Event>, later: seq<Event>, w: nat)
    requires Inv(c) && Admissible(c, es) && Admissible(Run(c, es), later)
    requires w in Run(c, es).workers && Run(c, es).workers[w].step == Returned(true)
    ensures var key := Run(c, es).workers[w].key;
            && key in Run(c, es).finals && Run(c, es).finals[key] == Complete(key.sha)
            && key in Run(Run(c, es), later).finals && Run(Run(c, es), later).finals[key] == Complete(key.sha)
  {
    PublishedIsCompleteForever(c, es);
    assert WorkerKnows(Run(c, es), w);
    PublishedIsCompleteForever(Run(c, es), later);
  }

  /** No worker enters the critical section twice, and none that has returned holds a lock. The rename finds its target
      exactly if the stat under the lock erred on it, and a worker that did not crash leaves its temp directory behind
      exactly if, besides, the call succeeds, or if it fails and removing the directory fails too. */
  lemma CriticalSectionIsClean(c: Cache, es: seq<Event>, w: nat)
    requires Inv(c) && Admissible(c, es) && w in Run(c, es).workers
    ensures var v := Run(c, es);
            var me := v.workers[w];
            && me.bodies <= 1
            && (me.step.Renaming? || me.step.RenameFailed? ==> (me.key in v.finals <==> me.blind))
            && (me.step.Returned? ==> forall k :: k in v.locks ==> v.locks[k] != w)
            && (me.step.Unlocking? || me.step.Returned? ==> 
                  (me.left.Some? <==> (me.blind && me.step.ok) || me.uncleaned) && !(me.step.ok && me.uncleaned))
            && (me.left.Some? ==> me.left.value in v.temps)
  {
    PublishedIsCompleteForever(c, es);
    assert WorkerKnows(Run(c, es), w);
  }

  /** Every temp directory is at all times one that was there at the start, one that its worker still has, or one that a
      worker left behind. */
  lemma TempsAreAccountedFor(c: Cache, es: seq<Event>, t: nat)
    requires Inv(c) && Admissible(c, es) && t in Run(c, es).temps
    ensures var v := Run(c, es);
            || t in c.leaked
            || (exists w :: w in v.workers && HasTemp(v.workers[w].step) && v.workers[w].step.temp == t)
            || (exists w :: w in v.workers && v.workers[w].left == Some(t))
  {
    PublishedIsCompleteForever(c, es);
    if t in Run(c, es).leaked {
      LeakedWasLeft(c, es, t);
    }
  }

  lemma {:induction false} LeakedWasLeft(c: Cache, es: seq<Event>, t: nat)
    requires Inv(c) && Admissible(c, es) && t in Run(c, es).leaked
    ensures t in c.leaked || exists w :: w in Run(c, es).workers && Run(c, es).workers[w].left == Some(t)
    decreases |es|
  {
    if es != [] {
      var c' := Next(c, es[0]);
      StepKeepsInv(c, es[0]);
      LeakedWasLeft(c', es[1..], t);
      if t in c'.leaked && t !in c.leaked {
        assert c'.workers[es[0].worker].left == Some(t);
        hide Next, Enabled, NextWorker, Inv;
        LeftForever(c', es[1..], es[0].worker, t);
      }
    }
  }

  lemma LeftStays(c: Cache, e: Event, w: nat, t: nat)
    requires Inv(c) && Enabled(c, e) && w in c.workers && c.workers[w].left == Some(t)
    ensures w in Next(c, e).workers && Next(c, e).workers[w].left == Some(t)
  {
    assert WorkerKnows(c, w);
    hide FinalsComplete, LocksMatch, TempsApart;
  }

  lemma {:induction false} LeftForever(c: Cache, es: seq<Event>, w: nat, t: nat)
    requires Inv(c) && Admissible(c, es) && w in c.workers && c.workers[w].left == Some(t)
    ensures w in Run(c, es).workers && Run(c, es).workers[w].left == Some(t)
    decreases |es|
  {
    hide Next, Enabled, Inv;
    if es != [] {
      LeftStays(c, es[0], w, t);
      StepKeepsInv(c, es[0]);
      LeftForever(Next(c, es[0]), es[1..], w, t);
    }
  }

  /** At most one worker is inside the critical section of a key. */
  lemma MutualExclusion(c: Cache, es: seq<Event>, v: nat, w: nat)
    requires Inv(c) && Admissible(c, es) && v in Run(c, es).workers && w in Run(c, es).workers
    requires Holding(Run(c, es).workers[v].step) && Holding(Run(c, es).workers[w].step)
    requires Run(c, es).workers[v].key == Run(c, es).workers[w].key
    ensures v == w
  {
    PublishedIsCompleteForever(c, es);
  }

  /** A cache directory as a new process finds it: whatever was published is complete, whatever else lies around is leaked. */
  lemma NewProcessStartsWell(finals: map<Key, Tree>, temps: map<nat, Tree>)
    requires forall k :: k in finals ==> finals[k] == Complete(k.sha)
    ensures Inv(Cache(finals, temps, map[], map[], temps.Keys))
  {
  }

  /** A state some run leads to, by these steps. */
  ghost predicate Reached(start: Cache, es: seq<Event>, c: Cache) {
    Inv(start) && Admissible(start, es) && Run(start, es) == c && Inv(c)
  }

  lemma {:induction false} RunGrows(c: Cache, es: seq<Event>, e: Event)
    requires Admissible(c, es) && Enabled(Run(c, es), e)
    ensures Admissible(c, es + [e]) && Run(c, es + [e]) == Next(Run(c, es), e)
    decreases |es|
  {
    hide Enabled, Next;
    if es == [] {
      assert [] + [e] == [e] && [e][1..] == [];
    } else {
      assert (es + [e])[1..] == es[1..] + [e];
      RunGrows(Next(c, es[0]), es[1..], e);
    }
  }

  lemma ReachedByOneMore(start: Cache, es: seq<Event>, c: Cache, e: Event)
    requires Reached(start, es, c) && Enabled(c, e)
    ensures Reached(start, es + [e], Next(c, e))
  {
    hide Inv, Next, Enabled;
    RunGrows(start, es, e);
    StepKeepsInv(c, e);
  }

  /** One worker in a cache where its commit is published already. */
  function Beside(w: nat, me: Worker, temps: map<nat, Tree>): Cache {
    Cache(map[me.key := Complete(me.key.sha)], temps, if Holding(me.step) then map[me.key := w] else map[], map[w := me],
          if me.left.Some? then {me.left.value} else {})
  }

  /** Its two stats err, and everything else goes well. */
  function BlindRun(w: nat, key: Key, temp: nat): seq<Event> {
    [Call(w, key)] + ([Stat(w, false)] + ([TryLock(w)] + ([Restat(w, false)] + BlindTail(w, temp))))
  }

  function BlindTail(w: nat, temp: nat): seq<Event> {
    [MakeTemp(w, Some(temp))] + ([Clone(w, true)] + ([CheckOut(w, true)] + ([Rename(w, Exists)] + ([Unlock(w)] + []))))
  }

  lemma RunPrepends(c: Cache, e: Event, rest: seq<Event>, end: Cache)
    requires Enabled(c, e) && Admissible(Next(c, e), rest) && Run(Next(c, e), rest) == end
    ensures Admissible(c, [e] + rest) && Run(c, [e] + rest) == end
  {
    hide Enabled, Next;
    assert ([e] + rest)[1..] == rest;
  }

  /** A step of the only worker that publishes nothing keeps that shape. */
  lemma BesideStep(w: nat, me: Worker, temps: map<nat, Tree>, e: Event, me': Worker, temps': map<nat, Tree>)
    requires Enabled(Beside(w, me, temps), e) && !e.Call? && !e.Crash? && e.worker == w && (e.Rename? ==> !e.reply.Renamed?)
    requires me.left.None? || e.Unlock?
    requires me' == NextWorker(Beside(w, me, temps), e) && temps' == NextTemps(Beside(w, me, temps), e)
    ensures Next(Beside(w, me, temps), e) == Beside(w, me', temps')
  {
    var c := Beside(w, me, temps);
    HoldingChanges(c, e);
    assert me'.left == if Leaves(c, e) then Some(me.step.temp) else me.left;
    hide NextTemps, NextWorker, Holding;
    assert c.workers[e.worker := me'] == map[w := me'];
  }

  function BlindWorker(key: Key, step: Step, left: Option<nat>): Worker {
    Worker(key, step, 1, true, false, left)
  }

  predicate Steps(c: Cache, e: Event, c': Cache) {
    Enabled(c, e) && Next(c, e) == c'
  }

  lemma BlindFill(w: nat, key: Key, temp: nat)
    ensures var partial, full := map[temp := Partial], map[temp := Complete(key.sha)];
            && Steps(Beside(w, BlindWorker(key, Making, None), map[]), MakeTemp(w, Some(temp)),
                     Beside(w, BlindWorker(key, Cloning(temp), None), partial))
            && Steps(Beside(w, BlindWorker(key, Cloning(temp), None), partial), Clone(w, true),
                     Beside(w, BlindWorker(key, CheckingOut(temp), None), partial))
            && Steps(Beside(w, BlindWorker(key, CheckingOut(temp), None), partial), CheckOut(w, true),
                     Beside(w, BlindWorker(key, Renaming(temp), None), full))
  {
    var partial, full := map[temp := Partial], map[temp := Complete(key.sha)];
    assert partial[temp := Partial] == partial && partial[temp := Complete(key.sha)] == full;
    BesideStep(w, BlindWorker(key, Making, None), map[], MakeTemp(w, Some(temp)), BlindWorker(key, Cloning(temp), None), partial);
    BesideStep(w, BlindWorker(key, Cloning(temp), None), partial, Clone(w, true), BlindWorker(key, CheckingOut(temp), None), partial);
    BesideStep(w, BlindWorker(key, CheckingOut(temp), None), partial, CheckOut(w, true), BlindWorker(key, Renaming(temp), None), full);
    hide Next;
  }

  lemma BlindMove(w: nat, key: Key, temp: nat)
    ensures var full := map[temp := Complete(key.sha)];
            && Steps(Beside(w, BlindWorker(key, Renaming(temp), None), full), Rename(w, Exists),
                     Beside(w, BlindWorker(key, Unlocking(true), Some(temp)), full))
            && Steps(Beside(w, BlindWorker(key, Unlocking(true), Some(temp)), full), Unlock(w),
                     Beside(w, BlindWorker(key, Returned(true), Some(temp)), full))
  {
    var full := map[temp := Complete(key.sha)];
    BesideStep(w, BlindWorker(key, Renaming(temp), None), full, Rename(w, Exists), BlindWorker(key, Unlocking(true), Some(temp)), full);
    BesideStep(w, BlindWorker(key, Unlocking(true), Some(temp)), full, Unlock(w), BlindWorker(key, Returned(true), Some(temp)), full);
    hide Next;
  }

  lemma BlindTailRuns(w: nat, key: Key, temp: nat)
    ensures var c, end := Beside(w, BlindWorker(key, Making, None), map[]),
                          Beside(w, BlindWorker(key, Returned(true), Some(temp)), map[temp := Complete(key.sha)]);
            Admissible(c, BlindTail(w, temp)) && Run(c, BlindTail(w, temp)) == end
  {
    var partial, full := map[temp := Partial], map[temp := Complete(key.sha)];
    BlindFill(w, key, temp);
    BlindMove(w, key, temp);
    hide Next, Enabled, Beside, BlindWorker;
    var end := Beside(w, BlindWorker(key, Returned(true), Some(temp)), full);
    RunPrepends(Beside(w, BlindWorker(key, Unlocking(true), Some(temp)), full), Unlock(w), [], end);
    RunPrepends(Beside(w, BlindWorker(key, Renaming(temp), None), full), Rename(w, Exists), [Unlock(w)] + [], end);
    RunPrepends(Beside(w, BlindWorker(key, CheckingOut(temp), None), partial), CheckOut(w, true),
                [Rename(w, Exists)] + ([Unlock(w)] + []), end);
    RunPrepends(Beside(w, BlindWorker(key, Cloning(temp), None), partial), Clone(w, true),
                [CheckOut(w, true)] + ([Rename(w, Exists)] + ([Unlock(w)] + [])), end);
    RunPrepends(Beside(w, BlindWorker(key, Making, None), map[]), MakeTemp(w, Some(temp)),
                [Clone(w, true)] + ([CheckOut(w, true)] + ([Rename(w, Exists)] + ([Unlock(w)] + []))), end);
  }

  /** A stat that errs on a published directory is enough: the worker succeeds and leaves its temp directory behind. */
  lemma UnansweredStatsLeaveATemp(w: nat, key: Key, temp: nat)
    ensures var c := Cache(map[key := Complete(key.sha)], map[], map[], map[], {});
            && Inv(c) && Admissible(c, BlindRun(w, key, temp))
            && Run(c, BlindRun(w, key, temp)) ==
               Beside(w, Worker(key, Returned(true), 1, true, false, Some(temp)), map[temp := Complete(key.sha)])
  {
    var c := Cache(map[key := Complete(key.sha)], map[], map[], map[], {});
    NewProcessStartsWell(c.finals, map[]);
    BlindTailRuns(w, key, temp);
    var m1 := Worker(key, Looking, 0, false, false, None);
    var m2, m3, m4 := m1.(step := Locking), Worker(key, Locked, 1, false, false, None), Worker(key, Making, 1, true, false, None);
    var c1, c2, c3, c4 := Beside(w, m1, map[]), Beside(w, m2, map[]), Beside(w, m3, map[]), Beside(w, m4, map[]);
    assert Next(c, Call(w, key)) == c1;
    BesideStep(w, m1, map[], Stat(w, false), m2, map[]);
    BesideStep(w, m2, map[], TryLock(w), m3, map[]);
    BesideStep(w, m3, map[], Restat(w, false), m4, map[]);
    var end := Beside(w, Worker(key, Returned(true), 1, true, false, Some(temp)), map[temp := Complete(key.sha)]);
    hide Next, Beside, BlindTail, Inv;
    assert Enabled(c, Call(w, key)) && Enabled(c1, Stat(w, false)) && Enabled(c2, TryLock(w)) && Enabled(c3, Restat(w, false));
    hide Enabled;
    RunPrepends(c3, Restat(w, false), BlindTail(w, temp), end);
    RunPrepends(c2, TryLock(w), [Restat(w, false)] + BlindTail(w, temp), end);
    RunPrepends(c1, Stat(w, false), [TryLock(w)] + ([Restat(w, false)] + BlindTail(w, temp)), end);
    RunPrepends(c, Call(w, key), [Stat(w, false)] + ([TryLock(w)] + ([Restat(w, false)] + BlindTail(w, temp))), end);
  }
}
