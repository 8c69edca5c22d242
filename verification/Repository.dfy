/** internal/git: Checkout as the code of one worker. Between any two of its calls the other workers may take any steps. */
module Repository {
  import opened Outcomes
  import opened CheckoutCache

  datatype CheckoutError = MakeTempFailed | GitFailed | PublishFailed | LockFailed | TimedOut

  datatype LockReply = Taken | Busy | Broken

  function Error(r: Result<Key, CheckoutError>): Option<CheckoutError> {
    if r.Ok? then None else Some(r.error)
  }

  /** The call that an answer of Checkout reports; running out of polls is no call's error. */
  function Reported(r: Result<Key, CheckoutError>): seq<CheckoutError> {
    if r.Ok? || r.error.TimedOut? then [] else [r.error]
  }

  /** The cache directory on disk. The ghost fields record what this worker's calls answered, and only those calls write
      them: `busy` the locks found taken, `errors` the calls that went wrong, in order, `unseen` the stats that erred, and
      `unremoved` the removals that did not finish. */
  class CacheDirectory {
    var finals: map<Key, Tree>
    var temps: map<nat, Tree>
    var locks: map<Key, nat>
    ghost var busy: nat
    ghost var errors: seq<CheckoutError>
    ghost var unseen: nat
    ghost var unremoved: nat

    constructor (finals: map<Key, Tree>, temps: map<nat, Tree>)
      ensures this.finals == finals && this.temps == temps && this.locks == map[]
    {
      this.finals, this.temps, this.locks := finals, temps, map[];
      busy, errors, unseen, unremoved := 0, [], 0, 0;
    }

    ghost predicate Mirrors(c: Cache)
      reads this
    {
      finals == c.finals && temps == c.temps && locks == c.locks
    }

    /** Any number of steps of other workers: any reachable state in which this worker stands where it stood. */
    method Interfere(me: nat, ghost start: Cache, ghost es: seq<Event>, ghost c: Cache)
      returns (ghost es': seq<Event>, ghost c': Cache)
      requires Reached(start, es, c) && Mirrors(c) && me in c.workers
      modifies this`finals, this`temps, this`locks
      ensures Reached(start, es', c') && Mirrors(c')
      ensures me in c'.workers && c'.workers[me] == c.workers[me]
    {
      es', c' := es, c;
    }

    /** A non-blocking flock on the lock file, which may also fail to open. */
    method TryLock(me: nat, key: Key) returns (reply: LockReply)
      modifies this`locks, this`busy, this`errors
      ensures busy == old(busy) + if reply.Busy? then 1 else 0
      ensures errors == old(errors) + if reply.Broken? then [LockFailed] else []
      ensures reply.Taken? ==> key !in old(locks) && locks == old(locks)[key := me]
      ensures reply.Busy? ==> key in old(locks)
      ensures !reply.Taken? ==> locks == old(locks)
    {
      var openFails: bool := *;
      reply := if openFails then Broken else if key in locks then Busy else Taken;
      if reply.Taken? {
        locks := locks[key := me];
      }
      busy := busy + if reply.Busy? then 1 else 0;
      errors := errors + if reply.Broken? then [LockFailed] else [];
    }

    method MakeTemp() returns (made: Option<nat>)
      modifies this`temps, this`errors
      ensures errors == old(errors) + if made.None? then [MakeTempFailed] else []
      ensures made.Some? ==> made.value !in old(temps) && temps == old(temps)[made.value := Partial]
      ensures made.None? ==> temps == old(temps)
    {
      var ok: bool, name: nat := *, *;
      made := None;
      if ok && name !in temps {
        temps := temps[name := Partial];
        made := Some(name);
      }
      errors := errors + if made.None? then [MakeTempFailed] else [];
    }

    /** An error of stat reads as absence. */
    method Stat(key: Key) returns (found: bool, ghost answered: bool)
      modifies this`unseen
      ensures found <==> answered && key in finals
      ensures unseen == old(unseen) + if answered then 0 else 1
    {
      var ok: bool := *;
      answered, found := ok, ok && key in finals;
      unseen := unseen + if ok then 0 else 1;
    }

    /** A git command in the temp directory: a successful checkout leaves the whole tree, a failed one anything. */
    method Git(temp: nat, result: Tree) returns (ok: bool)
      requires temp in temps
      modifies this`temps, this`errors
      ensures temps == old(temps)[temp := if ok then result else Partial]
      ensures errors == old(errors) + if ok then [] else [GitFailed]
    {
      ok := *;
      temps := temps[temp := if ok then result else Partial];
      errors := errors + if ok then [] else [GitFailed];
    }

    /** A rename onto a non-empty directory never succeeds; other errors can come up at any time. */
    method Rename(temp: nat, key: Key) returns (reply: RenameReply)
      requires temp in temps
      modifies this`finals, this`temps, this`errors
      ensures errors == old(errors) + if reply.Refused? then [PublishFailed] else []
      ensures reply.Renamed? ==> key !in old(finals) && finals == old(finals)[key := old(temps)[temp]] && temps == old(temps) - {temp}
      ensures reply.Exists? ==> key in old(finals)
      ensures !reply.Renamed? ==> finals == old(finals) && temps == old(temps)
    {
      var fails: bool := *;
      reply := if fails then Refused else if key in finals then Exists else Renamed;
      if reply.Renamed? {
        finals := finals[key := temps[temp]];
        temps := temps - {temp};
      }
      errors := errors + if reply.Refused? then [PublishFailed] else [];
    }

    /** Removal may stop half-way. */
    method RemoveAll(temp: nat) returns (removed: bool)
      requires temp in temps
      modifies this`temps, this`unremoved
      ensures temps == if removed then old(temps) - {temp} else old(temps)[temp := Partial]
      ensures unremoved == old(unremoved) + if removed then 0 else 1
    {
      removed := *;
      unremoved := unremoved + if removed then 0 else 1;
      temps := if removed then temps - {temp} else temps[temp := Partial];
    }

    /** Where this worker stands in the state the run has reached, which is the state of the directory. */
    ghost predicate Stands(me: nat, key: Key, step: Step, bodies: nat, start: Cache, es: seq<Event>, c: Cache)
      reads this
    {
      && Reached(start, es, c) && Mirrors(c) && me in c.workers
      && c.workers[me].key == key && c.workers[me].step == step && c.workers[me].bodies == bodies
    }

    /** What the critical section returns is what the one call that went wrong answered. Only a refused rename can go
        unreported, and only if the stat under the lock did not see the published directory. */
    ghost predicate Answers(error: Option<CheckoutError>, blind: bool, before: seq<CheckoutError>)
      reads this
    {
      && error != Some(LockFailed) && error != Some(TimedOut)
      && (errors == before + (if error.None? then [] else [error.value])
          || (error.None? && blind && errors == before + [PublishFailed]))
    }

    lemma OneStepOn(start: Cache, es: seq<Event>, c: Cache, e: Event)
      requires Reached(start, es, c) && Enabled(c, e)
      ensures Reached(start, es + [e], Next(c, e))
      ensures Next(c, e).workers == c.workers[e.worker := NextWorker(c, e)] && Next(c, e).temps == NextTemps(c, e)
      ensures Next(c, e).finals == if e.Rename? && e.reply.Renamed?
                                   then c.finals[c.workers[e.worker].key := c.temps[c.workers[e.worker].step.temp]] else c.finals
      ensures !e.MakeTemp? && !e.Clone? && !e.CheckOut? && !e.Rename? && !e.RemoveTemp? ==> Next(c, e).temps == c.temps
      ensures e.TryLock? ==> Next(c, e).locks == if c.workers[e.worker].key in c.locks
                                                 then c.locks else c.locks[c.workers[e.worker].key := e.worker]
      ensures e.Unlock? ==> Next(c, e).locks == c.locks - {c.workers[e.worker].key}
      ensures !e.TryLock? && !e.Unlock? && !e.Crash? ==> Next(c, e).locks == c.locks
    {
      ReachedByOneMore(start, es, c, e);
    }

    /** A worker takes a published directory for missing only if a stat erred, and reports the rename that cannot succeed then
        only if the stat after it erred as well. */
    ghost predicate Unseen(error: Option<CheckoutError>, blind: bool, before: nat)
      reads this
    {
      unseen >= before + (if blind then 1 else 0) + if error == Some(PublishFailed) && blind then 1 else 0
    }

    /** The critical section up to its deferred cleanup. `cleanupDir` is the directory the cleanup still has to remove. */
    method Materialize(me: nat, key: Key, ghost start: Cache, ghost before: seq<Event>, ghost c0: Cache)
      returns (error: Option<CheckoutError>, cleanupDir: Option<nat>, ghost es: seq<Event>, ghost c: Cache)
      requires Stands(me, key, Locked, 1, start, before, c0) && !c0.workers[me].uncleaned && !c0.workers[me].blind
      modifies this`finals, this`temps, this`locks, this`errors, this`unseen
      ensures Stands(me, key, if error.None? then Unlocking(true)
                              else if cleanupDir.Some? then Cleaning(cleanupDir.value) else Unlocking(false), 1, start, es, c)
      ensures error.None? ==> cleanupDir.None?
      ensures !c.workers[me].uncleaned
      ensures Answers(error, c.workers[me].blind, old(errors))
      ensures Unseen(error, c.workers[me].blind, old(unseen))
    {
      hide Reached, Inv, Admissible, Run, Next, NextTemps;
      error, cleanupDir, es, c := None, None, before, c0;
      var published; ghost var answered;
      published, answered := Stat(key);
      OneStepOn(start, es, c, Restat(me, answered));
      es, c := es + [Restat(me, answered)], Next(c, Restat(me, answered));
      if published {
        return;
      }
      es, c := Interfere(me, start, es, c);
      error, cleanupDir, es, c := Build(me, key, start, es, c);
    }

    /** A checkout built in a temp directory and moved into place. */
    method Build(me: nat, key: Key, ghost start: Cache, ghost before: seq<Event>, ghost c0: Cache)
      returns (error: Option<CheckoutError>, cleanupDir: Option<nat>, ghost es: seq<Event>, ghost c: Cache)
      requires Stands(me, key, Making, 1, start, before, c0)
      modifies this`finals, this`temps, this`locks, this`errors, this`unseen
      ensures Stands(me, key, if error.None? then Unlocking(true)
                              else if cleanupDir.Some? then Cleaning(cleanupDir.value) else Unlocking(false), 1, start, es, c)
      ensures error.None? ==> cleanupDir.None?
      ensures c.workers[me].blind == c0.workers[me].blind && c.workers[me].uncleaned == c0.workers[me].uncleaned
      ensures Answers(error, c.workers[me].blind, old(errors))
      ensures unseen >= old(unseen) + if error == Some(PublishFailed) && c.workers[me].blind then 1 else 0
    {
      hide Reached, Inv, Admissible, Run, Next;
      error, cleanupDir, es, c := None, None, before, c0;
      cleanupDir := MakeTemp();
      OneStepOn(start, es, c, Event.MakeTemp(me, cleanupDir));
      es, c := es + [Event.MakeTemp(me, cleanupDir)], Next(c, Event.MakeTemp(me, cleanupDir));
      if cleanupDir.None? {
        error := Some(MakeTempFailed);
        return;
      }
      es, c := Interfere(me, start, es, c);
      error, es, c := FillAndMove(me, key, cleanupDir.value, start, es, c);
      if error.None? {
        cleanupDir := None;
      }
    }

    method FillAndMove(me: nat, key: Key, temp: nat, ghost start: Cache, ghost before: seq<Event>, ghost c0: Cache)
      returns (error: Option<CheckoutError>, ghost es: seq<Event>, ghost c: Cache)
      requires Stands(me, key, Cloning(temp), 1, start, before, c0)
      modifies this`finals, this`temps, this`locks, this`errors, this`unseen
      ensures Stands(me, key, if error.None? then Unlocking(true) else Cleaning(temp), 1, start, es, c)
      ensures c.workers[me].blind == c0.workers[me].blind && c.workers[me].uncleaned == c0.workers[me].uncleaned
      ensures Answers(error, c.workers[me].blind, old(errors))
      ensures unseen >= old(unseen) + if error == Some(PublishFailed) && c.workers[me].blind then 1 else 0
    {
      hide Reached, Mirrors;
      error, es, c := Fill(me, key, temp, start, before, c0);
      if error.Some? {
        return;
      }
      es, c := Interfere(me, start, es, c);
      error, es, c := Move(me, key, temp, start, es, c);
    }

    /** The rename, and the stat that decides whether its failure matters: a directory that is there counts as success. */
    method Move(me: nat, key: Key, temp: nat, ghost start: Cache, ghost before: seq<Event>, ghost c0: Cache)
      returns (error: Option<CheckoutError>, ghost es: seq<Event>, ghost c: Cache)
      requires Stands(me, key, Renaming(temp), 1, start, before, c0)
      modifies this`finals, this`temps, this`locks, this`errors, this`unseen
      ensures Stands(me, key, if error.None? then Unlocking(true) else Cleaning(temp), 1, start, es, c)
      ensures error.Some? ==> error.value == PublishFailed
      ensures c.workers[me].blind == c0.workers[me].blind && c.workers[me].uncleaned == c0.workers[me].uncleaned
      ensures Answers(error, c.workers[me].blind, old(errors))
      ensures unseen >= old(unseen) + if error == Some(PublishFailed) && c.workers[me].blind then 1 else 0
    {
      hide Reached, Inv, Admissible, Run, Next;
      error, es, c := None, before, c0;
      Known(me, start, es, c);
      var reply := Rename(temp, key);
      OneStepOn(start, es, c, Event.Rename(me, reply));
      es, c := es + [Event.Rename(me, reply)], Next(c, Event.Rename(me, reply));
      if reply.Exists? {
        return;
      }
      if reply.Refused? {
        es, c := Interfere(me, start, es, c);
        error, es, c := Settle(me, key, temp, start, es, c);
      }
    }

    /** The stat after a refused rename. */
    method Settle(me: nat, key: Key, temp: nat, ghost start: Cache, ghost before: seq<Event>, ghost c0: Cache)
      returns (error: Option<CheckoutError>, ghost es: seq<Event>, ghost c: Cache)
      requires Stands(me, key, RenameFailed(temp), 1, start, before, c0)
      modifies this`unseen
      ensures Stands(me, key, if error.None? then Unlocking(true) else Cleaning(temp), 1, start, es, c)
      ensures error == None || error == Some(PublishFailed)
      ensures c.workers[me].blind == c0.workers[me].blind && c.workers[me].uncleaned == c0.workers[me].uncleaned
      ensures error.None? ==> c.workers[me].blind
      ensures unseen >= old(unseen) + if error.Some? && c.workers[me].blind then 1 else 0
    {
      hide Reached, Inv, Admissible, Run, Next, NextTemps;
      error, es, c := None, before, c0;
      Known(me, start, es, c);
      var published; ghost var answered;
      published, answered := Stat(key);
      OneStepOn(start, es, c, StatTarget(me, answered));
      es, c := es + [StatTarget(me, answered)], Next(c, StatTarget(me, answered));
      if !published {
        error := Some(PublishFailed);
      }
    }

    /** clone and checkout into the temp directory */
    method Fill(me: nat, key: Key, temp: nat, ghost start: Cache, ghost before: seq<Event>, ghost c0: Cache)
      returns (error: Option<CheckoutError>, ghost es: seq<Event>, ghost c: Cache)
      requires Stands(me, key, Cloning(temp), 1, start, before, c0)
      modifies this`finals, this`temps, this`locks, this`errors
      ensures Stands(me, key, if error.None? then Renaming(temp) else Cleaning(temp), 1, start, es, c)
      ensures error.Some? ==> error.value == GitFailed
      ensures c.workers[me].blind == c0.workers[me].blind && c.workers[me].uncleaned == c0.workers[me].uncleaned
      ensures errors == old(errors) + if error.None? then [] else [GitFailed]
    {
      hide Reached, Inv, Admissible, Run, Next;
      error, es, c := None, before, c0;
      Known(me, start, es, c);
      var ok := Git(temp, Partial);
      OneStepOn(start, es, c, Clone(me, ok));
      es, c := es + [Clone(me, ok)], Next(c, Clone(me, ok));
      if !ok {
        error := Some(GitFailed);
        return;
      }
      es, c := Interfere(me, start, es, c);
      Known(me, start, es, c);
      ok := Git(temp, Complete(key.sha));
      OneStepOn(start, es, c, CheckOut(me, ok));
      es, c := es + [CheckOut(me, ok)], Next(c, CheckOut(me, ok));
      if !ok {
        error := Some(GitFailed);
      }
    }

    lemma Known(me: nat, start: Cache, es: seq<Event>, c: Cache)
      requires Reached(start, es, c) && Mirrors(c) && me in c.workers
      ensures var w := c.workers[me];
              (HasTemp(w.step) ==> w.step.temp in temps) && (Unpublished(w.step) ==> (w.key in finals <==> w.blind))
    {
      assert WorkerKnows(c, me);
    }

    /** The whole critical section: whichever way it ends, the cleanup has tried to remove what it was told to. */
    method Publish(me: nat, key: Key, ghost start: Cache, ghost before: seq<Event>, ghost c0: Cache)
      returns (error: Option<CheckoutError>, ghost es: seq<Event>, ghost c: Cache)
      requires Stands(me, key, Locked, 1, start, before, c0) && !c0.workers[me].uncleaned && !c0.workers[me].blind
      modifies this`finals, this`temps, this`locks, this`errors, this`unseen, this`unremoved
      ensures Stands(me, key, Unlocking(error.None?), 1, start, es, c)
      ensures Answers(error, c.workers[me].blind, old(errors))
      ensures Unseen(error, c.workers[me].blind, old(unseen))
      ensures c.workers[me].uncleaned <==> unremoved > old(unremoved)
    {
      hide Reached, Inv, Admissible, Run, Next;
      var cleanupDir: Option<nat>;
      error, cleanupDir, es, c := Materialize(me, key, start, before, c0);
      if cleanupDir.Some? {
        es, c := Interfere(me, start, es, c);
        Known(me, start, es, c);
        var removed := RemoveAll(cleanupDir.value);
        OneStepOn(start, es, c, RemoveTemp(me, removed));
        es, c := es + [RemoveTemp(me, removed)], Next(c, RemoveTemp(me, removed));
      }
    }

    /** Checkout of a resolved commit: stat, else poll for the lock until the deadline and publish under it. Every path is
        a run of the protocol that ends with this worker returned; the rest follows from the protocol's invariant. A temp
        directory stays behind exactly if the call succeeds although its stat under the lock erred on the published
        directory, or fails and cannot remove it. An error is the answer of the one call that went wrong, or the lock was
        found taken polls + 1 times; if neither happened, the checkout is there. */
    method Checkout(me: nat, key: Key, polls: nat, ghost start: Cache)
      returns (r: Result<Key, CheckoutError>, ghost es: seq<Event>, ghost c: Cache)
      requires Inv(start) && Mirrors(start) && me !in start.workers
      modifies this
      ensures Admissible(start, es) && Run(start, es) == c && Mirrors(c)
      ensures me in c.workers && c.workers[me].key == key && c.workers[me].step == Returned(r.Ok?)
      ensures r.Ok? ==> r.value == key && key in finals && finals[key] == Complete(key.sha)
      ensures forall k :: k in old(finals) ==> k in finals && finals[k] == old(finals)[k]
      ensures forall k :: k in locks ==> locks[k] != me
      ensures key in old(finals) && unseen == old(unseen) ==> r.Ok? && c.workers[me].bodies == 0
      ensures busy <= old(busy) + polls + 1 && (r == Err(TimedOut) <==> busy == old(busy) + polls + 1)
      ensures errors == old(errors) + Reported(r) || (r.Ok? && c.workers[me].blind && errors == old(errors) + [PublishFailed])
      ensures Unseen(Error(r), c.workers[me].blind, old(unseen))
      ensures c.workers[me].uncleaned <==> unremoved > old(unremoved)
      ensures r == Err(TimedOut) || r == Err(LockFailed) ==> c.workers[me].bodies == 0
      ensures c.workers[me].bodies <= 1
      ensures c.workers[me].left.Some? <==> if r.Ok? then c.workers[me].blind else c.workers[me].uncleaned
      ensures c.workers[me].left.Some? ==> c.workers[me].left.value in temps
    {
      hide Reached, Inv, Admissible, Run, Next, NextTemps;
      Called(me, key, start);
      es, c := [Call(me, key)], Next(start, Call(me, key));
      var published; ghost var answered;
      published, answered := Stat(key);
      OneStepOn(start, es, c, Event.Stat(me, answered));
      es, c := es + [Event.Stat(me, answered)], Next(c, Event.Stat(me, answered));
      if published {
        r := Ok(key);
      } else {
        r, es, c := Poll(me, key, polls, start, es, c);
      }
      Outcome(me, start, es, c);
    }

    lemma Called(me: nat, key: Key, start: Cache)
      requires Inv(start) && Mirrors(start) && me !in start.workers
      ensures Stands(me, key, Looking, 0, start, [Call(me, key)], Next(start, Call(me, key)))
      ensures Next(start, Call(me, key)).workers[me] == Worker(key, Looking, 0, false, false, None)
    {
      ReachedByOneMore(start, [], start, Call(me, key));
      hide Reached;
      assert [] + [Call(me, key)] == [Call(me, key)];
    }

    lemma Outcome(me: nat, start: Cache, es: seq<Event>, c: Cache)
      requires Reached(start, es, c) && me in c.workers && c.workers[me].step.Returned?
      ensures Admissible(start, es) && Run(start, es) == c
      ensures forall k :: k in start.finals ==> k in c.finals && c.finals[k] == start.finals[k]
      ensures forall k :: k in c.finals ==> c.finals[k] == Complete(k.sha)
      ensures forall k :: k in c.locks ==> c.locks[k] != me
      ensures c.workers[me].step.ok ==> c.workers[me].key in c.finals
      ensures c.workers[me].left.Some? <==> if c.workers[me].step.ok then c.workers[me].blind else c.workers[me].uncleaned
      ensures c.workers[me].left.Some? ==> c.workers[me].left.value in c.temps
    {
      PublishedIsCompleteForever(start, es);
      assert WorkerKnows(c, me);
    }

    /** fn and the deferred unlock of withLock */
    method UnderLock(me: nat, key: Key, ghost start: Cache, ghost before: seq<Event>, ghost c0: Cache)
      returns (r: Result<Key, CheckoutError>, ghost es: seq<Event>, ghost c: Cache)
      requires Stands(me, key, Locked, 1, start, before, c0) && !c0.workers[me].uncleaned && !c0.workers[me].blind
      modifies this`finals, this`temps, this`locks, this`errors, this`unseen, this`unremoved
      ensures Stands(me, key, Returned(r.Ok?), 1, start, es, c)
      ensures r.Ok? ==> r.value == key
      ensures Answers(Error(r), c.workers[me].blind, old(errors))
      ensures Unseen(Error(r), c.workers[me].blind, old(unseen))
      ensures c.workers[me].uncleaned <==> unremoved > old(unremoved)
    {
      hide Reached, Inv, Admissible, Run, Next, NextTemps;
      es, c := Interfere(me, start, before, c0);
      var error;
      error, es, c := Publish(me, key, start, es, c);
      es, c := Interfere(me, start, es, c);
      locks := locks - {key};
      OneStepOn(start, es, c, Unlock(me));
      es, c := es + [Unlock(me)], Next(c, Unlock(me));
      r := if error.None? then Ok(key) else Err(error.value);
    }

    lemma Took(me: nat, key: Key, start: Cache, es: seq<Event>, c: Cache)
      requires Reached(start, es, c) && me in c.workers && finals == c.finals && temps == c.temps
      requires c.workers[me].key == key && c.workers[me].step.Locking? && c.workers[me].bodies == 0
      requires key !in c.locks && locks == c.locks[key := me]
      ensures var c' := Next(c, Event.TryLock(me));
              && Stands(me, key, Locked, 1, start, es + [Event.TryLock(me)], c')
              && c'.workers[me].uncleaned == c.workers[me].uncleaned && c'.workers[me].blind == c.workers[me].blind
    {
      hide Reached;
      OneStepOn(start, es, c, Event.TryLock(me));
    }

    lemma FoundTaken(me: nat, key: Key, start: Cache, es: seq<Event>, c: Cache)
      requires Stands(me, key, Locking, 0, start, es, c) && key in c.locks
      ensures var c' := Next(c, Event.TryLock(me));
              Stands(me, key, Locking, 0, start, es + [Event.TryLock(me)], c') && c'.workers[me] == c.workers[me]
    {
      hide Reached;
      OneStepOn(start, es, c, Event.TryLock(me));
    }

    lemma GaveUp(me: nat, key: Key, start: Cache, es: seq<Event>, c: Cache)
      requires Stands(me, key, Locking, 0, start, es, c)
      ensures var c' := Next(c, TimeOut(me));
              && Stands(me, key, Returned(false), 0, start, es + [TimeOut(me)], c')
              && c'.workers[me].uncleaned == c.workers[me].uncleaned && c'.workers[me].blind == c.workers[me].blind
    {
      hide Reached;
      OneStepOn(start, es, c, TimeOut(me));
    }

    /** withLock around the critical section */
    method Poll(me: nat, key: Key, polls: nat, ghost start: Cache, ghost before: seq<Event>, ghost c0: Cache)
      returns (r: Result<Key, CheckoutError>, ghost es: seq<Event>, ghost c: Cache)
      requires Stands(me, key, Locking, 0, start, before, c0) && !c0.workers[me].uncleaned && !c0.workers[me].blind
      modifies this
      ensures Stands(me, key, Returned(r.Ok?), if r == Err(TimedOut) || r == Err(LockFailed) then 0 else 1, start, es, c)
      ensures r.Ok? ==> r.value == key
      ensures busy <= old(busy) + polls + 1 && (r == Err(TimedOut) <==> busy == old(busy) + polls + 1)
      ensures errors == old(errors) + Reported(r) || (r.Ok? && c.workers[me].blind && errors == old(errors) + [PublishFailed])
      ensures Unseen(Error(r), c.workers[me].blind, old(unseen))
      ensures c.workers[me].uncleaned <==> unremoved > old(unremoved)
    {
      hide Reached, Inv, Admissible, Run, Next, NextTemps, NextWorker;
      es, c := before, c0;
      var left := polls;
      while true
        invariant Stands(me, key, Locking, 0, start, es, c) && !c.workers[me].uncleaned && !c.workers[me].blind
        invariant 0 <= left <= polls && busy == old(busy) + polls - left
        invariant errors == old(errors) && unseen == old(unseen) && unremoved == old(unremoved)
        decreases left
      {
        es, c := Interfere(me, start, es, c);
        var reply := TryLock(me, key);
        if reply.Taken? {
          Took(me, key, start, es, c);
          es, c := es + [Event.TryLock(me)], Next(c, Event.TryLock(me));
          r, es, c := UnderLock(me, key, start, es, c);
          return;
        }
        if reply.Broken? || left == 0 {
          GaveUp(me, key, start, es, c);
          es, c := es + [TimeOut(me)], Next(c, TimeOut(me));
          r := Err(if reply.Broken? then LockFailed else TimedOut);
          return;
        }
        FoundTaken(me, key, start, es, c);
        es, c := es + [Event.TryLock(me)], Next(c, Event.TryLock(me));
        left := left - 1;
      }
    }
  }

  datatype GitReply = Fine | CorruptConfig | AlreadyExists | OtherFailure

  /** The bare mirror of one repository. fetches counts completed fetches, removals how often it was thrown away. The ghost
      fields count what the calls answered: a corrupt configuration, another failure, a directory that could not be removed, a
      remote that stayed where it was to be removed, a stat of HEAD that erred, and a command run where no repository was. */
  class Mirror {
    var head: bool
    var origin: Option<string>
    var fetches: nat
    var removals: nat
    ghost var corrupt: nat
    ghost var failed: nat
    ghost var unremoved: nat
    ghost var kept: nat
    ghost var unseen: nat
    ghost var astray: nat

    constructor ()
      ensures !head && origin == None && fetches == 0 && removals == 0
    {
      head, origin, fetches, removals := false, None, 0, 0;
    }

    /** Only an answer that HEAD is missing counts; an error of the stat does not. */
    method HeadMissing() returns (missing: bool)
      modifies this`unseen
      ensures missing ==> !head
      ensures unseen == old(unseen) + if head || missing then 0 else 1
    {
      var answered: bool := *;
      missing := answered && !head;
      unseen := unseen + if head || missing then 0 else 1;
    }

    method Init() returns (reply: GitReply)
      modifies this`head, this`corrupt, this`failed
      ensures if reply.Fine? then head else head == old(head)
      ensures corrupt == old(corrupt) + if reply.CorruptConfig? then 1 else 0
      ensures failed == old(failed) + if reply.Fine? || reply.CorruptConfig? then 0 else 1
    {
      reply := *;
      head := head || reply.Fine?;
      corrupt := corrupt + if reply.CorruptConfig? then 1 else 0;
      failed := failed + if reply.Fine? || reply.CorruptConfig? then 0 else 1;
    }

    /** The answer is ignored: there may be no remote yet. */
    method RemoveOrigin()
      modifies this`origin, this`kept
      ensures origin == if kept > old(kept) then old(origin) else None
      ensures kept >= old(kept)
    {
      var ok: bool := *;
      kept := kept + if !ok && origin.Some? then 1 else 0;
      origin := if ok then None else origin;
    }

    /** Any git command but init works only in a repository. */
    method AddOrigin(url: string) returns (reply: GitReply)
      modifies this`origin, this`corrupt, this`failed, this`astray
      ensures astray == old(astray) + if head then 0 else 1
      ensures reply.Fine? || reply.AlreadyExists? ==> head
      ensures reply.Fine? ==> old(origin).None? && origin == Some(url)
      ensures reply.AlreadyExists? ==> old(origin).Some?
      ensures !reply.Fine? ==> origin == old(origin)
      ensures corrupt == old(corrupt) + if reply.CorruptConfig? then 1 else 0
      ensures failed == old(failed) + if reply.OtherFailure? then 1 else 0
    {
      reply := *;
      astray := astray + if head then 0 else 1;
      if (!head && !reply.CorruptConfig?) || (reply.Fine? && origin.Some?) || (reply.AlreadyExists? && origin.None?) {
        reply := OtherFailure;
      }
      origin := if reply.Fine? then Some(url) else origin;
      corrupt := corrupt + if reply.CorruptConfig? then 1 else 0;
      failed := failed + if reply.OtherFailure? then 1 else 0;
    }

    method Fetch() returns (reply: GitReply)
      modifies this`fetches, this`corrupt, this`failed, this`astray
      ensures astray == old(astray) + if head then 0 else 1
      ensures reply.Fine? ==> head
      ensures fetches == old(fetches) + if reply.Fine? then 1 else 0
      ensures corrupt == old(corrupt) + if reply.CorruptConfig? then 1 else 0
      ensures failed == old(failed) + if reply.Fine? || reply.CorruptConfig? then 0 else 1
    {
      reply := *;
      astray := astray + if head then 0 else 1;
      if !head && reply.Fine? {
        reply := OtherFailure;
      }
      fetches := fetches + if reply.Fine? then 1 else 0;
      corrupt := corrupt + if reply.CorruptConfig? then 1 else 0;
      failed := failed + if reply.Fine? || reply.CorruptConfig? then 0 else 1;
    }

    method Remove() returns (ok: bool)
      modifies this`head, this`origin, this`removals, this`unremoved
      ensures ok ==> !head && origin == None
      ensures removals == old(removals) + 1
      ensures unremoved == old(unremoved) + if ok then 0 else 1
    {
      ok := *;
      if ok {
        head, origin := false, None;
      }
      removals := removals + 1;
      unremoved := unremoved + if ok then 0 else 1;
    }

    /** ensureMirrorAttempt: a corrupt mirror is thrown away at most once, exactly when a command told of corruption. The call
        succeeds exactly if no other command failed, the corruption did not come back and a corrupt mirror could be removed;
        then one fetch went through, from this URL unless an older remote could not be removed. No command is run where no
        repository is, unless the stat of HEAD erred. */
    method EnsureAttempt(url: string, recovered: bool) returns (ok: bool)
      modifies this
      ensures ok ==> head && origin.Some?
      ensures ok && kept == old(kept) ==> origin == Some(url)
      ensures fetches == old(fetches) + if ok then 1 else 0
      ensures removals == old(removals) + if !recovered && corrupt > old(corrupt) then 1 else 0
      ensures ok <==> failed == old(failed) && unremoved == old(unremoved) && corrupt <= old(corrupt) + if recovered then 0 else 1
      ensures failed >= old(failed) && unremoved >= old(unremoved) && corrupt >= old(corrupt) && kept >= old(kept)
      ensures unseen >= old(unseen) && astray >= old(astray) && (astray > old(astray) ==> unseen > old(unseen))
      decreases if recovered then 0 else 1, 1
    {
      var missing := HeadMissing();
      if missing {
        var init := Init();
        if init != Fine {
          ok := RecoverOnce(url, recovered, init);
          return;
        }
      }
      RemoveOrigin();
      var added := AddOrigin(url);
      if added != Fine && added != AlreadyExists {
        ok := RecoverOnce(url, recovered, added);
        return;
      }
      var fetched := Fetch();
      if fetched != Fine {
        ok := RecoverOnce(url, recovered, fetched);
        return;
      }
      ok := true;
    }

    /** The answer to a failed git command: start over on an empty directory, once, if the configuration was corrupt. */
    method RecoverOnce(url: string, recovered: bool, failure: GitReply) returns (ok: bool)
      modifies this
      ensures ok ==> head && origin.Some?
      ensures ok && kept == old(kept) ==> origin == Some(url)
      ensures fetches == old(fetches) + if ok then 1 else 0
      ensures removals == old(removals) + if !recovered && failure.CorruptConfig? then 1 else 0
      ensures ok <==> !recovered && failure.CorruptConfig? &&
                      failed == old(failed) && unremoved == old(unremoved) && corrupt == old(corrupt)
      ensures failed >= old(failed) && unremoved >= old(unremoved) && corrupt >= old(corrupt) && kept >= old(kept)
      ensures unseen >= old(unseen) && astray >= old(astray) && (astray > old(astray) ==> unseen > old(unseen))
      ensures !failure.CorruptConfig? ==> corrupt == old(corrupt)
      decreases if recovered then 0 else 1, 0
    {
      ok := false;
      if !recovered && failure.CorruptConfig? {
        ok := Remove();
        if ok {
          ok := EnsureAttempt(url, true);
        }
      }
    }
  }
}
