/** The delaying work queue the workers share: what each call does to it, and the object that does it. */
module WorkQueues {

  /** items is the order keys are handed out in; delayed holds the keys waiting for a timer. */
  datatype Queue = Queue(items: seq<string>, dirty: set<string>, processing: set<string>, delayed: set<string>, shuttingDown: bool) {

    /** Exactly the dirty keys that no worker has are handed out, each once. */
    ghost predicate Valid() {
      && (forall i, j :: 0 <= i < j < |items| ==> items[i] != items[j])
      && (forall key :: key in items <==> key in dirty && key !in processing)
    }

    function Add(key: string): Queue {
      if shuttingDown || key in dirty then this
      else if key in processing then this.(dirty := dirty + {key})
      else this.(dirty := dirty + {key}, items := items + [key])
    }

    function Get(): Queue
      requires items != []
    {
      this.(items := items[1..], processing := processing + {items[0]}, dirty := dirty - {items[0]})
    }

    function Done(key: string): Queue
      requires key in processing
    {
      this.(processing := processing - {key}, items := if key in dirty then items + [key] else items)
    }

    /** A positive delay waits for its timer; any other adds at once. */
    function AddAfter(key: string, delay: int): Queue {
      if shuttingDown then this
      else if delay <= 0 then Add(key)
      else this.(delayed := delayed + {key})
    }

    /** The rate limiter's delay is always positive. */
    function AddRateLimited(key: string): Queue {
      AddAfter(key, 1)
    }

    function Fire(key: string): Queue {
      this.(delayed := delayed - {key}).Add(key)
    }

    function ShutDown(): Queue {
      this.(shuttingDown := true, delayed := {})
    }

    /** Some later Get will hand the key out, or the timer that leads to it is running. */
    predicate Scheduled(key: string) {
      key in dirty || key in delayed
    }
  }

  const EMPTY: Queue := Queue([], {}, {}, {}, false)

  lemma AddKeepsValid(q: Queue, key: string)
    requires q.Valid()
    ensures q.Add(key).Valid()
    ensures q.shuttingDown || key in q.Add(key).dirty
  {
  }

  lemma GetKeepsValid(q: Queue)
    requires q.Valid() && q.items != []
    ensures q.Get().Valid() && q.items[0] !in q.processing
  {
    assert q.items[0] in q.items;
    assert forall key :: key in q.items <==> key == q.items[0] || key in q.items[1..];
  }

  lemma DoneKeepsValid(q: Queue, key: string)
    requires q.Valid() && key in q.processing
    ensures q.Done(key).Valid()
  {
  }

  /** No call but Get takes a key off the schedule before shutdown, and Get only the key it hands out. */
  lemma OnlyGetUnschedules(q: Queue, key: string, other: string, delay: int)
    requires q.Valid() && !q.shuttingDown && q.Scheduled(key)
    ensures q.Add(other).Scheduled(key) && (other in q.processing ==> q.Done(other).Scheduled(key))
    ensures q.AddAfter(other, delay).Scheduled(key) && q.Fire(other).Scheduled(key)
    ensures q.items != [] ==> q.Get().Scheduled(key) || key == q.items[0]
  {
  }

  /** First in, first out: a key in line moves up by one with each Get and never otherwise, and a new key joins at the end. */
  lemma KeysAreServedInOrder(q: Queue, i: nat, other: string, delay: int)
    requires q.Valid() && i < |q.items|
    ensures forall p :: p in {q.Add(other), q.AddAfter(other, delay), q.Fire(other), q.ShutDown()} ==>
              |q.items| <= |p.items| <= |q.items| + 1 && p.items[i] == q.items[i]
    ensures other in q.processing ==> i < |q.Done(other).items| && q.Done(other).items[i] == q.items[i]
    ensures i > 0 ==> i - 1 < |q.Get().items| && q.Get().items[i - 1] == q.items[i]
    ensures i == 0 ==> q.items[i] !in q.Get().items && q.items[i] in q.Get().processing
  {
    GetKeepsValid(q);
  }

  datatype Request = After(key: string, delay: int) | RateLimited(key: string)

  /** The queue object. requests records, as a ghost, what this worker has asked of AddAfter and AddRateLimited, and only these
      two write it. */
  class WorkQueue {
    ghost var requests: seq<Request>
    var items: seq<string>
    var dirty: set<string>
    var processing: set<string>
    var delayed: set<string>
    var shuttingDown: bool

    function State(): Queue
      reads this`items, this`dirty, this`processing, this`delayed, this`shuttingDown
    {
      Queue(items, dirty, processing, delayed, shuttingDown)
    }

    constructor ()
      ensures State() == EMPTY
    {
      items, dirty, processing, delayed, shuttingDown := [], {}, {}, {}, false;
      requests := [];
    }

    method Add(key: string)
      modifies this`items, this`dirty
      ensures State() == old(State()).Add(key)
    {
      if shuttingDown || key in dirty {
        return;
      }
      dirty := dirty + {key};
      if key in processing {
        return;
      }
      items := items + [key];
    }

    /** Get blocks on an empty queue until shutdown; here it is called when it would return. */
    method Get() returns (key: string, shutdown: bool)
      requires items != [] || shuttingDown
      modifies this`items, this`processing, this`dirty
      ensures shutdown <==> old(items) == []
      ensures !shutdown ==> key == old(items)[0] && State() == old(State()).Get()
      ensures shutdown ==> State() == old(State())
    {
      if items == [] {
        return "", true;
      }
      key, shutdown := items[0], false;
      items := items[1..];
      processing := processing + {key};
      dirty := dirty - {key};
    }

    method Done(key: string)
      requires key in processing
      modifies this`items, this`processing
      ensures State() == old(State()).Done(key)
    {
      processing := processing - {key};
      if key in dirty {
        items := items + [key];
      }
    }

    method AddAfter(key: string, delay: int)
      modifies this
      ensures State() == old(State()).AddAfter(key, delay)
      ensures requests == old(requests) + [After(key, delay)]
    {
      requests := requests + [After(key, delay)];
      Schedule(key, delay);
    }

    /** The rate limiter picks the delay, which is positive. */
    method AddRateLimited(key: string)
      modifies this
      ensures State() == old(State()).AddRateLimited(key)
      ensures requests == old(requests) + [RateLimited(key)]
    {
      requests := requests + [RateLimited(key)];
      var delay :| delay > 0;
      Schedule(key, delay);
    }

    method Schedule(key: string, delay: int)
      modifies this`items, this`dirty, this`delayed
      ensures State() == old(State()).AddAfter(key, delay)
    {
      if shuttingDown {
        return;
      }
      if delay <= 0 {
        Add(key);
        return;
      }
      delayed := delayed + {key};
    }
  }
}
