/**
 The rate limiting work queue of client-go as a contract: a deduplicating queue whose keys are
 handed to one worker at a time, a set of keys waiting out their back-off, and failure counts.
 */
module WorkQueue {
  import opened Domain

  /** History of the queue: an accepted Add, a key handed to a worker, and the result of its sync. */
  datatype Event = Added(key: Key) | Began(key: Key) | Ended(key: Key, ok: bool)

  datatype Queue = Queue(
    order: seq<Key>,
    dirty: set<Key>,
    processing: set<Key>,
    waiting: set<Key>,
    failures: map<Key, nat>,
    shuttingDown: bool,
    log: seq<Event>)

  const EMPTY := Queue([], {}, {}, {}, map[], false, [])

  /** Until shutdown an added key is marked, and an Add never unmarks or hands out anything. */
  function Add(q: Queue, k: Key): (r: Queue)
    ensures r.shuttingDown == q.shuttingDown && r.processing == q.processing && r.waiting == q.waiting
    ensures r.dirty == if q.shuttingDown then q.dirty else q.dirty + {k}
  {
    if q.shuttingDown then q
    else
      var added := q.(log := q.log + [Added(k)]);
      if k in q.dirty then added
      else if k in q.processing then added.(dirty := q.dirty + {k})
      else added.(dirty := q.dirty + {k}, order := q.order + [k])
  }

  /** Hands out the oldest key; its dirty mark is cleared, so a later Add marks it again. */
  function Get(q: Queue): (Queue, Key)
    requires q.order != []
  {
    var k := q.order[0];
    (q.(order := q.order[1..], dirty := q.dirty - {k}, processing := q.processing + {k}, log := q.log + [Began(k)]), k)
  }

  /** A key marked again while it was processed goes back into the queue, even during shutdown. */
  function Done(q: Queue, k: Key): Queue {
    q.(processing := q.processing - {k}, order := if k in q.dirty then q.order + [k] else q.order)
  }

  function NumRequeues(q: Queue, k: Key): nat {
    if k in q.failures then q.failures[k] else 0
  }

  /** Counts the failure, then schedules the key unless the queue is shutting down. */
  function AddRateLimited(q: Queue, k: Key): Queue {
    q.(failures := q.failures[k := NumRequeues(q, k) + 1],
       waiting := if q.shuttingDown then q.waiting else q.waiting + {k})
  }

  function Forget(q: Queue, k: Key): Queue {
    q.(failures := q.failures - {k})
  }

  /** The back-off of `k` is over. */
  function Expire(q: Queue, k: Key): Queue {
    if k in q.waiting then Add(q.(waiting := q.waiting - {k}), k) else q
  }

  function ShutDown(q: Queue): Queue {
    q.(shuttingDown := true)
  }

  /** A key is still going to be looked at. */
  predicate Pending(q: Queue, k: Key) {
    k in q.dirty || k in q.processing || k in q.waiting
  }

  // ---- what the history says ----

  /** `k` was added and has not been handed to a worker since. */
  function Owed(log: seq<Event>, k: Key): bool {
    if log == [] then false
    else match log[|log| - 1]
      case Added(x) => x == k || Owed(log[..|log| - 1], k)
      case Began(x) => x != k && Owed(log[..|log| - 1], k)
      case Ended(_, _) => Owed(log[..|log| - 1], k)
  }

  /** The number of failed syncs of `k` since its last successful one. */
  function Streak(log: seq<Event>, k: Key): nat {
    if log == [] then 0
    else match log[|log| - 1]
      case Ended(x, ok) =>
        if x != k then Streak(log[..|log| - 1], k)
        else if ok then 0 else Streak(log[..|log| - 1], k) + 1
      case _ => Streak(log[..|log| - 1], k)
  }

  // ---- invariant ----

  /** The queue holds exactly the dirty keys that no worker has, each once; the counts and marks match the history. */
  ghost predicate Valid(q: Queue) {
    && Distinct(q.order)
    && (forall k :: k in q.order <==> k in q.dirty && k !in q.processing)
    && (forall k :: k in q.dirty <==> Owed(q.log, k))
    && (forall k :: NumRequeues(q, k) == Streak(q.log, k))
  }

  lemma Appended(log: seq<Event>, e: Event)
    ensures (log + [e])[..|log|] == log
    ensures (log + [e])[|log|] == e
  {
  }

  lemma AddKeepsValid(q: Queue, k: Key)
    requires Valid(q)
    ensures Valid(Add(q, k))
    ensures !q.shuttingDown ==> k in Add(q, k).dirty
    ensures Add(q, k).dirty >= q.dirty && Add(q, k).dirty <= q.dirty + {k}
  {
    if !q.shuttingDown {
      var r := Add(q, k);
      Appended(q.log, Added(k));
      forall x ensures x in r.order <==> x in r.dirty && x !in r.processing {
        assert r.order == q.order || r.order == q.order + [k];
      }
    }
  }

  lemma GetKeepsValid(q: Queue)
    requires Valid(q) && q.order != []
    ensures Valid(Get(q).0)
    ensures Get(q).1 in q.dirty && Get(q).1 !in q.processing
  {
    var (q', k) := Get(q);
    Appended(q.log, Began(k));
    assert k in q.order;
    forall x ensures x in q'.order <==> x in q'.dirty && x !in q'.processing {
      assert q.order == [k] + q'.order;
      if x in q'.order {
        var i :| 0 <= i < |q'.order| && q'.order[i] == x;
        assert q.order[i + 1] == x && q.order[0] == k;
        assert x in q.order;
      }
    }
  }

  lemma DoneKeepsValid(q: Queue, k: Key)
    requires Valid(q) && k in q.processing
    ensures Valid(Done(q, k))
    ensures q.order <= Done(q, k).order && |Done(q, k).order| == |q.order| + (if k in q.dirty then 1 else 0)
  {
    assert k !in q.order;
  }

  lemma EndKeepsValid(q: Queue, k: Key, ok: bool)
    requires Valid(q)
    ensures Valid(End(q, k, ok))
  {
    Appended(q.log, Ended(k, ok));
  }

  /** What a worker does with the result of a sync, before it calls Done. */
  function End(q: Queue, k: Key, ok: bool): Queue {
    var r := if ok then Forget(q, k) else AddRateLimited(q, k);
    r.(log := q.log + [Ended(k, ok)])
  }
}
