/**
 The task queue as it is written: one worker's loop, between whose turns anything may happen to the queue, and the
 loops of the constructor, Enqueue and Shutdown. `SoloWorker` shows that the loop is a run of the step machine.
 */
module TaskQueue {
  import opened Domain
  import Q = WorkQueue

  // ---- Enqueue ----

  /** The keys of a list of objects up to the first one the key function rejects. */
  function Accepted(objs: seq<Option<Key>>): (keys: seq<Key>)
    ensures |keys| <= |objs| && (forall i :: 0 <= i < |keys| ==> objs[i] == Some(keys[i]))
    ensures |keys| < |objs| ==> objs[|keys|] == None
  {
    if objs == [] || objs[0].None? then [] else [objs[0].value] + Accepted(objs[1..])
  }

  function AddAll(q: Q.Queue, keys: seq<Key>): Q.Queue {
    if keys == [] then q else Q.Add(AddAll(q, keys[..|keys| - 1]), keys[|keys| - 1])
  }

  /** Before shutdown every accepted key is marked, once, and nothing else is; afterwards nothing is added. */
  lemma {:induction false} AddAllMarks(q: Q.Queue, keys: seq<Key>)
    requires Q.Valid(q)
    ensures Q.Valid(AddAll(q, keys))
    ensures AddAll(q, keys).shuttingDown == q.shuttingDown && AddAll(q, keys).processing == q.processing
    ensures q.shuttingDown ==> AddAll(q, keys) == q
    ensures !q.shuttingDown ==> forall k :: k in AddAll(q, keys).dirty <==> k in q.dirty || k in keys
    ensures q.order <= AddAll(q, keys).order
    decreases |keys|
  {
    if keys != [] {
      var before := keys[..|keys| - 1];
      AddAllMarks(q, before);
      Q.AddKeepsValid(AddAll(q, before), keys[|keys| - 1]);
      assert keys == before + [keys[|keys| - 1]];
    }
  }

  /** The keys of `keys` outside `known`, each at its first occurrence. */
  function FirstOf(keys: seq<Key>, known: set<Key>): seq<Key>
    decreases |keys|
  {
    if keys == [] then []
    else if keys[0] in known then FirstOf(keys[1..], known)
    else [keys[0]] + FirstOf(keys[1..], known + {keys[0]})
  }

  lemma {:induction false} FirstOfOneMore(keys: seq<Key>, k: Key, known: set<Key>)
    ensures FirstOf(keys + [k], known) == FirstOf(keys, known) + if k in known || k in keys then [] else [k]
    decreases |keys|
  {
    if keys == [] {
      assert FirstOf([k][1..], known + {k}) == [];
    } else {
      assert (keys + [k])[1..] == keys[1..] + [k];
      FirstOfOneMore(keys[1..], k, if keys[0] in known then known else known + {keys[0]});
    }
  }

  /**
   Before shutdown, the keys that were neither marked nor in process are queued behind the others, in the order of the
   call.
   */
  lemma {:induction false} AddAllQueues(q: Q.Queue, keys: seq<Key>)
    requires Q.Valid(q) && !q.shuttingDown
    ensures AddAll(q, keys).order == q.order + FirstOf(keys, q.dirty + q.processing)
    decreases |keys|
  {
    if keys != [] {
      var before, k := keys[..|keys| - 1], keys[|keys| - 1];
      AddAllQueues(q, before);
      AddAllMarks(q, before);
      assert keys == before + [k];
      FirstOfOneMore(before, k, q.dirty + q.processing);
    }
  }

  // ---- the loop of one worker ----

  /** What others do to the queue: a key is added, a back-off ends, the queue is shut down. */
  datatype Change = Arrives(k: Key) | Expires(k: Key) | ShutsDown

  function Changed(q: Q.Queue, changes: seq<Change>): Q.Queue {
    if changes == [] then q
    else
      var before := Changed(q, changes[..|changes| - 1]);
      match changes[|changes| - 1]
      case Arrives(k) => Q.Add(before, k)
      case Expires(k) => Q.Expire(before, k)
      case ShutsDown => Q.ShutDown(before)
  }

  /** One turn of the loop. An empty queue blocks the worker, or makes it leave once the queue is shutting down. */
  function Turn(q: Q.Queue, ok: bool): (Q.Queue, bool) {
    if q.order != [] then
      var (g, k) := Q.Get(q);
      (Q.Done(Q.End(g, k, ok), k), false)
    else (q, q.shuttingDown)
  }

  /** What happens before a turn, and whether the sync in it succeeds. */
  datatype Round = Round(changes: seq<Change>, ok: bool)

  /** The queue after some rounds, and whether the worker has left. */
  function Loop(q: Q.Queue, rounds: seq<Round>): (Q.Queue, bool) {
    if rounds == [] then (q, false)
    else
      var (before, quit) := Loop(q, rounds[..|rounds| - 1]);
      var round := rounds[|rounds| - 1];
      if quit then (before, true) else Turn(Changed(before, round.changes), round.ok)
  }

  lemma {:induction false} QuitStays(q: Q.Queue, rounds: seq<Round>, n: nat)
    requires n <= |rounds| && Loop(q, rounds[..n]).1
    ensures Loop(q, rounds) == Loop(q, rounds[..n])
    decreases |rounds|
  {
    if n == |rounds| {
      assert rounds[..n] == rounds;
    } else {
      var before := rounds[..|rounds| - 1];
      assert before[..n] == rounds[..n];
      QuitStays(q, before, n);
    }
  }

  lemma {:induction false} ChangedKeepsValid(q: Q.Queue, changes: seq<Change>)
    requires Q.Valid(q)
    ensures var r := Changed(q, changes);
            && Q.Valid(r) && r.processing == q.processing && q.dirty <= r.dirty
            && (q.shuttingDown ==> r.shuttingDown && r.order == q.order && r.log == q.log)
    decreases |changes|
  {
    if changes != [] {
      var before := Changed(q, changes[..|changes| - 1]);
      ChangedKeepsValid(q, changes[..|changes| - 1]);
      match changes[|changes| - 1]
      case Arrives(k) => Q.AddKeepsValid(before, k);
      case Expires(k) => Q.AddKeepsValid(before.(waiting := before.waiting - {k}), k);
      case ShutsDown =>
    }
  }

  /** A turn syncs the oldest key and leaves the rest in order; afterwards the worker holds no key. */
  lemma TurnKeepsValid(q: Q.Queue, ok: bool)
    requires Q.Valid(q)
    ensures var (r, quit) := Turn(q, ok);
            && Q.Valid(r) && r.processing == q.processing && r.shuttingDown == q.shuttingDown
            && (quit <==> q.order == [] && q.shuttingDown)
            && (q.order != [] ==>
                  r.order == q.order[1..] && r.log == q.log + [Q.Began(q.order[0])] + [Q.Ended(q.order[0], ok)])
            && (q.order == [] ==> r == q)
  {
    if q.order != [] {
      Q.GetKeepsValid(q);
      var (g, k) := Q.Get(q);
      Q.EndKeepsValid(g, k, ok);
      Q.DoneKeepsValid(Q.End(g, k, ok), k);
      assert k !in g.dirty;
    }
  }

  /** The worker leaves only when the queue is shutting down and empty, and keeps no key for itself. */
  lemma {:induction false} LoopKeepsValid(q: Q.Queue, rounds: seq<Round>)
    requires Q.Valid(q)
    ensures var (r, quit) := Loop(q, rounds);
            && Q.Valid(r) && r.processing == q.processing && (q.shuttingDown ==> r.shuttingDown)
            && (quit ==> r.shuttingDown && r.order == [])
    decreases |rounds|
  {
    if rounds != [] {
      var (before, quit) := Loop(q, rounds[..|rounds| - 1]);
      LoopKeepsValid(q, rounds[..|rounds| - 1]);
      if !quit {
        var round := rounds[|rounds| - 1];
        ChangedKeepsValid(before, round.changes);
        TurnKeepsValid(Changed(before, round.changes), round.ok);
      }
    }
  }

  /** The history of syncing `keys` in order, one in each round. */
  function Syncs(keys: seq<Key>, rounds: seq<Round>): seq<Q.Event>
    requires |keys| <= |rounds|
  {
    if keys == [] then []
    else
      var n := |keys| - 1;
      Syncs(keys[..n], rounds) + [Q.Began(keys[n])] + [Q.Ended(keys[n], rounds[n].ok)]
  }

  lemma {:induction false} SyncsPrefix(keys: seq<Key>, rounds: seq<Round>, n: nat)
    requires |keys| <= n <= |rounds|
    ensures Syncs(keys, rounds[..n]) == Syncs(keys, rounds)
  {
    if keys != [] {
      SyncsPrefix(keys[..|keys| - 1], rounds, n);
    }
  }

  /** In shutdown, `n` rounds sync the oldest `n` keys, as long as there are any. */
  lemma {:induction false} RoundsDrain(q: Q.Queue, rounds: seq<Round>)
    requires Q.Valid(q) && q.shuttingDown && |rounds| <= |q.order|
    ensures var (r, quit) := Loop(q, rounds);
            !quit && r.order == q.order[|rounds|..] && r.log == q.log + Syncs(q.order[..|rounds|], rounds)
    decreases |rounds|
  {
    var n := |rounds|;
    if n == 0 {
      assert q.order[..0] == [] && q.log + Syncs([], rounds) == q.log;
    } else {
      var before, round := rounds[..n - 1], rounds[n - 1];
      RoundsDrain(q, before);
      LoopKeepsValid(q, before);
      RoundSyncs(Loop(q, before).0, round);
      SyncsOneMore(q.order, rounds, n);
    }
  }

  lemma RoundSyncs(q: Q.Queue, round: Round)
    requires Q.Valid(q) && q.shuttingDown && q.order != []
    ensures var (r, quit) := Turn(Changed(q, round.changes), round.ok);
            && !quit && r.order == q.order[1..]
            && r.log == q.log + [Q.Began(q.order[0])] + [Q.Ended(q.order[0], round.ok)]
  {
    ChangedKeepsValid(q, round.changes);
    TurnKeepsValid(Changed(q, round.changes), round.ok);
  }

  lemma SyncsOneMore(keys: seq<Key>, rounds: seq<Round>, n: nat)
    requires 0 < n == |rounds| <= |keys|
    ensures Syncs(keys[..n], rounds) ==
            Syncs(keys[..n - 1], rounds[..n - 1]) + [Q.Began(keys[n - 1])] + [Q.Ended(keys[n - 1], rounds[n - 1].ok)]
  {
    assert keys[..n][..n - 1] == keys[..n - 1];
    SyncsPrefix(keys[..n - 1], rounds, n - 1);
  }

  /**
   In shutdown, a worker that nobody helps syncs every queued key once, oldest first, and leaves in the round after
   that, whatever arrives meanwhile.
   */
  lemma LoopDrains(q: Q.Queue, rounds: seq<Round>)
    requires Q.Valid(q) && q.shuttingDown && |rounds| > |q.order|
    ensures var (r, quit) := Loop(q, rounds);
            quit && r.order == [] && r.log == q.log + Syncs(q.order, rounds)
  {
    var n := |q.order|;
    var first := rounds[..n];
    RoundsDrain(q, first);
    LoopKeepsValid(q, first);
    assert q.order[..n] == q.order;
    SyncsPrefix(q.order, rounds, n);
    var (r, _) := Loop(q, first);
    ChangedKeepsValid(r, rounds[n].changes);
    TurnKeepsValid(Changed(r, rounds[n].changes), rounds[n].ok);
    assert rounds[..n + 1][..n] == first;
    QuitStays(q, rounds, n + 1);
  }

  class PeriodicTaskQueue {
    var queue: Q.Queue
    /** Which workers have closed their done channel. */
    var workerDone: seq<bool>

    constructor (numWorkers: nat)
      ensures queue == Q.EMPTY
      ensures |workerDone| == numWorkers && (forall i :: 0 <= i < numWorkers ==> !workerDone[i])
    {
      queue := Q.EMPTY;
      workerDone := [];
      new;
      var worker := 0;
      while worker < numWorkers
        invariant worker <= numWorkers && queue == Q.EMPTY
        invariant |workerDone| == worker && (forall i :: 0 <= i < worker ==> !workerDone[i])
      {
        workerDone := workerDone + [false];
        worker := worker + 1;
      }
    }

    /** There is no queue without workers. */
    static method New(numWorkers: int) returns (t: PeriodicTaskQueue?)
      ensures t == null <==> numWorkers <= 0
      ensures t != null ==> fresh(t) && t.queue == Q.EMPTY && |t.workerDone| == numWorkers
    {
      if numWorkers <= 0 {
        return null;
      }
      t := new PeriodicTaskQueue(numWorkers);
    }

    /** An object without a key ends the call: the objects behind it are not enqueued. */
    method Enqueue(objs: seq<Option<Key>>)
      modifies this`queue
      ensures queue == AddAll(old(queue), Accepted(objs))
    {
      ghost var keys := Accepted(objs);
      var i := 0;
      while i < |objs|
        invariant 0 <= i <= |keys|
        invariant queue == AddAll(old(queue), keys[..i])
      {
        if objs[i].None? {
          assert keys[..i] == keys;
          return;
        }
        assert keys[..i + 1][..i] == keys[..i];
        queue := Q.Add(queue, objs[i].value);
        i := i + 1;
      }
      assert keys[..i] == keys;
    }

    /**
     The worker loop, for as many rounds as are given: `rounds` says what others do meanwhile and which syncs succeed.
     */
    method RunInternal(worker: nat, rounds: seq<Round>)
      requires worker < |workerDone|
      modifies this
      ensures queue == Loop(old(queue), rounds).0
      ensures workerDone == if Loop(old(queue), rounds).1 then old(workerDone)[worker := true] else old(workerDone)
    {
      for i := 0 to |rounds|
        invariant workerDone == old(workerDone) && Loop(old(queue), rounds[..i]) == (queue, false)
      {
        assert rounds[..i + 1][..i] == rounds[..i];
        queue := Changed(queue, rounds[i].changes);
        if queue.order == [] {
          if queue.shuttingDown {
            QuitStays(old(queue), rounds, i + 1);
            workerDone := workerDone[worker := true];
            return;
          }
        } else {
          var (q, k) := Q.Get(queue);
          queue := Q.Done(Q.End(q, k, rounds[i].ok), k);
        }
      }
      assert rounds[..|rounds|] == rounds;
    }

    /**
     Waits for the workers one after the other; `leaving` says which workers leave, in order, while it waits. It
     returns if and only if every worker has left before or leaves then.
     */
    method Shutdown(leaving: seq<nat>) returns (returned: bool)
      modifies this
      ensures queue == Q.ShutDown(old(queue)) && |workerDone| == |old(workerDone)|
      ensures returned <==> forall i :: 0 <= i < |workerDone| ==> old(workerDone)[i] || i in leaving
      ensures returned ==> forall i :: 0 <= i < |workerDone| ==> workerDone[i]
    {
      queue := Q.ShutDown(queue);
      var n := 0;
      for i := 0 to |workerDone|
        invariant queue == Q.ShutDown(old(queue)) && |workerDone| == |old(workerDone)| && n <= |leaving|
        invariant forall j :: 0 <= j < |workerDone| ==> (workerDone[j] <==> old(workerDone)[j] || j in leaving[..n])
        invariant forall j :: 0 <= j < i ==> workerDone[j]
      {
        while !workerDone[i]
          invariant queue == Q.ShutDown(old(queue)) && |workerDone| == |old(workerDone)| && n <= |leaving|
          invariant forall j :: 0 <= j < |workerDone| ==> (workerDone[j] <==> old(workerDone)[j] || j in leaving[..n])
          invariant forall j :: 0 <= j < i ==> workerDone[j]
          decreases |leaving| - n
        {
          if n == |leaving| {
            assert leaving[..n] == leaving;
            return false;
          }
          assert leaving[..n + 1] == leaving[..n] + [leaving[n]];
          if leaving[n] < |workerDone| {
            workerDone := workerDone[leaving[n] := true];
          }
          n := n + 1;
        }
      }
      assert forall j :: j in leaving[..n] ==> j in leaving;
      return true;
    }
  }
}
