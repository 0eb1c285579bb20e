/** No two workers ever sync the same key: the assumption the manager's unlocked accesses rest on. */
module MutualExclusion {
  import opened Domain
  import opened Lifecycle
  import Q = WorkQueue

  /** Workers exist once the cache has synced, and leave only when the queue is shutting down. */
  ghost predicate Lifetimes(s: State) {
    && (s.control == WaitingForSync ==> forall w :: 0 <= w < |s.workers| ==> s.workers[w].Unspawned?)
    && (s.control == Running ==> forall w :: 0 <= w < |s.workers| ==> !s.workers[w].Unspawned?)
    && (s.queue.shuttingDown <==> s.control == ShuttingDown || s.control == Returned)
    && (forall v, w :: 0 <= v < |s.workers| && 0 <= w < |s.workers| ==>
          (s.workers[v].Unspawned? <==> s.workers[w].Unspawned?))
    && (forall w :: 0 <= w < |s.workers| && s.workers[w].Exited? ==> s.queue.shuttingDown)
    && (s.control == Returned ==> AllExited(s))
  }

  ghost predicate Holds(s: State, w: int, k: Key) {
    0 <= w < |s.workers| && s.workers[w].Busy? && s.workers[w].key == k
  }

  /** The keys in processing are exactly the keys of busy workers, and each has one worker. */
  ghost predicate Exclusive(s: State) {
    && (forall v, w, k :: Holds(s, v, k) && Holds(s, w, k) ==> v == w)
    && (forall w, k :: Holds(s, w, k) ==> k in s.queue.processing)
    && (forall k :: k in s.queue.processing ==> exists w :: Holds(s, w, k))
  }

  ghost predicate Inv(s: State) {
    Q.Valid(s.queue) && Lifetimes(s) && Exclusive(s)
  }

  lemma InitHolds(own: string, workers: nat)
    ensures Inv(Init(own, workers))
  {
  }

  /** A step that leaves every worker's key and the set of keys in processing alone. */
  lemma SameHolders(s: State, s': State)
    requires Exclusive(s) && s'.queue.processing == s.queue.processing
    requires forall w, k :: Holds(s', w, k) <==> Holds(s, w, k)
    ensures Exclusive(s')
  {
    forall k | k in s'.queue.processing ensures exists w :: Holds(s', w, k) {
      var w :| Holds(s, w, k);
      assert Holds(s', w, k);
    }
  }

  lemma BusyStepKeeps(s: State, w: nat, c: Choice)
    requires Inv(s) && w < |s.workers| && s.workers[w].Busy?
    ensures Inv(BusyStep(s, w, c))
  {
    var s' := BusyStep(s, w, c);
    var Busy(k, p) := s.workers[w];
    assert Holds(s, w, k);
    if p.Release? {
      Q.DoneKeepsValid(s.queue, k);
      forall x, v | v != w ensures Holds(s', v, x) <==> Holds(s, v, x) {}
      forall x | x in s'.queue.processing ensures exists v :: Holds(s', v, x) {
        var v :| Holds(s, v, x);
        assert Holds(s', v, x);
      }
    } else {
      if p.Finish? {
        Q.EndKeepsValid(s.queue, k, p.ok);
      }
      SameHolders(s, s');
    }
  }

  lemma GetStepKeeps(s: State, w: nat)
    requires Inv(s) && w < |s.workers| && s.workers[w].Idle?
    ensures Inv(GetStep(s, w))
  {
    var s' := GetStep(s, w);
    if s.queue.order != [] {
      Q.GetKeepsValid(s.queue);
      assert Holds(s', w, Q.Get(s.queue).1);
    }
    forall x, v | v != w ensures Holds(s, v, x) <==> Holds(s', v, x) {}
    forall x | x in s.queue.processing ensures exists v :: Holds(s', v, x) {
      var v :| Holds(s, v, x);
      assert Holds(s', v, x);
    }
  }

  lemma ControlStepKeeps(s: State, a: Action)
    requires Inv(s)
    ensures Inv(ControlStep(s, a))
  {
    SameHolders(s, ControlStep(s, a));
  }

  lemma AddingKeeps(s: State, a: Action)
    requires Inv(s) && (a.Notify? || a.Expire?)
    ensures Inv(Step(s, a))
  {
    if a.Notify? {
      Q.AddKeepsValid(s.queue, a.k);
    } else {
      Q.AddKeepsValid(s.queue.(waiting := s.queue.waiting - {a.k}), a.k);
    }
    SameHolders(s, Step(s, a));
  }

  lemma StepKeeps(s: State, a: Action)
    requires Inv(s)
    ensures Inv(Step(s, a))
  {
    match a
    case Work(w, c) =>
      if w < |s.workers| && s.workers[w].Busy? {
        BusyStepKeeps(s, w, c);
      } else if w < |s.workers| && s.workers[w].Idle? {
        GetStepKeeps(s, w);
      }
    case Notify(_) => AddingKeeps(s, a);
    case Expire(_) => AddingKeeps(s, a);
    case CacheSynced => ControlStepKeeps(s, a);
    case Stop => ControlStepKeeps(s, a);
    case ShutdownReturns => ControlStepKeeps(s, a);
    case _ => SameHolders(s, Step(s, a));
  }

  lemma {:induction false} Reachable(own: string, workers: nat, run: seq<Action>)
    ensures Inv(Exec(Init(own, workers), run))
    decreases |run|
  {
    if run == [] {
      InitHolds(own, workers);
    } else {
      Reachable(own, workers, run[..|run| - 1]);
      StepKeeps(Exec(Init(own, workers), run[..|run| - 1]), run[|run| - 1]);
    }
  }
}
