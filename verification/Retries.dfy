/** No failed sync is forgotten, and no two workers share a controller set. */
module Retries {
  import opened Domain
  import opened Lifecycle
  import Q = WorkQueue
  import M = MutualExclusion
  import C = StopChannels
  import V = Convergence

  /** A success has nothing to make good, and before shutdown a failure is not forgotten. */
  ghost predicate Remembers(s: State) {
    && (forall w :: 0 <= w < |s.workers| && s.workers[w].Busy? && s.workers[w].stage.Release? &&
                     s.workers[w].stage.ok ==>
          Q.Streak(s.queue.log, s.workers[w].key) == 0)
    && (forall k :: !s.queue.shuttingDown && Q.Streak(s.queue.log, k) > 0 ==> Q.Pending(s.queue, k))
  }

  ghost predicate Inv(s: State) {
    V.Inv(s) && Remembers(s)
  }

  /** A failure is counted when the worker reports it, and the key starts waiting in the same step. */
  lemma ReportKeeps(s: State, w: nat, c: Choice)
    requires Remembers(s) && M.Exclusive(s) && w < |s.workers| && s.workers[w].Busy?
    requires (s.workers[w].stage.Finish? || s.workers[w].stage.Release?) &&
      V.WorkerOk(s, s.workers[w].key, s.workers[w].stage)
    ensures Remembers(BusyStep(s, w, c))
  {
    var Busy(k, p) := s.workers[w];
    assert M.Holds(s, w, k);
    if p.Finish? {
      Q.Appended(s.queue.log, Q.Ended(k, p.ok));
      forall v | 0 <= v < |s.workers| && v != w && s.workers[v].Busy? ensures s.workers[v].key != k {
        assert M.Holds(s, v, s.workers[v].key);
      }
    }
  }

  /** A step that ends no sync and gives up no key. */
  lemma QuietKeeps(s: State, s': State)
    requires Remembers(s)
    requires forall k :: Q.Streak(s'.queue.log, k) == Q.Streak(s.queue.log, k)
    requires forall w :: 0 <= w < |s'.workers| && s'.workers[w].Busy? && s'.workers[w].stage.Release? ==>
               w < |s.workers| && s.workers[w] == s'.workers[w]
    requires s.queue.shuttingDown ==> s'.queue.shuttingDown
    requires forall k :: !s'.queue.shuttingDown && Q.Pending(s.queue, k) ==> Q.Pending(s'.queue, k)
    ensures Remembers(s')
  {
  }

  lemma StreakAfter(log: seq<Q.Event>, e: Q.Event, k: Key)
    requires !e.Ended?
    ensures Q.Streak(log + [e], k) == Q.Streak(log, k)
  {
    Q.Appended(log, e);
  }

  lemma GetKeeps(s: State, w: nat)
    requires Remembers(s) && w < |s.workers| && s.workers[w].Idle?
    ensures Remembers(GetStep(s, w))
  {
    var s' := GetStep(s, w);
    if s.queue.order != [] {
      forall k ensures Q.Streak(s'.queue.log, k) == Q.Streak(s.queue.log, k) {
        StreakAfter(s.queue.log, Q.Began(s.queue.order[0]), k);
      }
    }
    QuietKeeps(s, s');
  }

  lemma WorkKeeps(s: State, w: nat, c: Choice)
    requires Remembers(s) && M.Exclusive(s) && w < |s.workers|
    requires s.workers[w].Busy? ==> V.WorkerOk(s, s.workers[w].key, s.workers[w].stage)
    ensures Remembers(WorkStep(s, w, c))
  {
    if s.workers[w].Busy? {
      var Busy(k, p) := s.workers[w];
      if p.Finish? || p.Release? {
        ReportKeeps(s, w, c);
      } else if InBounds(s.world, p) {
        NoShortcut(s.own, s.world, k, p, c);
        QuietKeeps(s, WorkStep(s, w, c));
      }
    } else if s.workers[w].Idle? {
      GetKeeps(s, w);
    }
  }

  lemma NoShortcut(own: string, t: World, k: Key, p: Stage, c: Choice)
    requires InBounds(t, p) && !p.Release?
    ensures !SyncStep(own, t, k, p, c).0.Release?
  {
  }

  lemma OutsideKeeps(s: State, a: Action)
    requires Remembers(s) && !a.Work?
    ensures Remembers(Step(s, a))
  {
    var s' := Step(s, a);
    if s'.queue.log != s.queue.log {
      forall k ensures Q.Streak(s'.queue.log, k) == Q.Streak(s.queue.log, k) {
        StreakAfter(s.queue.log, Q.Added(a.k), k);
      }
    }
    OutsidePending(s, a);
    QuietKeeps(s, s');
  }

  lemma OutsidePending(s: State, a: Action)
    requires !a.Work?
    ensures var s' := Step(s, a);
            && (s.queue.shuttingDown ==> s'.queue.shuttingDown)
            && (forall k :: !s'.queue.shuttingDown && Q.Pending(s.queue, k) ==> Q.Pending(s'.queue, k))
  {
  }

  lemma StepKeeps(s: State, a: Action)
    requires Inv(s)
    ensures Inv(Step(s, a))
  {
    V.StepKeeps(s, a);
    if !a.Work? {
      OutsideKeeps(s, a);
    } else if a.w < |s.workers| {
      WorkKeeps(s, a.w, a.choice);
    }
  }

  lemma {:induction false} Reachable(own: string, workers: nat, run: seq<Action>)
    ensures Inv(Exec(Init(own, workers), run))
    decreases |run|
  {
    if run == [] {
      V.InitHolds(own, workers);
    } else {
      Reachable(own, workers, run[..|run| - 1]);
      StepKeeps(Exec(Init(own, workers), run[..|run| - 1]), run[|run| - 1]);
    }
  }

  /**
   The queue's failure count of a key is the number of syncs of it that failed since the last success, a panic
   counting as a failure; and until shutdown a key with a failure to make good is waiting, queued or in process.
   */
  lemma NoLostRetry(own: string, workers: nat, run: seq<Action>, k: Key)
    ensures var s := Exec(Init(own, workers), run);
            && Q.NumRequeues(s.queue, k) == Q.Streak(s.queue.log, k)
            && (!s.queue.shuttingDown && Q.Streak(s.queue.log, k) > 0 ==> Q.Pending(s.queue, k))
  {
    Reachable(own, workers, run);
  }

  ghost predicate HasSet(p: Stage) {
    p.StartCheck? || p.StartEnsure? || p.StartWrite? || p.StartCall? || p.StartStore? || p.StartUndo? ||
        p.StopDelete? || p.StopClose?
  }

  /**
   Two workers never hold the same key or the same controller set, so their unlocked accesses to its channel cannot
   meet.
   */
  lemma NoSharedSet(own: string, workers: nat, run: seq<Action>, v: nat, w: nat)
    ensures var s := Exec(Init(own, workers), run);
            v < |s.workers| && w < |s.workers| && v != w && s.workers[v].Busy? && s.workers[w].Busy? ==>
              && s.workers[v].key != s.workers[w].key
              && (HasSet(s.workers[v].stage) && HasSet(s.workers[w].stage) ==>
                   s.workers[v].stage.cs != s.workers[w].stage.cs)
  {
    Reachable(own, workers, run);
    var s := Exec(Init(own, workers), run);
    if v < |s.workers| && w < |s.workers| && v != w && s.workers[v].Busy? && s.workers[w].Busy? {
      assert M.Holds(s, v, s.workers[v].key) && M.Holds(s, w, s.workers[w].key);
      assert C.KeyOk(s.world.reg, s.workers[v].key, Some(s.workers[v].stage));
      assert C.KeyOk(s.world.reg, s.workers[w].key, Some(s.workers[w].stage));
    }
  }
}
