/** Shutting the queue down: what is drained, that it ends, and the one case in which it never does. */
module Shutdown {
  import opened Domain
  import opened Lifecycle
  import Q = WorkQueue
  import S = ApiServer
  import M = MutualExclusion
  import C = StopChannels
  import V = Convergence

  /** How many statements a worker may still have ahead of it before it is back at Get. */
  function StageRank(p: Stage): nat {
    match p
    case Lookup => 12
    case StartEntry(_) => 11
    case StartCheck(_, _, _) => 10
    case StartEnsure(_, _, _) => 9
    case StartWrite(_, _, _) => 8
    case StartCall(_, _, _, _, _) => 7
    case StartStore(_, _, _) => 4
    case StartUndo(_, _, _, _) => 6
    case RollbackGet(_) => 5
    case RollbackWrite(_, _) => 4
    case StopEntry(_) => 8
    case StopDelete(_, _) => 7
    case StopClose(_, _) => 6
    case StopGet(_) => 5
    case StopWrite(_, _) => 4
    case Finish(_, _) => 3
    case Release(_, _) => 2
  }

  function Rank(p: Worker): nat {
    match p
    case Idle => 1
    case Busy(_, stage) => StageRank(stage)
    case _ => 0
  }

  function Ranks(workers: seq<Worker>): nat {
    if workers == [] then 0 else Ranks(workers[..|workers| - 1]) + Rank(workers[|workers| - 1])
  }

  lemma {:induction false} RanksUpdate(workers: seq<Worker>, w: nat, p: Worker)
    requires w < |workers|
    ensures Ranks(workers[w := p]) == Ranks(workers) - Rank(workers[w]) + Rank(p)
  {
    var n := |workers| - 1;
    if w < n {
      RanksUpdate(workers[..n], w, p);
      assert workers[w := p][..n] == workers[..n][w := p];
    } else {
      assert workers[w := p][..n] == workers[..n];
    }
  }

  /** The work left: every dirty key costs one whole sync. */
  function Measure(s: State): nat {
    12 * |s.queue.dirty| + Ranks(s.workers)
  }

  predicate Alive(s: State, w: nat) {
    w < |s.workers| && (s.workers[w].Idle? || s.workers[w].Busy?)
  }

  // ---- every step ----

  /** The queue is empty once the last worker is gone. */
  ghost predicate Drained(s: State) {
    AllExited(s) && |s.workers| > 0 ==> s.queue.order == []
  }

  ghost predicate Inv(s: State) {
    V.Inv(s) && Drained(s)
  }

  lemma StageInBounds(s: State, w: nat)
    requires V.Inv(s) && w < |s.workers| && s.workers[w].Busy?
    ensures InBounds(s.world, s.workers[w].stage)
  {
    var Busy(k, p) := s.workers[w];
    assert V.WorkerOk(s, k, p) && C.KeyOk(s.world.reg, k, Some(p));
  }

  /** Each statement leads to a stage with fewer statements ahead. */
  lemma StatementCounts(own: string, t: World, k: Key, p: Stage, c: Choice)
    requires InBounds(t, p) && !p.Finish? && !p.Release?
    ensures StageRank(SyncStep(own, t, k, p, c).0) < StageRank(p)
  {
  }

  lemma BusyShrinks(s: State, w: nat, c: Choice)
    requires w < |s.workers| && s.workers[w].Busy? && InBounds(s.world, s.workers[w].stage)
    ensures Measure(BusyStep(s, w, c)) < Measure(s)
  {
    var s' := BusyStep(s, w, c);
    var Busy(k, p) := s.workers[w];
    if !p.Finish? && !p.Release? {
      StatementCounts(s.own, s.world, k, p, c);
    }
    RanksUpdate(s.workers, w, s'.workers[w]);
    assert s'.queue.dirty == s.queue.dirty;
  }

  lemma GetShrinks(s: State, w: nat)
    requires Q.Valid(s.queue) && s.queue.shuttingDown && w < |s.workers| && s.workers[w].Idle?
    ensures Measure(GetStep(s, w)) < Measure(s)
  {
    var s' := GetStep(s, w);
    RanksUpdate(s.workers, w, s'.workers[w]);
    if s.queue.order != [] {
      Q.GetKeepsValid(s.queue);
      assert |s'.queue.dirty| == |s.queue.dirty| - 1;
    }
  }

  lemma QueueIsValid(s: State)
    requires Inv(s)
    ensures Q.Valid(s.queue)
  {
  }

  /** Once the queue is shutting down, no step of anything else adds work. */
  lemma OutsideAddsNothing(s: State, a: Action)
    requires s.queue.shuttingDown && !(a.Work? && Alive(s, a.w))
    requires a.CacheSynced? ==> s.control != WaitingForSync
    ensures Measure(Step(s, a)) == Measure(s) && Step(s, a).queue.shuttingDown
  {
    assert Step(s, a).workers == s.workers;
  }

  lemma StaysShuttingDown(s: State, a: Action)
    requires s.queue.shuttingDown
    ensures Step(s, a).queue.shuttingDown
  {
  }

  lemma PastWaiting(s: State)
    requires Inv(s) && s.queue.shuttingDown
    ensures s.control != WaitingForSync
  {
  }

  /**
   Once the queue is shutting down, no step adds work, and every step of a worker that is still there takes some away.
   */
  lemma WorkShrinks(s: State, a: Action)
    requires Inv(s) && s.queue.shuttingDown
    ensures Step(s, a).queue.shuttingDown
    ensures Measure(Step(s, a)) <= Measure(s)
    ensures a.Work? && Alive(s, a.w) ==> Measure(Step(s, a)) < Measure(s)
  {
    StaysShuttingDown(s, a);
    if a.Work? && Alive(s, a.w) {
      if s.workers[a.w].Busy? {
        StageInBounds(s, a.w);
        BusyShrinks(s, a.w, a.choice);
      } else {
        QueueIsValid(s);
        GetShrinks(s, a.w);
      }
    } else {
      PastWaiting(s);
      OutsideAddsNothing(s, a);
    }
  }

  lemma DrainedKept(s: State, a: Action)
    requires Drained(s) && M.Lifetimes(s) && M.Lifetimes(Step(s, a))
    ensures Drained(Step(s, a))
  {
    var s' := Step(s, a);
    if AllExited(s') && |s'.workers| > 0 {
      assert s'.workers[0].Exited?;
      if a.Work? && a.w < |s.workers| {
        assert s'.workers[a.w].Exited?;
      } else {
        assert s'.workers == s.workers;
        assert s'.queue.shuttingDown;
      }
    }
  }

  lemma StepKeeps(s: State, a: Action)
    requires Inv(s)
    ensures Inv(Step(s, a))
  {
    V.StepKeeps(s, a);
    DrainedKept(s, a);
  }

  lemma {:induction false} Reachable(own: string, workers: nat, run: seq<Action>)
    ensures Inv(Exec(Init(own, workers), run))
    decreases |run|
  {
    if run == [] {
      V.InitHolds(own, workers);
    } else {
      Reachable(own, workers, run[..|run| - 1]);
      StepKeeps(Exec(Init(own, workers), run[..|run| - 1]), run[|run| - 1]);
    }
  }

  // ---- Shutdown ends ----

  /** The number of steps taken in `more` by workers that were still there. */
  function Progress(s: State, more: seq<Action>): nat
    decreases |more|
  {
    if more == [] then 0
    else
      var before := more[..|more| - 1];
      var a := more[|more| - 1];
      Progress(s, before) + if a.Work? && Alive(Exec(s, before), a.w) then 1 else 0
  }

  lemma {:induction false} ProgressIsBounded(s: State, more: seq<Action>)
    requires Inv(s) && s.queue.shuttingDown
    ensures var t := Exec(s, more);
            Inv(t) && t.queue.shuttingDown && Progress(s, more) + Measure(t) <= Measure(s)
    decreases |more|
  {
    if more != [] {
      var before := more[..|more| - 1];
      ProgressIsBounded(s, before);
      WorkShrinks(Exec(s, before), more[|more| - 1]);
      StepKeeps(Exec(s, before), more[|more| - 1]);
    }
  }

  lemma {:induction false} RankedAreAlive(workers: seq<Worker>, w: nat)
    requires w < |workers|
    ensures Rank(workers[w]) <= Ranks(workers)
    decreases |workers|
  {
    if w < |workers| - 1 {
      RankedAreAlive(workers[..|workers| - 1], w);
    }
  }

  lemma NoneLeft(t: State)
    requires Measure(t) == 0
    ensures forall w: nat :: !Alive(t, w)
  {
    forall w: nat ensures !Alive(t, w) {
      if w < |t.workers| {
        RankedAreAlive(t.workers, w);
      }
    }
  }

  /**
   However the scheduler, the API server and the starter behave after a shutdown began, the workers take a bounded
   number of steps, and once they have taken it none is left.
   */
  lemma ShutdownTerminates(own: string, workers: nat, run: seq<Action>, more: seq<Action>)
    requires Exec(Init(own, workers), run).queue.shuttingDown
    ensures var s := Exec(Init(own, workers), run);
            && Progress(s, more) <= Measure(s)
            && (Progress(s, more) == Measure(s) ==> forall w: nat :: !Alive(Exec(s, more), w))
  {
    Reachable(own, workers, run);
    var s := Exec(Init(own, workers), run);
    ProgressIsBounded(s, more);
    if Progress(s, more) == Measure(s) {
      NoneLeft(Exec(s, more));
    }
  }

  /** The steps a schedule offers to worker `w`. */
  function Turns(more: seq<Action>, w: nat): nat {
    if more == [] then 0
    else
      var a := more[|more| - 1];
      Turns(more[..|more| - 1], w) + if a.Work? && a.w == w then 1 else 0
  }

  lemma GoneForGood(s: State, a: Action, w: nat)
    requires !Alive(s, w) && s.control != WaitingForSync
    ensures !Alive(Step(s, a), w)
  {
  }

  /** A worker that is still there has used every turn it was offered. */
  lemma {:induction false} AliveUsedTurns(s: State, more: seq<Action>, w: nat)
    requires Inv(s) && s.queue.shuttingDown && Alive(Exec(s, more), w)
    ensures Turns(more, w) <= Progress(s, more)
    decreases |more|
  {
    if more != [] {
      var before := more[..|more| - 1];
      ProgressIsBounded(s, before);
      PastWaiting(Exec(s, before));
      if !Alive(Exec(s, before), w) {
        GoneForGood(Exec(s, before), more[|more| - 1], w);
      }
      AliveUsedTurns(s, before, w);
    }
  }

  /** A worker that is offered more turns than there is work has left, whatever the others were offered. */
  lemma FairShutdownEnds(own: string, workers: nat, run: seq<Action>, more: seq<Action>, w: nat)
    requires Exec(Init(own, workers), run).queue.shuttingDown
    requires Turns(more, w) > Measure(Exec(Init(own, workers), run))
    ensures !Alive(Exec(Exec(Init(own, workers), run), more), w)
  {
    Reachable(own, workers, run);
    var s := Exec(Init(own, workers), run);
    ProgressIsBounded(s, more);
    if Alive(Exec(s, more), w) {
      AliveUsedTurns(s, more, w);
    }
  }

  /**
   When Shutdown returns, every worker has left, nothing is queued or in process, and every accepted Add was followed
   by a sync.
   */
  lemma ShutdownDrains(own: string, workers: nat, run: seq<Action>)
    requires workers > 0
    requires Exec(Init(own, workers), run).control == Returned
    ensures var s := Exec(Init(own, workers), run);
            && AllExited(s)
            && s.queue.order == [] && s.queue.dirty == {} && s.queue.processing == {}
            && (forall k :: !Q.Owed(s.queue.log, k))
  {
    Reachable(own, workers, run);
    SameWorkers(Init(own, workers), run);
    var s := Exec(Init(own, workers), run);
    assert Q.Valid(s.queue);
    forall k ensures k !in s.queue.processing {
      assert forall w :: !M.Holds(s, w, k);
    }
    forall k ensures k !in s.queue.dirty {
      assert k !in s.queue.order;
    }
  }

  lemma {:induction false} SameWorkers(s: State, run: seq<Action>)
    ensures |Exec(s, run).workers| == |s.workers|
    decreases |run|
  {
    if run != [] {
      SameWorkers(s, run[..|run| - 1]);
    }
  }

  lemma ExitedStays(s: State, a: Action, w: nat)
    requires M.Lifetimes(s) && w < |s.workers| && s.workers[w].Exited?
    ensures w < |Step(s, a).workers| && Step(s, a).workers[w].Exited?
  {
  }

  /** A worker's done channel is closed when it exits, and an exited worker never runs again, so it is closed once. */
  lemma {:induction false} ExitIsFinal(s: State, w: nat, more: seq<Action>)
    requires M.Inv(s) && w < |s.workers| && s.workers[w].Exited?
    ensures var t := Exec(s, more);
            M.Inv(t) && w < |t.workers| && t.workers[w].Exited?
    decreases |more|
  {
    if more != [] {
      var t, a := Exec(s, more[..|more| - 1]), more[|more| - 1];
      ExitIsFinal(s, w, more[..|more| - 1]);
      M.StepKeeps(t, a);
      ExitedStays(t, a, w);
    }
  }

  // ---- what Shutdown leaves behind ----

  lemma {:induction false} ReturnedForGood(s: State, more: seq<Action>)
    requires s.control == Returned && AllExited(s)
    ensures var t := Exec(s, more);
            t.control == Returned && t.workers == s.workers && t.world.reg == s.world.reg
    decreases |more|
  {
    if more != [] {
      ReturnedForGood(s, more[..|more| - 1]);
    }
  }

  /**
   Shutting down closes no stop channel: when Run has returned, the keys in the map still have theirs open, and nothing
   that happens afterwards closes them.
   */
  lemma ShutdownLeavesChannelsOpen(own: string, workers: nat, run: seq<Action>, more: seq<Action>, k: Key)
    requires Exec(Init(own, workers), run).control == Returned
    ensures var s := Exec(Init(own, workers), run);
            var t := Exec(s, more);
            t.world.reg == s.world.reg && C.Open(t.world.reg, k) == C.Mapped(s.world.reg, k)
  {
    Reachable(own, workers, run);
    var s := Exec(Init(own, workers), run);
    ReturnedForGood(s, more);
    assert forall w :: !M.Holds(s, w, k);
    assert C.KeyOk(s.world.reg, k, None);
  }

  // ---- Shutdown without Run ----

  lemma WithoutLast<T>(a: seq<T>, b: seq<T>)
    requires b != []
    ensures (a + b)[..|a + b| - 1] == a + b[..|b| - 1] && (a + b)[|a + b| - 1] == b[|b| - 1]
  {
  }

  lemma ExecLast(s: State, run: seq<Action>)
    requires run != []
    ensures Exec(s, run) == Step(Exec(s, run[..|run| - 1]), run[|run| - 1])
  {
  }

  lemma ExecFirst(s: State, a: Action, more: seq<Action>)
    ensures Exec(s, [a] + more) == Exec(Step(s, a), more)
  {
    Concat(s, [a], more);
    ExecLast(s, [a]);
    assert [a][..0] == [];
  }

  lemma {:induction false} Concat(s: State, a: seq<Action>, b: seq<Action>)
    ensures Exec(s, a + b) == Exec(Exec(s, a), b)
    decreases |b|
  {
    if b == [] {
      assert a + b == a;
    } else {
      Concat(s, a, b[..|b| - 1]);
      WithoutLast(a, b);
      ExecLast(s, a + b);
      ExecLast(Exec(s, a), b);
    }
  }

  /** Such a state is reached at once: Run is stopped before the cache has synced. */
  lemma StoppedBeforeSync(own: string, workers: nat)
    requires workers > 0
    ensures var s := Exec(Init(own, workers), [Stop]);
            s.control == ShuttingDown && |s.workers| == workers && s.workers[0].Unspawned? &&
            forall more :: Exec(s, more).control != Returned
  {
    assert [Stop][..0] == [];
    var s := Exec(Init(own, workers), [Stop]);
    assert s == Step(Init(own, workers), Stop);
    forall more ensures Exec(s, more).control != Returned {
      NeverSpawned(s, more);
    }
  }

  lemma {:induction false} NeverSpawned(s: State, more: seq<Action>)
    requires s.control == ShuttingDown && |s.workers| > 0 && forall w :: 0 <= w < |s.workers| ==>
      s.workers[w].Unspawned?
    ensures var t := Exec(s, more);
            t.control == ShuttingDown && t.workers == s.workers
    decreases |more|
  {
    if more != [] {
      NeverSpawned(s, more[..|more| - 1]);
      assert s.workers[0].Unspawned?;
    }
  }

  ghost predicate Spawned(s: State) {
    forall w :: 0 <= w < |s.workers| ==> !s.workers[w].Unspawned?
  }

  lemma StaysSpawned(s: State, w: nat, c: Choice)
    requires Spawned(s)
    ensures var s' := Step(s, Work(w, c)); s'.control == s.control && Spawned(s')
  {
  }

  lemma OneMore(s: State, w: nat, c: Choice)
    requires Inv(s) && s.control == ShuttingDown && s.queue.shuttingDown && Spawned(s) && Alive(s, w)
    ensures var s' := Step(s, Work(w, c));
            && Inv(s') && s'.control == ShuttingDown && s'.queue.shuttingDown && Spawned(s')
            && Measure(s') < Measure(s)
  {
    var a := Work(w, c);
    WorkShrinks(s, a);
    StepKeeps(s, a);
    StaysSpawned(s, w, c);
  }

  lemma LastStep(s: State)
    requires s.control == ShuttingDown && AllExited(s)
    ensures Exec(s, [ShutdownReturns]).control == Returned
  {
    var run := [ShutdownReturns];
    assert run[..|run| - 1] == [];
  }

  /** A schedule that lets the workers finish, and then Shutdown return. */
  lemma Finishing(s: State) returns (more: seq<Action>)
    requires Inv(s) && s.control == ShuttingDown && s.queue.shuttingDown && Spawned(s)
    ensures Exec(s, more).control == Returned
    decreases Measure(s)
  {
    if AllExited(s) {
      LastStep(s);
      more := [ShutdownReturns];
    } else {
      var w: nat :| w < |s.workers| && !s.workers[w].Exited?;
      var c := Choice(false, S.Answered, Channel);
      OneMore(s, w, c);
      var rest := Finishing(Step(s, Work(w, c)));
      ExecFirst(s, Work(w, c), rest);
      more := [Work(w, c)] + rest;
    }
  }

  /**
   Shutdown waits for the workers to leave. If the cache never synced, Run never spawned them, and it waits for ever;
   otherwise it can always still return.
   */
  lemma ShutdownReturnsIffRun(own: string, workers: nat, run: seq<Action>)
    requires workers > 0
    requires Exec(Init(own, workers), run).control == ShuttingDown
    ensures var s := Exec(Init(own, workers), run);
            |s.workers| == workers &&
            ((exists more :: Exec(s, more).control == Returned) <==> !s.workers[0].Unspawned?)
  {
    Reachable(own, workers, run);
    SameWorkers(Init(own, workers), run);
    var s := Exec(Init(own, workers), run);
    if s.workers[0].Unspawned? {
      forall more ensures Exec(s, more).control != Returned {
        NeverSpawned(s, more);
      }
    } else {
      var more := Finishing(s);
    }
  }
}
