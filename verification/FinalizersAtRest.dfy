/** The server's side of rest: a ProviderConfig that is going away does not wait for the manager any more. */
module FinalizersAtRest {
  import opened Domain
  import opened Lifecycle
  import S = ApiServer
  import M = MutualExclusion
  import C = StopChannels
  import V = Convergence
  import F = Finalizers

  /** If object `o` is terminating, the server's object of its key does not list the finalizer. */
  ghost predicate Freed(own: string, t: World, k: Key, o: ObjId) {
    o < |t.inf.heap| && t.inf.heap[o].pc.terminating ==> !S.Carries(t.server, k, own)
  }

  ghost predicate StageOk(own: string, t: World, k: Key, p: Stage) {
    (p.Finish? || p.Release?) && p.ok && p.seen.Some? ==> Freed(own, t, k, p.seen.value)
  }

  /** An entry that nobody is going to look at again has been dealt with. */
  ghost predicate RestOk(s: State, k: Key) {
    (!s.queue.shuttingDown && k in s.world.inf.cache && s.world.inf.cache[k].ProviderConfig? &&
     !V.Marked(s, k) && k !in s.queue.waiting) ==>
      Freed(s.own, s.world, k, s.world.inf.cache[k].obj)
  }

  ghost predicate Cleared(s: State) {
    && (forall w :: 0 <= w < |s.workers| && s.workers[w].Busy? ==>
         StageOk(s.own, s.world, s.workers[w].key, s.workers[w].stage))
    && (forall k :: k !in s.queue.processing ==> RestOk(s, k))
  }

  /** For `k`, the step neither puts the finalizer on nor changes which objects are terminating. */
  ghost predicate Spares(s: State, s': State, k: Key) {
    && s'.own == s.own
    && V.SameDeletion(s.world.inf, s'.world.inf)
    && (S.Carries(s'.world.server, k, s.own) <==> S.Carries(s.world.server, k, s.own))
  }

  lemma StageSpared(s: State, s': State, k: Key, p: Stage)
    requires Spares(s, s', k) && StageOk(s.own, s.world, k, p)
    requires (p.Finish? || p.Release?) && p.seen.Some? ==> p.seen.value < |s.world.inf.heap|
    ensures StageOk(s'.own, s'.world, k, p)
  {
  }

  lemma RestSpared(s: State, s': State, k: Key)
    requires Spares(s, s', k) && V.Carries(s, s', k) && RestOk(s, k)
    requires k in s.world.inf.cache && s.world.inf.cache[k].ProviderConfig? ==>
      V.Exists(s.world.inf, s.world.inf.cache[k].obj)
    ensures RestOk(s', k)
  {
  }

  /** A sync of a terminating object reports success only if the server does not list the finalizer. */
  lemma StatementFrees(own: string, t: World, k: Key, p: Stage, c: Choice)
    requires S.Valid(t.server) && InBounds(t, p) && F.StageOk(own, t, k, p) && !p.Finish? && !p.Release?
    requires V.Target(p).Some? ==> V.Exists(t.inf, V.Target(p).value) && V.OnPath(t, p)
    ensures StageOk(own, SyncStep(own, t, k, p, c).1, k, SyncStep(own, t, k, p, c).0)
  {
    if p.StopGet? && k in t.server.objects {
      WithoutShrinksIffPresent(t.server.objects[k].finalizers, own);
    }
  }

  // ---- every step ----

  /** What the steps below need of a worker. */
  ghost predicate Held(s: State, w: nat) {
    F.Held(s, w) && V.WorkerOk(s, s.workers[w].key, s.workers[w].stage)
  }

  lemma StatementSpares(s: State, w: nat, c: Choice, x: Key)
    requires F.Traced(s) && Held(s, w) && x != s.workers[w].key
    requires !s.workers[w].stage.Finish? && !s.workers[w].stage.Release?
    ensures Spares(s, BusyStep(s, w, c), x)
    ensures V.SameDeletion(s.world.inf, BusyStep(s, w, c).world.inf)
  {
    F.StatementSecures(s.own, s.world, s.workers[w].key, s.workers[w].stage, c);
  }

  lemma OthersStay(s: State, s': State, w: nat, k: Key)
    requires Cleared(s) && V.Tracked(s) && M.Exclusive(s) && M.Holds(s, w, k) && M.Holds(s', w, k)
    requires s'.queue == s.queue && s'.world.inf.cache == s.world.inf.cache && s'.world.inf.events == s.world.inf.events
    requires |s'.workers| == |s.workers| && forall v :: 0 <= v < |s.workers| && v != w ==> s'.workers[v] == s.workers[v]
    requires forall x :: x != k ==> Spares(s, s', x)
    requires StageOk(s'.own, s'.world, k, s'.workers[w].stage)
    ensures Cleared(s')
  {
    forall v | 0 <= v < |s'.workers| && v != w && s'.workers[v].Busy?
      ensures StageOk(s'.own, s'.world, s'.workers[v].key, s'.workers[v].stage)
    {
      assert M.Holds(s, v, s.workers[v].key);
      assert V.KeyOk(s, s.workers[v].key, Some(s.workers[v].stage));
      StageSpared(s, s', s.workers[v].key, s.workers[v].stage);
    }
    forall x | x !in s'.queue.processing ensures RestOk(s', x) {
      assert RestOk(s, x) && Spares(s, s', x);
    }
  }

  lemma StatementKeeps(s: State, w: nat, c: Choice)
    requires Cleared(s) && V.Tracked(s) && F.Traced(s) && Held(s, w)
    requires !s.workers[w].stage.Finish? && !s.workers[w].stage.Release?
    ensures Cleared(BusyStep(s, w, c))
  {
    var s' := BusyStep(s, w, c);
    var Busy(k, p) := s.workers[w];
    StatementFrees(s.own, s.world, k, p, c);
    forall x | x != k ensures Spares(s, s', x) {
      StatementSpares(s, w, c, x);
    }
    OthersStay(s, s', w, k);
  }

  /** Reporting a result changes the queue only, and giving the key back leaves it settled, marked or waiting. */
  lemma ReportKeeps(s: State, w: nat, c: Choice)
    requires Cleared(s) && Held(s, w) && (s.workers[w].stage.Finish? || s.workers[w].stage.Release?)
    ensures Cleared(BusyStep(s, w, c))
  {
    var s' := BusyStep(s, w, c);
    var Busy(k, p) := s.workers[w];
    assert M.Holds(s, w, k) && s'.world == s.world;
    forall x | x !in s'.queue.processing ensures RestOk(s', x) {
      if x != k {
        assert RestOk(s, x);
      }
    }
  }

  lemma OutsideSpares(s: State, a: Action, k: Key)
    requires F.Traced(s) && !a.Work? && F.Respectful(s, a)
    ensures Spares(s, Step(s, a), k)
  {
    F.OutsideSameCarriers(s, a);
    V.OutsideCarries(s, a, k);
    F.OutsideWorld(s, a);
  }

  lemma OutsideKeeps(s: State, a: Action)
    requires Cleared(s) && V.Tracked(s) && F.Traced(s) && !a.Work? && F.Respectful(s, a)
    ensures Cleared(Step(s, a))
  {
    var s' := Step(s, a);
    V.OutsideHolders(s, a);
    forall w | 0 <= w < |s'.workers| && s'.workers[w].Busy?
      ensures StageOk(s'.own, s'.world, s'.workers[w].key, s'.workers[w].stage)
    {
      assert V.KeyOk(s, s.workers[w].key, Some(s.workers[w].stage));
      OutsideSpares(s, a, s.workers[w].key);
      StageSpared(s, s', s.workers[w].key, s.workers[w].stage);
    }
    forall k | k !in s'.queue.processing ensures RestOk(s', k) {
      OutsideSpares(s, a, k);
      V.OutsideCarries(s, a, k);
      RestSpared(s, s', k);
    }
  }

  lemma StepKeeps(s: State, a: Action)
    requires Cleared(s) && F.Inv(s) && F.Respectful(s, a)
    ensures Cleared(Step(s, a))
  {
    if !a.Work? {
      OutsideKeeps(s, a);
    } else if a.w < |s.workers| && s.workers[a.w].Busy? {
      F.InvHolds(s, a.w);
      assert V.KeyOk(s, s.workers[a.w].key, Some(s.workers[a.w].stage));
      if s.workers[a.w].stage.Finish? || s.workers[a.w].stage.Release? {
        ReportKeeps(s, a.w, a.choice);
      } else {
        StatementKeeps(s, a.w, a.choice);
      }
    }
  }

  lemma {:induction false} Reachable(own: string, workers: nat, run: seq<Action>)
    requires F.RespectfulRun(Init(own, workers), run)
    ensures Cleared(Exec(Init(own, workers), run))
    decreases |run|
  {
    if run != [] {
      var before := run[..|run| - 1];
      Reachable(own, workers, before);
      F.Reachable(own, workers, before);
      StepKeeps(Exec(Init(own, workers), before), run[|run| - 1]);
    }
  }

  // ---- theorems about every run ----

  /**
   At rest the server does not list the finalizer on any cached ProviderConfig that is terminating: nothing blocks its
   deletion.
   */
  lemma RestReleases(own: string, workers: nat, run: seq<Action>, k: Key)
    requires F.RespectfulRun(Init(own, workers), run)
    requires V.Quiescent(Exec(Init(own, workers), run))
    ensures var s := Exec(Init(own, workers), run);
            k in s.world.inf.cache && !V.Wanted(s.world.inf, k) ==> !S.Carries(s.world.server, k, own)
  {
    Reachable(own, workers, run);
    F.OwnFixed(Init(own, workers), run);
    var s := Exec(Init(own, workers), run);
    if k in s.world.inf.cache {
      V.Converges(own, workers, run, k);
      assert RestOk(s, k);
    }
  }

  /**
   If no start was blind, rest means the same on both sides: a cached key runs, and lists the finalizer, exactly if it
   is wanted.
   */
  lemma RestIsRightOnServer(own: string, workers: nat, run: seq<Action>, k: Key)
    requires F.RespectfulRun(Init(own, workers), run) && F.NeverBlind(Init(own, workers), run)
    requires V.Quiescent(Exec(Init(own, workers), run))
    ensures var s := Exec(Init(own, workers), run);
            k in s.world.inf.cache ==>
              (S.Carries(s.world.server, k, own) <==> V.Wanted(s.world.inf, k)) &&
              (C.Open(s.world.reg, k) != {} <==> V.Wanted(s.world.inf, k))
  {
    RestReleases(own, workers, run, k);
    V.RestIsRight(own, workers, run);
    F.SecuredIffNeverBlind(own, workers, run);
    F.OwnFixed(Init(own, workers), run);
    assert F.Secured(Exec(Init(own, workers), run));
  }
}
