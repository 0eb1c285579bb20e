/** The controller never loses track of a cached ProviderConfig: it runs what it should, or it still has work queued. */
module Convergence {
  import opened Domain
  import opened Lifecycle
  import Q = WorkQueue
  import M = MutualExclusion
  import C = StopChannels

  ghost predicate Exists(inf: Informer, o: ObjId) { o < |inf.heap| }

  /** The map runs `k` exactly if the object is not terminating. */
  ghost predicate Agrees(t: World, k: Key, o: ObjId) {
    Exists(t.inf, o) && (Runs(t.reg, k) <==> !t.inf.heap[o].pc.terminating)
  }

  /** A change of the cache entry of `k` has been reported, or will be: someone is going to look again. */
  ghost predicate Marked(s: State, k: Key) {
    k in s.world.inf.events || k in s.queue.dirty
  }

  /** What a worker saw in the cache is still there, or it will look again. */
  ghost predicate Fresh(s: State, k: Key, seen: Option<ObjId>) {
    Marked(s, k) || k !in s.world.inf.cache || (seen.Some? && s.world.inf.cache[k] == ProviderConfig(seen.value))
  }

  ghost predicate Reported(s: State, k: Key, seen: Option<ObjId>) {
    Fresh(s, k, seen) && (seen.Some? ==> Agrees(s.world, k, seen.value))
  }

  function Target(p: Stage): Option<ObjId> {
    if p.Lookup? then None
    else if p.Finish? || p.Release? then p.seen
    else Some(p.obj)
  }

  /** The worker's object has the deletion mark that sent it down this path. */
  ghost predicate OnPath(t: World, p: Stage)
    requires Target(p).Some? && Exists(t.inf, Target(p).value)
  {
    var terminating := t.inf.heap[Target(p).value].pc.terminating;
    && (C.Starting(Some(p)) || p.StartEntry? ==> !terminating)
    && (p.StopEntry? || p.StopDelete? || p.StopClose? || p.StopGet? || p.StopWrite? ==> terminating)
  }

  ghost predicate WorkerOk(s: State, k: Key, p: Stage) {
    && (Target(p).Some? ==> Exists(s.world.inf, Target(p).value) && OnPath(s.world, p))
    && (!s.queue.shuttingDown ==>
          match p
          case Lookup => true
          case Finish(seen, ok) => ok ==> Reported(s, k, seen)
          case Release(seen, ok) => if ok then Reported(s, k, seen) else k in s.queue.waiting || k in s.queue.dirty
          case _ => Fresh(s, k, Target(p)))
  }

  /** Nobody has `k` in hand: its entry is settled, or it is still going to be looked at. */
  ghost predicate RestOk(s: State, k: Key) {
    !s.queue.shuttingDown && k in s.world.inf.cache ==>
      || Marked(s, k)
      || k in s.queue.waiting
      || (s.world.inf.cache[k].ProviderConfig? && Agrees(s.world, k, s.world.inf.cache[k].obj))
  }

  ghost predicate KeyOk(s: State, k: Key, p: Option<Stage>) {
    match p
    case Some(stage) => WorkerOk(s, k, stage)
    case None => RestOk(s, k)
  }

  ghost predicate Tracked(s: State) {
    && (forall k :: k in s.world.inf.cache && s.world.inf.cache[k].ProviderConfig? ==>
         Exists(s.world.inf, s.world.inf.cache[k].obj))
    && (forall w :: 0 <= w < |s.workers| && s.workers[w].Busy? ==>
          KeyOk(s, s.workers[w].key, Some(s.workers[w].stage)))
    && (forall k :: k !in s.queue.processing ==> KeyOk(s, k, None))
  }

  ghost predicate Inv(s: State) {
    C.Inv(s) && Tracked(s)
  }

  // ---- steps that do not work on k ----

  ghost predicate SameDeletion(inf: Informer, inf': Informer) {
    && |inf.heap| <= |inf'.heap|
    && (forall o: ObjId :: o < |inf.heap| ==> inf'.heap[o].pc.terminating == inf.heap[o].pc.terminating)
  }

  /** For `k`, the step loses no mark and no reason to wait, and it reports every change of the cache entry. */
  ghost predicate Carries(s: State, s': State, k: Key) {
    && (s.queue.shuttingDown ==> s'.queue.shuttingDown)
    && SameDeletion(s.world.inf, s'.world.inf)
    && (Runs(s'.world.reg, k) <==> Runs(s.world.reg, k))
    && (!s'.queue.shuttingDown && Marked(s, k) ==> Marked(s', k))
    && (!s'.queue.shuttingDown && k in s.queue.dirty ==> k in s'.queue.dirty)
    && (!s'.queue.shuttingDown && k in s.queue.waiting ==> k in s'.queue.waiting || k in s'.queue.dirty)
    && (k in s'.world.inf.cache ==>
          Marked(s', k) || (k in s.world.inf.cache && s'.world.inf.cache[k] == s.world.inf.cache[k]))
  }

  lemma Carried(s: State, s': State, k: Key, p: Option<Stage>)
    requires Carries(s, s', k) && KeyOk(s, k, p)
    ensures KeyOk(s', k, p)
  {
  }

  // ---- a statement of a sync ----

  /**
   A statement keeps the object the worker works on, and a sync that reports success leaves the map in agreement with
   it.
   */
  lemma StatementOnPath(own: string, t: World, k: Key, p: Stage, c: Choice)
    requires C.Owned(t.reg) && C.StageOk(t.reg, k, p) && InBounds(t, p)
    requires Target(p).Some? && Exists(t.inf, Target(p).value) && OnPath(t, p) && !p.Finish? && !p.Release?
    ensures var (p', t') := SyncStep(own, t, k, p, c);
            && SameDeletion(t.inf, t'.inf)
            && !p'.Release? && !p'.Lookup? && Target(p') == Target(p)
            && OnPath(t', p')
            && (p'.Finish? && p'.ok ==> Agrees(t', k, Target(p).value))
  {
    var (p', t') := SyncStep(own, t, k, p, c);
    assert SameDeletion(t.inf, t'.inf);
    if !C.Touches(p) {
      assert t'.reg == t.reg;
    }
  }

  lemma SyncStepKeeps(s: State, w: nat, c: Choice)
    requires Tracked(s) && w < |s.workers| && s.workers[w].Busy?
    requires C.Owned(s.world.reg) && C.StageOk(s.world.reg, s.workers[w].key, s.workers[w].stage)
    requires !s.workers[w].stage.Finish? && !s.workers[w].stage.Release? && InBounds(s.world, s.workers[w].stage)
    ensures var s' := BusyStep(s, w, c); WorkerOk(s', s.workers[w].key, s'.workers[w].stage)
    ensures SameDeletion(s.world.inf, BusyStep(s, w, c).world.inf)
  {
    var Busy(k, p) := s.workers[w];
    assert WorkerOk(s, k, p);
    if !p.Lookup? {
      StatementOnPath(s.own, s.world, k, p, c);
      var s' := BusyStep(s, w, c);
      assert s'.queue == s.queue && s'.world.inf.cache == s.world.inf.cache &&
          s'.world.inf.events == s.world.inf.events;
      assert Fresh(s', k, Target(p)) == Fresh(s, k, Target(p));
    }
  }

  lemma BusyStepKeeps(s: State, w: nat, c: Choice)
    requires Tracked(s) && M.Exclusive(s) && w < |s.workers| && s.workers[w].Busy?
    requires C.Owned(s.world.reg) && C.KeyOk(s.world.reg, s.workers[w].key, Some(s.workers[w].stage))
    ensures Tracked(BusyStep(s, w, c))
  {
    var Busy(k, p) := s.workers[w];
    if p.Finish? || p.Release? {
      ReportKeeps(s, w, c);
    } else if InBounds(s.world, p) {
      SyncStepKeeps(s, w, c);
      C.SyncStepKeeps(s.own, s.world, k, p, c);
      var (p', t') := SyncStep(s.own, s.world, k, p, c);
      StatementKeeps(s, w, p', t');
    }
  }

  lemma StatementKeeps(s: State, w: nat, p': Stage, t': World)
    requires Tracked(s) && M.Exclusive(s) && w < |s.workers| && s.workers[w].Busy?
    requires t'.inf.cache == s.world.inf.cache && t'.inf.events == s.world.inf.events &&
      SameDeletion(s.world.inf, t'.inf)
    requires C.Owned(s.world.reg) && C.OnlyKey(s.world.reg, t'.reg, s.workers[w].key)
    requires WorkerOk(At(s, w, Busy(s.workers[w].key, p')).(world := t'), s.workers[w].key, p')
    ensures Tracked(At(s, w, Busy(s.workers[w].key, p')).(world := t'))
  {
    var k := s.workers[w].key;
    var s' := At(s, w, Busy(k, p')).(world := t');
    assert M.Holds(s, w, k);
    forall x | x != k ensures Carries(s, s', x) {
      C.OtherRuns(s.world.reg, t'.reg, k, x);
    }
    OthersCarried(s, s', w, k);
  }

  /** A failed sync leaves the key waiting; a successful one has nothing left to do unless the key is marked again. */
  lemma ReportKeeps(s: State, w: nat, c: Choice)
    requires Tracked(s) && M.Exclusive(s) && w < |s.workers| && s.workers[w].Busy?
    requires s.workers[w].stage.Finish? || s.workers[w].stage.Release?
    ensures Tracked(BusyStep(s, w, c))
  {
    var s' := BusyStep(s, w, c);
    var Busy(k, p) := s.workers[w];
    assert M.Holds(s, w, k) && WorkerOk(s, k, p);
    assert s'.world == s.world;
    OthersCarried(s, s', w, k);
  }

  lemma OthersCarried(s: State, s': State, w: nat, k: Key)
    requires Tracked(s) && M.Exclusive(s) && M.Holds(s, w, k) && |s'.workers| == |s.workers|
    requires s'.world.inf.cache == s.world.inf.cache && |s.world.inf.heap| <= |s'.world.inf.heap|
    requires forall v :: 0 <= v < |s.workers| && v != w ==> s'.workers[v] == s.workers[v]
    requires forall x :: x != k ==> Carries(s, s', x)
    requires forall x :: x != k ==> (x in s'.queue.processing <==> x in s.queue.processing)
    requires s'.workers[w].Busy? ==> s'.workers[w].key == k && WorkerOk(s', k, s'.workers[w].stage)
    requires k !in s'.queue.processing ==> RestOk(s', k)
    ensures Tracked(s')
  {
    forall v | 0 <= v < |s'.workers| && s'.workers[v].Busy? && v != w
      ensures KeyOk(s', s'.workers[v].key, Some(s'.workers[v].stage))
    {
      assert M.Holds(s, v, s.workers[v].key);
      Carried(s, s', s.workers[v].key, Some(s.workers[v].stage));
    }
    forall x | x !in s'.queue.processing ensures KeyOk(s', x, None) {
      if x != k {
        Carried(s, s', x, None);
      }
    }
  }

  // ---- every step ----

  lemma InitHolds(own: string, workers: nat)
    ensures Inv(Init(own, workers))
  {
    C.InitHolds(own, workers);
  }

  lemma GetStepKeeps(s: State, w: nat)
    requires Tracked(s) && Q.Valid(s.queue) && M.Exclusive(s) && w < |s.workers| && s.workers[w].Idle?
    ensures Tracked(GetStep(s, w))
  {
    var s' := GetStep(s, w);
    if s.queue.order != [] {
      Q.GetKeepsValid(s.queue);
      var k := Q.Get(s.queue).1;
      forall v | 0 <= v < |s'.workers| && s'.workers[v].Busy? && v != w
        ensures KeyOk(s', s'.workers[v].key, Some(s'.workers[v].stage))
      {
        assert M.Holds(s, v, s.workers[v].key);
        Carried(s, s', s.workers[v].key, Some(s.workers[v].stage));
      }
      forall x | x !in s'.queue.processing ensures KeyOk(s', x, None) {
        Carried(s, s', x, None);
      }
    }
  }

  /** Notifications, expiries, the informer, other writers and Run: none of them forgets a key. */
  lemma OutsideCarries(s: State, a: Action, k: Key)
    requires !a.Work?
    ensures Carries(s, Step(s, a), k)
  {
    match a
    case Notify(_) => QueueCarries(s, a, k);
    case Expire(_) => QueueCarries(s, a, k);
    case CacheSynced => ControlCarries(s, a, k);
    case Stop => ControlCarries(s, a, k);
    case ShutdownReturns => ControlCarries(s, a, k);
    case _ => WorldCarries(s, a, k);
  }

  lemma QueueCarries(s: State, a: Action, k: Key)
    requires a.Notify? || a.Expire?
    ensures Carries(s, Step(s, a), k)
  {
  }

  lemma ControlCarries(s: State, a: Action, k: Key)
    ensures Carries(s, ControlStep(s, a), k)
  {
  }

  lemma WorldCarries(s: State, a: Action, k: Key)
    requires !a.Notify?
    ensures Carries(s, s.(world := s.world.(inf := InformerStep(s.world, a), server := WriterStep(s.world.server, a))),
      k)
  {
  }

  lemma OutsideExists(s: State, a: Action, k: Key)
    requires Tracked(s) && !a.Work?
    ensures var inf := Step(s, a).world.inf;
            k in inf.cache && inf.cache[k].ProviderConfig? ==> Exists(inf, inf.cache[k].obj)
  {
  }

  lemma OutsideHolders(s: State, a: Action)
    requires !a.Work?
    ensures Step(s, a).queue.processing == s.queue.processing
    ensures forall v :: 0 <= v < |Step(s, a).workers| && Step(s, a).workers[v].Busy? ==>
              v < |s.workers| && Step(s, a).workers[v] == s.workers[v]
  {
  }

  lemma OutsideKeeps(s: State, a: Action)
    requires Tracked(s) && !a.Work?
    ensures Tracked(Step(s, a))
  {
    var s' := Step(s, a);
    OutsideHolders(s, a);
    forall k ensures k in s'.world.inf.cache && s'.world.inf.cache[k].ProviderConfig? ==>
                       Exists(s'.world.inf, s'.world.inf.cache[k].obj) {
      OutsideExists(s, a, k);
    }
    forall v | 0 <= v < |s'.workers| && s'.workers[v].Busy?
      ensures KeyOk(s', s'.workers[v].key, Some(s'.workers[v].stage))
    {
      OutsideCarries(s, a, s.workers[v].key);
      Carried(s, s', s.workers[v].key, Some(s.workers[v].stage));
    }
    forall x | x !in s'.queue.processing ensures KeyOk(s', x, None) {
      OutsideCarries(s, a, x);
      Carried(s, s', x, None);
    }
  }

  lemma StepKeeps(s: State, a: Action)
    requires Inv(s)
    ensures Inv(Step(s, a))
  {
    C.StepKeeps(s, a);
    if !a.Work? {
      OutsideKeeps(s, a);
    } else if a.w < |s.workers| {
      if s.workers[a.w].Busy? {
        BusyStepKeeps(s, a.w, a.choice);
      } else if s.workers[a.w].Idle? {
        GetStepKeeps(s, a.w);
      }
    }
  }

  lemma {:induction false} Reachable(own: string, workers: nat, run: seq<Action>)
    ensures Inv(Exec(Init(own, workers), run))
    decreases |run|
  {
    if run == [] {
      InitHolds(own, workers);
    } else {
      Reachable(own, workers, run[..|run| - 1]);
      StepKeeps(Exec(Init(own, workers), run[..|run| - 1]), run[|run| - 1]);
    }
  }

  // ---- theorems about every run ----

  /**
   Until shutdown, a cached entry that nothing is going to look at again is a ProviderConfig, and it runs exactly if it
   is not terminating.
   */
  lemma Converges(own: string, workers: nat, run: seq<Action>, k: Key)
    ensures var s := Exec(Init(own, workers), run);
            && (s.queue.shuttingDown || k !in s.world.inf.cache || k in s.world.inf.events || Q.Pending(s.queue, k) ||
                (s.world.inf.cache[k].ProviderConfig? && Agrees(s.world, k, s.world.inf.cache[k].obj)))
  {
    Reachable(own, workers, run);
    var s := Exec(Init(own, workers), run);
    if k !in s.queue.processing {
      assert KeyOk(s, k, None);
    }
  }

  ghost predicate Quiescent(s: State) {
    && !s.queue.shuttingDown
    && s.world.inf.events == multiset{}
    && s.queue.dirty == {} && s.queue.processing == {} && s.queue.waiting == {}
  }

  predicate Wanted(inf: Informer, k: Key) {
    && k in inf.cache
    && inf.cache[k].ProviderConfig?
    && inf.cache[k].obj < |inf.heap|
    && !inf.heap[inf.cache[k].obj].pc.terminating
  }

  /**
   At rest, the cached keys with an open stop channel are exactly the ProviderConfigs that are not terminating, with
   one channel each.
   */
  lemma RestIsRight(own: string, workers: nat, run: seq<Action>)
    requires Quiescent(Exec(Init(own, workers), run))
    ensures var s := Exec(Init(own, workers), run);
            forall k :: k in s.world.inf.cache ==>
              C.Open(s.world.reg, k) == (if Wanted(s.world.inf, k) then C.Mapped(s.world.reg, k) else {}) &&
              |C.Open(s.world.reg, k)| == (if Wanted(s.world.inf, k) then 1 else 0)
  {
    Reachable(own, workers, run);
    var s := Exec(Init(own, workers), run);
    forall k | k in s.world.inf.cache
      ensures C.Open(s.world.reg, k) == (if Wanted(s.world.inf, k) then C.Mapped(s.world.reg, k) else {})
      ensures |C.Open(s.world.reg, k)| == (if Wanted(s.world.inf, k) then 1 else 0)
    {
      Converges(own, workers, run, k);
      assert C.KeyOk(s.world.reg, k, None);
    }
  }
}
