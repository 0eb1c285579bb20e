/**
 Rest is reached. While nothing changes outside and every call succeeds, each step of a worker, each notification and
 each expired back-off lowers a potential, and a state without such steps is at rest.
 */
module Settling {
  import opened Domain
  import opened Lifecycle
  import S = ApiServer
  import Q = WorkQueue
  import M = MutualExclusion
  import C = StopChannels
  import V = Convergence
  import F = Finalizers
  import Shutdown

  predicate Fine(c: Choice) {
    !c.lookupFails && c.reply == S.Answered && c.start.Channel?
  }

  /** A step that gets something done, with nothing changing outside and every call succeeding. */
  predicate Calm(s: State, a: Action) {
    match a
    case Work(w, c) =>
      Fine(c) && w < |s.workers| && (s.workers[w].Busy? || (s.workers[w].Idle? && s.queue.order != []))
    case Notify(k) => k in s.world.inf.events
    case Expire(k) => k in s.queue.waiting
    case _ => false
  }

  /** Every cached entry is a ProviderConfig under its own name. A sync of anything else fails for ever. */
  predicate Proper(t: World) {
    forall k :: k in t.inf.cache ==>
      && t.inf.cache[k].ProviderConfig? && t.inf.cache[k].obj < |t.inf.heap|
      && t.inf.heap[t.inf.cache[k].obj].pc.name == k
      && t.inf.heap[t.inf.cache[k].obj].pc.gvk == PROVIDER_CONFIG_GVK
  }

  // ---- the potential ----

  /** What a dirty key costs: one sync. What a key costs that waits, or whose notification is still to come. */
  const SYNC: nat := 13
  const RETRY: nat := 14

  predicate Foreign(inf: Informer, o: ObjId) {
    |inf.heap| <= o || inf.heap[o].pc.gvk != PROVIDER_CONFIG_GVK
  }

  /** The sync is going to fail even if every call from here on succeeds, and its key will have to wait. */
  predicate Doomed(own: string, t: World, k: Key, p: Stage) {
    match p
    case StartEntry(o) => Foreign(t.inf, o)
    case StartWrite(_, _, _) => true
    case StartUndo(_, _, _, _) => true
    case RollbackGet(_) => true
    case RollbackWrite(_, _) => true
    case StopEntry(o) => Foreign(t.inf, o)
    case StopWrite(_, latest) => !S.Accepts(t.server, Released(latest, own))
    case Finish(_, ok) => !ok
    case _ => false
  }

  function StageCost(own: string, t: World, k: Key, p: Stage): nat {
    Shutdown.StageRank(p) + if Doomed(own, t, k, p) then RETRY else 0
  }

  function Cost(own: string, t: World, worker: Worker): nat {
    match worker
    case Busy(k, p) => StageCost(own, t, k, p)
    case _ => Shutdown.Rank(worker)
  }

  function Costs(own: string, t: World, workers: seq<Worker>): nat {
    if workers == [] then 0
    else Costs(own, t, workers[..|workers| - 1]) + Cost(own, t, workers[|workers| - 1])
  }

  /** The cached objects that do not list the finalizer. A start whose update is refused marks one of them. */
  function Unmarked(own: string, heap: seq<Snapshot>): nat {
    if heap == [] then 0
    else
      Unmarked(own, heap[..|heap| - 1]) + if own in heap[|heap| - 1].pc.finalizers then 0 else 1
  }

  function Potential(s: State): nat {
    SYNC * |s.queue.dirty| +
    RETRY * (|s.queue.waiting| + |s.world.inf.events| + Unmarked(s.own, s.world.inf.heap)) +
    Costs(s.own, s.world, s.workers)
  }

  lemma {:induction false} CostsUpdate(own: string, t: World, t': World, workers: seq<Worker>, w: nat, p: Worker)
    requires w < |workers|
    requires forall v :: 0 <= v < |workers| && v != w ==> Cost(own, t', workers[v]) == Cost(own, t, workers[v])
    ensures Costs(own, t', workers[w := p]) == Costs(own, t, workers) - Cost(own, t, workers[w]) + Cost(own, t', p)
    decreases |workers|
  {
    var n := |workers| - 1;
    if w < n {
      CostsUpdate(own, t, t', workers[..n], w, p);
      assert workers[w := p][..n] == workers[..n][w := p];
    } else {
      assert workers[w := p][..n] == workers[..n];
      CostsSame(own, t, t', workers[..n]);
    }
  }

  lemma {:induction false} CostsSame(own: string, t: World, t': World, workers: seq<Worker>)
    requires forall v :: 0 <= v < |workers| ==> Cost(own, t', workers[v]) == Cost(own, t, workers[v])
    ensures Costs(own, t', workers) == Costs(own, t, workers)
    decreases |workers|
  {
    if workers != [] {
      CostsSame(own, t, t', workers[..|workers| - 1]);
    }
  }

  lemma {:induction false} UnmarkedUpdate(own: string, heap: seq<Snapshot>, o: ObjId, cell: Snapshot)
    requires o < |heap| && own !in heap[o].pc.finalizers && own in cell.pc.finalizers
    ensures Unmarked(own, heap[o := cell]) == Unmarked(own, heap) - 1
    decreases |heap|
  {
    var n := |heap| - 1;
    if o < n {
      UnmarkedUpdate(own, heap[..n], o, cell);
      assert heap[o := cell][..n] == heap[..n][o := cell];
    } else {
      assert heap[o := cell][..n] == heap[..n];
    }
  }

  // ---- a statement of a sync ----

  function Left(own: string, t: World, k: Key, p: Stage): nat {
    StageCost(own, t, k, p) + RETRY * Unmarked(own, t.inf.heap)
  }

  /** What a statement may rely on. */
  ghost predicate Ready(own: string, t: World, k: Key, p: Stage) {
    && S.Valid(t.server) && InBounds(t, p) && F.StageOk(own, t, k, p) && F.AllGenuine(t, own)
    && C.Owned(t.reg) && C.KeyOk(t.reg, k, Some(p)) && Proper(t)
    && !p.Finish? && !p.Release?
  }

  /** The next stage costs less. */
  ghost predicate Cheaper(own: string, t: World, k: Key, p: Stage, c: Choice)
    requires InBounds(t, p)
  {
    var (p', t') := SyncStep(own, t, k, p, c);
    StageCost(own, t', k, p') < StageCost(own, t, k, p)
  }

  lemma LookupLowers(own: string, t: World, k: Key, c: Choice)
    requires Ready(own, t, k, Lookup) && Fine(c)
    ensures Cheaper(own, t, k, Lookup, c)
  {
  }

  lemma StartLowers(own: string, t: World, k: Key, p: Stage, c: Choice)
    requires InBounds(t, p) && Fine(c)
    requires p.StartEntry? || p.StartCheck? || p.StartWrite? || p.StartCall? || p.StartStore?
    ensures Cheaper(own, t, k, p, c)
  {
    if p.StartWrite? {
      assert SyncStep(own, t, k, p, c).0.StartCall? || SyncStep(own, t, k, p, c).0.StartUndo?;
    }
  }

  lemma UndoLowers(own: string, t: World, k: Key, p: Stage, c: Choice)
    requires InBounds(t, p) && (p.StartUndo? || p.RollbackGet? || p.RollbackWrite?)
    ensures Cheaper(own, t, k, p, c)
  {
    Shutdown.StatementCounts(own, t, k, p, c);
  }

  lemma StopLowers(own: string, t: World, k: Key, p: Stage, c: Choice)
    requires InBounds(t, p) && Fine(c) && (p.StopEntry? || p.StopDelete? || p.StopWrite?)
    ensures Cheaper(own, t, k, p, c)
  {
  }

  /** What was fetched is still there when it is written back. */
  lemma StopGetLowers(own: string, t: World, k: Key, p: Stage, c: Choice)
    requires Ready(own, t, k, p) && p.StopGet? && Fine(c)
    ensures Cheaper(own, t, k, p, c)
  {
  }

  lemma CloseLowers(own: string, t: World, k: Key, p: Stage, c: Choice)
    requires Ready(own, t, k, p) && p.StopClose? && Fine(c)
    ensures Cheaper(own, t, k, p, c)
  {
    if t.reg.sets[p.cs].stopCh.Some? {
      assert t.reg.sets[p.cs].stopCh.value in C.InHand(t.reg, Some(p));
      assert t.reg.sets[p.cs].stopCh.value in C.Open(t.reg, k);
    }
  }

  /** A start whose update may be refused pays for that with the mark it makes first. */
  lemma EnsureLowers(own: string, t: World, k: Key, p: Stage)
    requires InBounds(t, p) && p.StartEnsure?
    ensures var (p', t') := StartEnsureStep(own, t, k, p); Left(own, t', k, p') < Left(own, t, k, p)
  {
    var cell := t.inf.heap[p.obj];
    if own !in cell.pc.finalizers {
      MarkCounts(own, t.inf, p.obj);
    }
  }

  lemma MarkCounts(own: string, inf: Informer, o: ObjId)
    requires o < |inf.heap| && own !in inf.heap[o].pc.finalizers
    ensures Unmarked(own, Marked(inf, o, own).heap) == Unmarked(own, inf.heap) - 1
  {
    UnmarkedUpdate(own, inf.heap, o, Marked(inf, o, own).heap[o]);
  }

  lemma StatementLowers(own: string, t: World, k: Key, p: Stage, c: Choice)
    requires Ready(own, t, k, p) && Fine(c)
    ensures var (p', t') := SyncStep(own, t, k, p, c); Left(own, t', k, p') < Left(own, t, k, p)
  {
    if p.StartEnsure? {
      EnsureLowers(own, t, k, p);
    } else {
      OthersLower(own, t, k, p, c);
      assert SyncStep(own, t, k, p, c).1.inf == t.inf;
    }
  }

  lemma OthersLower(own: string, t: World, k: Key, p: Stage, c: Choice)
    requires Ready(own, t, k, p) && Fine(c) && !p.StartEnsure?
    ensures Cheaper(own, t, k, p, c)
  {
    if p.Lookup? {
      LookupLowers(own, t, k, c);
    } else if p.StopGet? {
      StopGetLowers(own, t, k, p, c);
    } else if p.StopClose? {
      CloseLowers(own, t, k, p, c);
    } else if p.StartUndo? || p.RollbackGet? || p.RollbackWrite? {
      UndoLowers(own, t, k, p, c);
    } else if p.StopEntry? || p.StopDelete? || p.StopWrite? {
      StopLowers(own, t, k, p, c);
    } else {
      StartLowers(own, t, k, p, c);
    }
  }

  /** The informer after a statement: the same, or with one more mark. */
  lemma StatementKeepsKind(own: string, t: World, k: Key, p: Stage, c: Choice)
    requires InBounds(t, p)
    ensures var t' := SyncStep(own, t, k, p, c).1;
            && t'.inf.cache == t.inf.cache && |t'.inf.heap| == |t.inf.heap|
            && forall o: ObjId :: o < |t.inf.heap| ==>
                 t'.inf.heap[o].pc.name == t.inf.heap[o].pc.name && t'.inf.heap[o].pc.gvk == t.inf.heap[o].pc.gvk
  {
  }

  lemma StatementKeepsProper(own: string, t: World, k: Key, p: Stage, c: Choice)
    requires InBounds(t, p) && Proper(t)
    ensures Proper(SyncStep(own, t, k, p, c).1)
  {
    StatementKeepsKind(own, t, k, p, c);
  }

  /** Nothing gets harder for the workers of other keys. */
  lemma OthersCost(own: string, t: World, k: Key, p: Stage, c: Choice, x: Key, q: Stage)
    requires Ready(own, t, k, p) && x != k && F.StageOk(own, t, x, q)
    ensures StageCost(own, SyncStep(own, t, k, p, c).1, x, q) == StageCost(own, t, x, q)
  {
    F.StatementWrites(own, t, k, p, c);
    StatementKeepsKind(own, t, k, p, c);
  }

  // ---- every calm step ----

  ghost predicate Settling(s: State) {
    F.Inv(s) && Proper(s.world) && s.control == Running
  }

  lemma ReadyHere(s: State, w: nat)
    requires F.Inv(s) && Proper(s.world) && w < |s.workers| && s.workers[w].Busy?
    requires !s.workers[w].stage.Finish? && !s.workers[w].stage.Release?
    ensures Ready(s.own, s.world, s.workers[w].key, s.workers[w].stage)
  {
    F.InvHolds(s, w);
  }

  /** A worker's own step, and what it costs. */
  lemma WorkerPays(s: State, s': State, w: nat, p: Worker)
    requires w < |s.workers| && s'.workers == s.workers[w := p] && s'.own == s.own
    requires forall v :: 0 <= v < |s.workers| && v != w ==>
      Cost(s.own, s'.world, s.workers[v]) == Cost(s.own, s.world, s.workers[v])
    ensures Costs(s.own, s'.world, s'.workers) ==
            Costs(s.own, s.world, s.workers) - Cost(s.own, s.world, s.workers[w]) + Cost(s.own, s'.world, p)
  {
    CostsUpdate(s.own, s.world, s'.world, s.workers, w, p);
  }

  lemma StatementSettles(s: State, w: nat, c: Choice)
    requires Settling(s) && w < |s.workers| && s.workers[w].Busy? && Fine(c)
    requires !s.workers[w].stage.Finish? && !s.workers[w].stage.Release?
    ensures Potential(BusyStep(s, w, c)) < Potential(s) && Proper(BusyStep(s, w, c).world)
  {
    var Busy(k, p) := s.workers[w];
    ReadyHere(s, w);
    var (p', t') := SyncStep(s.own, s.world, k, p, c);
    StatementKeepsProper(s.own, s.world, k, p, c);
    StatementLowers(s.own, s.world, k, p, c);
    OthersPayNothing(s, w, c);
    WorkerPays(s, At(s, w, Busy(k, p')).(world := t'), w, Busy(k, p'));
  }

  lemma OthersPayNothing(s: State, w: nat, c: Choice)
    requires F.Traced(s) && M.Exclusive(s) && w < |s.workers| && s.workers[w].Busy?
    requires Ready(s.own, s.world, s.workers[w].key, s.workers[w].stage)
    ensures var t' := SyncStep(s.own, s.world, s.workers[w].key, s.workers[w].stage, c).1;
            forall v :: 0 <= v < |s.workers| && v != w ==>
                Cost(s.own, t', s.workers[v]) == Cost(s.own, s.world, s.workers[v])
  {
    var Busy(k, p) := s.workers[w];
    var t' := SyncStep(s.own, s.world, k, p, c).1;
    forall v | 0 <= v < |s.workers| && v != w
      ensures Cost(s.own, t', s.workers[v]) == Cost(s.own, s.world, s.workers[v])
    {
      if s.workers[v].Busy? {
        assert M.Holds(s, v, s.workers[v].key) && M.Holds(s, w, k);
        OthersCost(s.own, s.world, k, p, c, s.workers[v].key, s.workers[v].stage);
      }
    }
  }

  lemma GrowsByOne<T>(a: set<T>, x: T)
    ensures |a + {x}| <= |a| + 1
  {
    if x in a {
      assert a + {x} == a;
    }
  }

  /** Reporting a failure moves its cost to the waiting key. */
  lemma ReportSettles(s: State, w: nat, c: Choice)
    requires w < |s.workers| && s.workers[w].Busy? && (s.workers[w].stage.Finish? || s.workers[w].stage.Release?)
    ensures Potential(BusyStep(s, w, c)) < Potential(s) && BusyStep(s, w, c).world == s.world
  {
    var s' := BusyStep(s, w, c);
    WorkerPays(s, s', w, s'.workers[w]);
    GrowsByOne(s.queue.waiting, s.workers[w].key);
    assert s'.queue.dirty == s.queue.dirty;
  }

  lemma GetSettles(s: State, w: nat)
    requires Q.Valid(s.queue) && w < |s.workers| && s.workers[w].Idle? && s.queue.order != []
    ensures Potential(GetStep(s, w)) < Potential(s) && GetStep(s, w).world == s.world
  {
    var s' := GetStep(s, w);
    Q.GetKeepsValid(s.queue);
    WorkerPays(s, s', w, s'.workers[w]);
    assert |s'.queue.dirty| == |s.queue.dirty| - 1;
  }

  lemma NotifySettles(s: State, k: Key)
    requires k in s.world.inf.events
    ensures Potential(Step(s, Notify(k))) < Potential(s) && Step(s, Notify(k)).world.inf.cache == s.world.inf.cache
    ensures Step(s, Notify(k)).world.inf.heap == s.world.inf.heap
  {
    var s' := Step(s, Notify(k));
    GrowsByOne(s.queue.dirty, k);
    assert |s'.world.inf.events| == |s.world.inf.events| - 1;
    CostsSame(s.own, s.world, s'.world, s.workers);
  }

  lemma ExpireSettles(s: State, k: Key)
    requires k in s.queue.waiting
    ensures Potential(Step(s, Expire(k))) < Potential(s) && Step(s, Expire(k)).world == s.world
  {
    GrowsByOne(s.queue.dirty, k);
    assert |s.queue.waiting - {k}| == |s.queue.waiting| - 1;
  }

  lemma CalmWorkSettles(s: State, w: nat, c: Choice)
    requires Settling(s) && Calm(s, Work(w, c))
    ensures Potential(Step(s, Work(w, c))) < Potential(s) && Proper(Step(s, Work(w, c)).world)
  {
    if s.workers[w].Busy? {
      if s.workers[w].stage.Finish? || s.workers[w].stage.Release? {
        ReportSettles(s, w, c);
      } else {
        StatementSettles(s, w, c);
      }
    } else {
      assert Q.Valid(s.queue);
      GetSettles(s, w);
    }
  }

  lemma CalmSettles(s: State, a: Action)
    requires Settling(s) && Calm(s, a)
    ensures Potential(Step(s, a)) < Potential(s) && Settling(Step(s, a))
  {
    F.StepKeeps(s, a);
    CalmKeepsControl(s, a);
    CalmPays(s, a);
  }

  lemma CalmKeepsControl(s: State, a: Action)
    requires Calm(s, a)
    ensures Step(s, a).control == s.control
  {
  }

  lemma CalmPays(s: State, a: Action)
    requires Settling(s) && Calm(s, a)
    ensures Potential(Step(s, a)) < Potential(s) && Proper(Step(s, a).world)
  {
    match a
    case Work(w, c) => CalmWorkSettles(s, w, c);
    case Notify(k) => NotifySettles(s, k);
    case Expire(k) => ExpireSettles(s, k);
  }

  // ---- theorems ----

  /** A run of calm steps only. */
  ghost predicate CalmRun(s: State, more: seq<Action>)
    decreases |more|
  {
    more == [] || (CalmRun(s, more[..|more| - 1]) && Calm(Exec(s, more[..|more| - 1]), more[|more| - 1]))
  }

  lemma {:induction false} CalmRunPays(s: State, more: seq<Action>)
    requires Settling(s) && CalmRun(s, more)
    ensures Settling(Exec(s, more)) && |more| + Potential(Exec(s, more)) <= Potential(s)
    decreases |more|
  {
    if more != [] {
      CalmRunPays(s, more[..|more| - 1]);
      CalmSettles(Exec(s, more[..|more| - 1]), more[|more| - 1]);
    }
  }

  /** If no calm step is left, nothing is left to do. */
  lemma NoCalmStepIsRest(s: State)
    requires V.Inv(s) && s.control == Running && |s.workers| > 0
    requires forall a :: !Calm(s, a)
    ensures V.Quiescent(s)
  {
    var fine := Choice(false, S.Answered, Channel);
    forall w: nat | w < |s.workers| ensures s.workers[w].Idle? && s.queue.order == [] {
      assert !Calm(s, Work(w, fine));
    }
    assert s.workers[0].Idle?;
    forall k ensures k !in s.queue.processing {
      assert forall w :: !M.Holds(s, w, k);
    }
    forall k ensures k !in s.queue.dirty {
      assert k !in s.queue.order;
    }
    forall k ensures k !in s.queue.waiting {
      assert !Calm(s, Expire(k));
    }
    forall k ensures k !in s.world.inf.events {
      assert !Calm(s, Notify(k));
    }
  }

  /** At rest, the cached keys with an open channel are those of the live ProviderConfigs. */
  ghost predicate Settled(s: State) {
    V.Quiescent(s) &&
    forall k :: k in s.world.inf.cache ==> (C.Open(s.world.reg, k) != {} <==> V.Wanted(s.world.inf, k))
  }

  /**
   Convergence. From any reachable state of a running controller whose cached entries are ProviderConfigs under their
   own names, whatever is under way: under every schedule only a bounded number of calm steps is possible, and when
   none is left the controller is at rest, and its cached keys run exactly if they should.
   */
  lemma CalmRunsSettle(own: string, workers: nat, run: seq<Action>, more: seq<Action>)
    requires workers > 0
    requires var s := Exec(Init(own, workers), run); s.control == Running && Proper(s.world) && CalmRun(s, more)
    ensures var s := Exec(Init(own, workers), run);
            && |more| <= Potential(s)
            && ((forall a :: !Calm(Exec(s, more), a)) ==> Settled(Exec(s, more)))
  {
    F.Reachable(own, workers, run);
    Shutdown.SameWorkers(Init(own, workers), run + more);
    var s := Exec(Init(own, workers), run);
    CalmRunPays(s, more);
    Shutdown.Concat(Init(own, workers), run, more);
    if forall a :: !Calm(Exec(s, more), a) {
      NoCalmStepIsRest(Exec(s, more));
      V.RestIsRight(own, workers, run + more);
      RestSettles(own, workers, run + more);
    }
  }

  lemma RestSettles(own: string, workers: nat, run: seq<Action>)
    requires V.Quiescent(Exec(Init(own, workers), run))
    ensures Settled(Exec(Init(own, workers), run))
  {
    V.RestIsRight(own, workers, run);
  }

  lemma CalmRunExtends(s: State, more: seq<Action>, a: Action)
    requires CalmRun(s, more) && Calm(Exec(s, more), a)
    ensures CalmRun(s, more + [a])
  {
    assert (more + [a])[..|more|] == more;
  }

  lemma Continue(s: State, more: seq<Action>) returns (whole: seq<Action>)
    requires Settling(s) && CalmRun(s, more)
    ensures CalmRun(s, whole) && forall a :: !Calm(Exec(s, whole), a)
    decreases Potential(s) - |more|
  {
    CalmRunPays(s, more);
    if a :| Calm(Exec(s, more), a) {
      CalmRunExtends(s, more, a);
      CalmRunPays(s, more + [a]);
      whole := Continue(s, more + [a]);
    } else {
      whole := more;
    }
  }

  /** So there always is a way to rest without any help from outside. */
  lemma RestIsReachable(own: string, workers: nat, run: seq<Action>) returns (more: seq<Action>)
    requires workers > 0
    requires var s := Exec(Init(own, workers), run); s.control == Running && Proper(s.world)
    ensures CalmRun(Exec(Init(own, workers), run), more)
    ensures Settled(Exec(Exec(Init(own, workers), run), more))
  {
    F.Reachable(own, workers, run);
    more := Continue(Exec(Init(own, workers), run), []);
    CalmRunsSettle(own, workers, run, more);
  }
}
