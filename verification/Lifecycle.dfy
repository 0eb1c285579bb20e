/**
 The ProviderConfig controller as a step machine: worker goroutines, the work queue, the controller
 map, the informer cache, the API server and the stop channels. One step is one access to shared state,
 so a run, which is any sequence of actions, is any interleaving. An action that is not enabled does nothing.
 */
module Lifecycle {
  import opened Domain
  import S = ApiServer
  import Q = WorkQueue

  // ---- state ----

  /** A heap cell of the controller map. `key` is history: the key the set was created for. */
  datatype ControllerSet = ControllerSet(key: Key, stopCh: Option<Chan>)

  /**
   The controller map and the stop channels. History: `owner[c]` is the key channel `c` was returned for, `dropped`
   holds the channels that came together with an error, `doubleClose` says that a closed channel was closed again, and
   `panicked` holds the keys whose entry saw a start attempt panic.
   */
  datatype Registry = Registry(
    controllers: map<Key, SetId>,
    sets: seq<ControllerSet>,
    owner: seq<Key>,
    closed: set<Chan>,
    dropped: set<Chan>,
    doubleClose: bool,
    panicked: set<Key>)

  /** A cached object in memory, which `sync` hands on by pointer. `original` is history: the version delivered. */
  datatype Snapshot = Snapshot(pc: Object, original: Object)

  /** An indexer entry: a ProviderConfig, or something of another type. */
  datatype Entry = ProviderConfig(obj: ObjId) | Alien

  /** The informer: cached objects in memory, the indexer, and notifications not yet handed to the handler. */
  datatype Informer = Informer(heap: seq<Snapshot>, cache: map<Key, Entry>, events: multiset<Key>)

  /** What a sync reads and writes. */
  datatype World = World(reg: Registry, inf: Informer, server: S.Server)

  /**
   How far a worker is with its key. History: `blind` says that the guard found the finalizer on the snapshot while the
   server's object did not list it. The stages between Lookup and Finish are the statements of `sync`,
   StartControllersForProviderConfig and StopControllersForProviderConfig that touch shared state.
   */
  datatype Stage =
    | Lookup
    | StartEntry(obj: ObjId)
    | StartCheck(obj: ObjId, cs: SetId, existed: bool)
    | StartEnsure(obj: ObjId, cs: SetId, existed: bool)
    | StartWrite(obj: ObjId, cs: SetId, existed: bool)
    | StartCall(obj: ObjId, cs: SetId, existed: bool, had: bool, blind: bool)
    | StartStore(obj: ObjId, cs: SetId, ch: Chan)
    | StartUndo(obj: ObjId, cs: SetId, existed: bool, rollback: bool)
    | RollbackGet(obj: ObjId)
    | RollbackWrite(obj: ObjId, latest: Object)
    | StopEntry(obj: ObjId)
    | StopDelete(obj: ObjId, cs: SetId)
    | StopClose(obj: ObjId, cs: SetId)
    | StopGet(obj: ObjId)
    | StopWrite(obj: ObjId, latest: Object)
    | Finish(seen: Option<ObjId>, ok: bool)
    | Release(seen: Option<ObjId>, ok: bool)

  datatype Worker = Unspawned | Idle | Exited | Busy(key: Key, stage: Stage)

  /** Controller.Run: waiting for the cache, running, shutting the queue down, returned. */
  datatype Control = WaitingForSync | Running | ShuttingDown | Returned

  datatype State = State(own: string, control: Control, queue: Q.Queue, workers: seq<Worker>, world: World)

  // ---- actions ----

  /** What the starter does. A channel that comes with an error is ignored: it is neither stored nor closed. */
  datatype StartResult = Channel | NilChannel | StartError | ChannelAndError | Panic

  /** What the environment decides during a step of a worker. */
  datatype Choice = Choice(lookupFails: bool, reply: S.Reply, start: StartResult)

  datatype Action =
    | Work(w: nat, choice: Choice)
    | Notify(k: Key)
    | Resync(k: Key)
    | Expire(k: Key)
    | CacheSet(k: Key, o: Object)
    | CacheAlien(k: Key)
    | CacheDrop(k: Key)
    | Create(o: Object)
    | Delete(k: Key)
    | Modify(k: Key, finalizers: seq<string>)
    | CacheSynced
    | Stop
    | ShutdownReturns

  function Init(own: string, workers: nat): State {
    State(own, WaitingForSync, Q.EMPTY, seq(workers, _ => Unspawned),
          World(Registry(map[], [], [], {}, {}, false, {}), Informer([], map[], multiset{}), S.EMPTY))
  }

  // ---- the controller map ----

  /** The map has an entry for `k` that holds a channel. */
  predicate Runs(r: Registry, k: Key) {
    k in r.controllers && r.controllers[k] < |r.sets| && r.sets[r.controllers[k]].stopCh.Some?
  }

  function Created(r: Registry, k: Key): Registry {
    r.(controllers := r.controllers[k := |r.sets|], sets := r.sets + [ControllerSet(k, None)],
        panicked := r.panicked - {k})
  }

  function Deleted(r: Registry, k: Key): Registry {
    r.(controllers := r.controllers - {k}, panicked := r.panicked - {k})
  }

  function Stored(r: Registry, cs: SetId, ch: Chan): Registry
    requires cs < |r.sets|
  {
    r.(sets := r.sets[cs := r.sets[cs].(stopCh := Some(ch))])
  }

  /** A channel returned by the starter is new, as one made by `make` is. */
  function Opened(r: Registry, k: Key): Registry {
    r.(owner := r.owner + [k])
  }

  function Abandoned(r: Registry, k: Key): Registry {
    Opened(r, k).(dropped := r.dropped + {|r.owner|})
  }

  // ---- one statement of a sync ----

  function LookupStage(t: World, k: Key, fails: bool): Stage {
    if fails then Finish(None, false)
    else if k !in t.inf.cache then Finish(None, true)
    else match t.inf.cache[k]
      case Alien => Finish(None, false)
      case ProviderConfig(o) =>
        if |t.inf.heap| <= o || t.inf.heap[o].pc.name != k then Finish(None, false)
        else if t.inf.heap[o].pc.terminating then StopEntry(o)
        else StartEntry(o)
  }

  function StartEntryStep(t: World, k: Key, o: ObjId): (Stage, World)
    requires o < |t.inf.heap|
  {
    var pc := t.inf.heap[o].pc;
    if pc.gvk != PROVIDER_CONFIG_GVK then (Finish(Some(o), false), t)
    else if pc.terminating then (Finish(Some(o), true), t)
    else if k in t.reg.controllers then (StartCheck(o, t.reg.controllers[k], true), t)
    else (StartCheck(o, |t.reg.sets|, false), t.(reg := Created(t.reg, k)))
  }

  /** SetFinalizers changes the cached object itself, before anything is sent to the server. */
  function Marked(inf: Informer, o: ObjId, own: string): Informer
    requires o < |inf.heap|
  {
    var cell := inf.heap[o];
    inf.(heap := inf.heap[o := cell.(pc := cell.pc.(finalizers := cell.pc.finalizers + [own]))])
  }

  function StartEnsureStep(own: string, t: World, k: Key, p: Stage): (Stage, World)
    requires p.StartEnsure? && p.obj < |t.inf.heap|
  {
    if own in t.inf.heap[p.obj].pc.finalizers then
      (StartCall(p.obj, p.cs, p.existed, true, !S.Carries(t.server, k, own)), t)
    else
      (StartWrite(p.obj, p.cs, p.existed), t.(inf := Marked(t.inf, p.obj, own)))
  }

  function StartWriteStep(t: World, p: Stage, reply: S.Reply): (Stage, World)
    requires p.StartWrite? && p.obj < |t.inf.heap|
  {
    var (server, ok) := S.Update(t.server, t.inf.heap[p.obj].pc, reply);
    (if ok then StartCall(p.obj, p.cs, p.existed, false, false) else StartUndo(p.obj, p.cs, p.existed, false),
     t.(server := server))
  }

  function StartCallStep(t: World, k: Key, p: Stage, result: StartResult): (Stage, World)
    requires p.StartCall?
  {
    match result
    case Channel => (StartStore(p.obj, p.cs, |t.reg.owner|), t.(reg := Opened(t.reg, k)))
    case ChannelAndError => (StartUndo(p.obj, p.cs, p.existed, !p.had), t.(reg := Abandoned(t.reg, k)))
    case Panic => (Finish(Some(p.obj), false), t.(reg := t.reg.(panicked := t.reg.panicked + {k})))
    case _ => (StartUndo(p.obj, p.cs, p.existed, !p.had), t)
  }

  function StartUndoStep(t: World, k: Key, p: Stage): (Stage, World)
    requires p.StartUndo?
  {
    (if p.rollback then RollbackGet(p.obj) else Finish(Some(p.obj), false),
     if p.existed then t else t.(reg := Deleted(t.reg, k)))
  }

  /** The length test both rollback and Stop use to see whether there is a finalizer to remove. */
  predicate Lists(o: Object, own: string) {
    |Without(o.finalizers, own)| != |o.finalizers|
  }

  /** What both rollback and Stop write back: the fetched object without the manager's finalizer. */
  function Released(latest: Object, own: string): Object {
    latest.(finalizers := Without(latest.finalizers, own))
  }

  function RollbackGetStage(own: string, t: World, k: Key, o: ObjId, reply: S.Reply): Stage {
    match S.Fetch(t.server, k, reply)
    case Found(latest) => if Lists(latest, own) then RollbackWrite(o, latest) else Finish(Some(o), false)
    case _ => Finish(Some(o), false)
  }

  function StopEntryStage(t: World, k: Key, o: ObjId): Stage
    requires o < |t.inf.heap|
  {
    if t.inf.heap[o].pc.gvk != PROVIDER_CONFIG_GVK then Finish(Some(o), false)
    else if k in t.reg.controllers then StopDelete(o, t.reg.controllers[k])
    else StopGet(o)
  }

  /** Closing a closed channel panics, and syncWrapper turns the panic into an error. */
  function StopCloseStep(t: World, o: ObjId, cs: SetId): (Stage, World)
    requires cs < |t.reg.sets|
  {
    match t.reg.sets[cs].stopCh
    case None => (StopGet(o), t)
    case Some(ch) =>
      if ch in t.reg.closed then (Finish(Some(o), false), t.(reg := t.reg.(doubleClose := true)))
      else (StopGet(o), t.(reg := t.reg.(closed := t.reg.closed + {ch})))
  }

  function StopGetStage(own: string, t: World, k: Key, o: ObjId, reply: S.Reply): Stage {
    match S.Fetch(t.server, k, reply)
    case Found(latest) => if Lists(latest, own) then StopWrite(o, latest) else Finish(Some(o), true)
    case NotFound => Finish(Some(o), true)
    case Unreachable => Finish(Some(o), false)
  }

  /** The stage refers to memory that exists. It does in every reachable state. */
  predicate InBounds(t: World, p: Stage) {
    && (p.StartEntry? || p.StartEnsure? || p.StartWrite? || p.StopEntry? ==> p.obj < |t.inf.heap|)
    && (p.StartCheck? || p.StartStore? || p.StopClose? ==> p.cs < |t.reg.sets|)
  }

  /** A sync writes neither the indexer nor the notifications; all it does to the informer is mark a cached object. */
  function SyncStep(own: string, t: World, k: Key, p: Stage, c: Choice): (r: (Stage, World))
    requires InBounds(t, p)
    ensures r.1.inf.cache == t.inf.cache && r.1.inf.events == t.inf.events && |r.1.inf.heap| == |t.inf.heap|
    ensures !p.StartEnsure? ==> r.1.inf == t.inf
    ensures !p.StartWrite? && !p.RollbackWrite? && !p.StopWrite? ==> r.1.server == t.server
  {
    match p
    case Lookup => (LookupStage(t, k, c.lookupFails), t)
    case StartEntry(o) => StartEntryStep(t, k, o)
    case StartCheck(o, cs, existed) =>
      (if t.reg.sets[cs].stopCh.Some? then Finish(Some(o), true) else StartEnsure(o, cs, existed), t)
    case StartEnsure(_, _, _) => StartEnsureStep(own, t, k, p)
    case StartWrite(_, _, _) => StartWriteStep(t, p, c.reply)
    case StartCall(_, _, _, _, _) => StartCallStep(t, k, p, c.start)
    case StartStore(o, cs, ch) => (Finish(Some(o), true), t.(reg := Stored(t.reg, cs, ch)))
    case StartUndo(_, _, _, _) => StartUndoStep(t, k, p)
    case RollbackGet(o) => (RollbackGetStage(own, t, k, o, c.reply), t)
    case RollbackWrite(o, latest) =>
      (Finish(Some(o), false), t.(server := S.Update(t.server, Released(latest, own), c.reply).0))
    case StopEntry(o) => (StopEntryStage(t, k, o), t)
    case StopDelete(o, cs) => (StopClose(o, cs), t.(reg := Deleted(t.reg, k)))
    case StopClose(o, cs) => StopCloseStep(t, o, cs)
    case StopGet(o) => (StopGetStage(own, t, k, o, c.reply), t)
    case StopWrite(o, latest) =>
      var (server, ok) := S.Update(t.server, Released(latest, own), c.reply);
      (Finish(Some(o), ok), t.(server := server))
    case Finish(_, _) => (p, t)
    case Release(_, _) => (p, t)
  }

  // ---- the worker loop ----

  function At(s: State, w: nat, p: Worker): State
    requires w < |s.workers|
  {
    s.(workers := s.workers[w := p])
  }

  /** Get blocks on an empty queue until shutdown, and then reports that the worker may quit. */
  function GetStep(s: State, w: nat): State
    requires w < |s.workers|
  {
    if s.queue.order != [] then
      var (q, k) := Q.Get(s.queue);
      At(s, w, Busy(k, Lookup)).(queue := q)
    else if s.queue.shuttingDown then At(s, w, Exited)
    else s
  }

  function BusyStep(s: State, w: nat, c: Choice): State
    requires w < |s.workers| && s.workers[w].Busy?
  {
    var Busy(k, p) := s.workers[w];
    match p
    case Finish(seen, ok) => At(s, w, Busy(k, Release(seen, ok))).(queue := Q.End(s.queue, k, ok))
    case Release(_, _) => At(s, w, Idle).(queue := Q.Done(s.queue, k))
    case _ =>
      if InBounds(s.world, p) then
        var (p', world) := SyncStep(s.own, s.world, k, p, c);
        At(s, w, Busy(k, p')).(world := world)
      else s
  }

  function WorkStep(s: State, w: nat, c: Choice): State
    requires w < |s.workers|
  {
    match s.workers[w]
    case Idle => GetStep(s, w)
    case Busy(_, _) => BusyStep(s, w, c)
    case _ => s
  }

  // ---- everything else ----

  /** The informer writes its indexer first and notifies the handlers later. */
  function Cached(inf: Informer, k: Key, e: Entry): Informer {
    inf.(cache := inf.cache[k := e], events := inf.events + multiset{k})
  }

  function InformerStep(t: World, a: Action): Informer {
    match a
    case Resync(k) => if k in t.inf.cache then t.inf.(events := t.inf.events + multiset{k}) else t.inf
    case CacheSet(k, o) =>
      if o in t.server.published then
        Cached(t.inf.(heap := t.inf.heap + [Snapshot(o, o)]), k, ProviderConfig(|t.inf.heap|))
      else t.inf
    case CacheAlien(k) => Cached(t.inf, k, Alien)
    case CacheDrop(k) => t.inf.(cache := t.inf.cache - {k})
    case Notify(k) => t.inf.(events := t.inf.events - multiset{k})
    case _ => t.inf
  }

  function WriterStep(server: S.Server, a: Action): S.Server {
    match a
    case Create(o) => S.Create(server, o)
    case Delete(k) => S.Delete(server, k)
    case Modify(k, finalizers) => S.Modify(server, k, finalizers)
    case _ => server
  }

  predicate AllExited(s: State) {
    forall w :: 0 <= w < |s.workers| ==> s.workers[w].Exited?
  }

  function ControlStep(s: State, a: Action): State {
    match a
    case CacheSynced =>
      if s.control == WaitingForSync then s.(control := Running, workers := seq(|s.workers|, _ => Idle)) else s
    case Stop =>
      if s.control == WaitingForSync || s.control == Running then
        s.(control := ShuttingDown, queue := Q.ShutDown(s.queue))
      else s
    case ShutdownReturns =>
      if s.control == ShuttingDown && AllExited(s) then s.(control := Returned) else s
    case _ => s
  }

  function Step(s: State, a: Action): State {
    match a
    case Work(w, c) => if w < |s.workers| then WorkStep(s, w, c) else s
    case Notify(k) =>
      if k in s.world.inf.events then
        s.(queue := Q.Add(s.queue, k), world := s.world.(inf := InformerStep(s.world, a)))
      else s
    case Expire(k) => s.(queue := Q.Expire(s.queue, k))
    case CacheSynced => ControlStep(s, a)
    case Stop => ControlStep(s, a)
    case ShutdownReturns => ControlStep(s, a)
    case _ => s.(world := s.world.(inf := InformerStep(s.world, a), server := WriterStep(s.world.server, a)))
  }

  /** The state after a run. */
  function Exec(s: State, run: seq<Action>): State
    decreases |run|
  {
    if run == [] then s else Step(Exec(s, run[..|run| - 1]), run[|run| - 1])
  }
}
