/**
 The manager as it is written: objects updated in place, call by call. What a call leaves behind is what the step
 machine reaches when nobody interleaves with the worker that makes the call.
 */
module Manager {
  import opened Domain
  import L = Lifecycle
  import S = ApiServer
  import opened Solo

  /** A cached object, which the manager marks in place. */
  class Unstructured {
    var content: Object
    constructor (content: Object)
      ensures this.content == content
    {
      this.content := content;
    }
  }

  class ControllerSet {
    var stopCh: Option<Chan>
    constructor ()
      ensures stopCh == None
    {
      stopCh := None;
    }
  }

  class ControllerMap {
    var data: map<Key, ControllerSet>
    /** History: every set ever made, with the key it was made for, and the place of the current ones. */
    ghost var made: seq<ControllerSet>
    ghost var keys: seq<Key>
    ghost var index: map<Key, SetId>
    /** History: the keys whose entry saw a start attempt panic. */
    ghost var panicked: set<Key>

    ghost predicate Valid()
      reads this
    {
      && |keys| == |made|
      && (forall i, j :: 0 <= i < j < |made| ==> made[i] != made[j])
      && data.Keys == index.Keys
      && (forall k :: k in data ==> index[k] < |made| && made[index[k]] == data[k] && keys[index[k]] == k)
    }

    ghost function Sets(): (sets: seq<L.ControllerSet>)
      reads this, made
      requires |keys| == |made|
    {
      seq(|made|, i requires 0 <= i < |made| && |keys| == |made| reads this, made =>
        L.ControllerSet(keys[i], made[i].stopCh))
    }

    constructor ()
      ensures Valid() && data == map[] && made == [] && panicked == {}
    {
      data, made, keys, index, panicked := map[], [], [], map[], {};
    }

    method Get(key: Key) returns (cs: ControllerSet?, found: bool)
      requires Valid()
      ensures found <==> key in data
      ensures found ==> cs == data[key]
    {
      if key in data {
        cs, found := data[key], true;
      } else {
        cs, found := null, false;
      }
    }

    method GetOrCreate(key: Key) returns (cs: ControllerSet, existed: bool)
      requires Valid()
      modifies this
      ensures Valid() && key in data && cs == data[key]
      ensures existed <==> key in old(data)
      ensures existed ==> data == old(data) && made == old(made) && keys == old(keys)
      ensures existed ==> index == old(index) && panicked == old(panicked)
      ensures !existed ==>
                fresh(cs) && cs.stopCh == None && data == old(data)[key := cs] &&
                made == old(made) + [cs] && keys == old(keys) + [key] && index == old(index)[key := |old(made)|] &&
                panicked == old(panicked) - {key}
    {
      if key in data {
        cs, existed := data[key], true;
      } else {
        cs := new ControllerSet();
        existed := false;
        data := data[key := cs];
        made, keys, index := made + [cs], keys + [key], index[key := |made|];
        panicked := panicked - {key};
      }
    }

    method Delete(key: Key)
      requires Valid()
      modifies this
      ensures Valid() && data == old(data) - {key} && index == old(index) - {key}
      ensures made == old(made) && keys == old(keys) && panicked == old(panicked) - {key}
    {
      data := data - {key};
      index, panicked := index - {key}, panicked - {key};
    }
  }

  /** The world outside: the API server, the starter and the channels it has handed out. */
  class Cluster {
    var server: S.Server
    var owner: seq<Key>
    var closed: set<Chan>
    /** History: the channels that came with an error, and whether a closed channel was closed again. */
    ghost var dropped: set<Chan>
    ghost var doubleClose: bool

    method Update(o: Object, reply: S.Reply) returns (ok: bool)
      modifies this`server
      ensures (server, ok) == S.Update(old(server), o, reply)
    {
      var (next, accepted) := S.Update(server, o, reply);
      server, ok := next, accepted;
    }

    /** A starter may return a channel, an error, neither, or both. */
    method StartController(k: Key, result: L.StartResult) returns (ch: Option<Chan>, err: bool, panics: bool)
      modifies this`owner, this`dropped
      ensures ch == if result.Channel? || result.ChannelAndError? then Some(|old(owner)|) else None
      ensures owner == if ch.Some? then old(owner) + [k] else old(owner)
      ensures dropped == if ch.Some? && err then old(dropped) + {ch.value} else old(dropped)
      ensures err <==> result.StartError? || result.ChannelAndError?
      ensures panics <==> result.Panic?
    {
      ch := None;
      err, panics := result.StartError? || result.ChannelAndError?, result.Panic?;
      if result.Channel? || result.ChannelAndError? {
        ch := Some(|owner|);
        dropped := if err then dropped + {|owner|} else dropped;
        owner := owner + [k];
      }
    }

    method Close(ch: Chan) returns (panics: bool)
      modifies this`closed, this`doubleClose
      ensures panics <==> ch in old(closed)
      ensures closed == if panics then old(closed) else old(closed) + {ch}
      ensures doubleClose == (old(doubleClose) || panics)
    {
      panics := ch in closed;
      doubleClose := doubleClose || panics;
      if !panics {
        closed := closed + {ch};
      }
    }
  }

  datatype Outcome = Done | Failed | Panicked

  class Manager {
    const controllers: ControllerMap
    const cluster: Cluster
    const finalizerName: string

    constructor (cluster: Cluster, finalizerName: string)
      ensures this.cluster == cluster && this.finalizerName == finalizerName
      ensures fresh(controllers) && controllers.Valid() && controllers.data == map[]
    {
      controllers := new ControllerMap();
      this.cluster, this.finalizerName := cluster, finalizerName;
    }

    ghost predicate Valid()
      reads controllers
    {
      controllers.Valid()
    }

    ghost function Registry(): L.Registry
      reads controllers, controllers.made, cluster
      requires Valid()
    {
      L.Registry(controllers.index, controllers.Sets(), cluster.owner, cluster.closed, cluster.dropped,
          cluster.doubleClose, controllers.panicked)
    }

    /** The part of the step machine's state that a call on `pc` can see; `original` is the version delivered. */
    ghost function World(pc: Unstructured, original: Object): L.World
      reads controllers, controllers.made, cluster, pc
      requires Valid()
    {
      L.World(Registry(),
              L.Informer([L.Snapshot(pc.content, original)], map[pc.content.name := L.ProviderConfig(0)], multiset{}),
              cluster.server)
    }

    /** The outcome and the state are those of the machine's sync from stage `p`. */
    ghost predicate Matches(before: L.World, p: L.Stage, calls: Calls, k: Key, r: Outcome, after: L.World) {
      Complete(finalizerName, before, k, p, calls) == (L.Finish(Some(0), r == Done), after)
    }

    method RollbackFinalizerOnStartFailure(pc: Unstructured, key: Key, calls: Calls, ghost original: Object)
      requires Valid()
      modifies cluster
      ensures Valid()
      ensures Matches(old(World(pc, original)), L.RollbackGet(0), calls, key, Failed, World(pc, original))
    {
      ghost var t0 := World(pc, original);
      match S.Fetch(cluster.server, key, calls.fetch)
      case Found(latest) =>
        var rest := Without(latest.finalizers, finalizerName);
        if |rest| != |latest.finalizers| {
          var ok := cluster.Update(latest.(finalizers := rest), calls.release);
          assert World(pc, original) == t0.(server := cluster.server);
        }
      case _ =>
    }

    method StartControllersForProviderConfig(pc: Unstructured, calls: Calls, ghost original: Object)
        returns (r: Outcome)
      requires Valid()
      modifies controllers, controllers.made, cluster, pc
      ensures Valid() && pc.content.name == old(pc.content.name)
      ensures Matches(old(World(pc, original)), L.StartEntry(0), calls, old(pc.content.name), r, World(pc, original))
    {
      if pc.content.gvk != PROVIDER_CONFIG_GVK {
        return Failed;
      }
      if pc.content.terminating {
        return Done;
      }
      r := StartEntered(pc, pc.content.name, calls, original);
    }

    method StartEntered(pc: Unstructured, key: Key, calls: Calls, ghost original: Object) returns (r: Outcome)
      requires Valid() && pc.content.gvk == PROVIDER_CONFIG_GVK && !pc.content.terminating
      modifies controllers, controllers.made, cluster, pc
      ensures Valid() && pc.content.name == old(pc.content.name)
      ensures Matches(old(World(pc, original)), L.StartEntry(0), calls, key, r, World(pc, original))
    {
      ghost var t0 := World(pc, original);
      var cs, existed := controllers.GetOrCreate(key);
      ghost var id := controllers.index[key];
      ghost var t1 := World(pc, original);
      assert t1.reg.sets == if existed then t0.reg.sets else t0.reg.sets + [L.ControllerSet(key, None)];
      Advance(finalizerName, t0, key, L.StartEntry(0), calls, L.StartCheck(0, id, existed), t1);
      r := StartChecked(pc, key, cs, existed, calls, id, original);
    }

    method StartChecked(pc: Unstructured, key: Key, cs: ControllerSet, existed: bool, calls: Calls, ghost id: SetId,
        ghost original: Object)
      returns (r: Outcome)
      requires Valid() && key in controllers.data && controllers.data[key] == cs && controllers.index[key] == id
      modifies controllers, cs, cluster, pc
      ensures Valid() && pc.content.name == old(pc.content.name)
      ensures Matches(old(World(pc, original)), L.StartCheck(0, id, existed), calls, key, r, World(pc, original))
    {
      ghost var t1 := World(pc, original);
      if cs.stopCh.Some? {
        return Done;
      }
      Advance(finalizerName, t1, key, L.StartCheck(0, id, existed), calls, L.StartEnsure(0, id, existed), t1);
      var hadFinalizer, ok := EnsureFinalizer(pc, key, calls, id, existed, original);
      if !ok {
        Undo(key, id, existed, false, pc, calls, original);
        return Failed;
      }
      r := RunStarter(pc, key, cs, calls, existed, hadFinalizer, id, original);
    }

    /** Marks the cached object and updates the server, unless the cached object lists the finalizer already. */
    method EnsureFinalizer(pc: Unstructured, key: Key, calls: Calls, ghost id: SetId, ghost existed: bool,
        ghost original: Object)
      returns (hadFinalizer: bool, ok: bool)
      requires Valid()
      modifies cluster, pc
      ensures Valid() && pc.content.name == old(pc.content.name) && cluster.owner == old(cluster.owner)
      ensures World(pc, original).reg == old(World(pc, original)).reg
      ensures hadFinalizer ==> ok
      ensures Complete(finalizerName, old(World(pc, original)), key, L.StartEnsure(0, id, existed), calls) ==
              Complete(finalizerName, World(pc, original), key, AfterEnsure(id, existed, hadFinalizer, ok, key), calls)
    {
      ghost var t0 := World(pc, original);
      var finalizers := pc.content.finalizers;
      hadFinalizer := finalizerName in finalizers;
      ok := true;
      if !hadFinalizer {
        pc.content := pc.content.(finalizers := finalizers + [finalizerName]);
        ghost var t1 := World(pc, original);
        assert t1.inf.heap == L.Marked(t0.inf, 0, finalizerName).heap;
        Advance(finalizerName, t0, key, L.StartEnsure(0, id, existed), calls, L.StartWrite(0, id, existed), t1);
        ok := cluster.Update(pc.content, calls.update);
        ghost var t2 := World(pc, original);
        assert t2 == t1.(server := cluster.server);
        Advance(finalizerName, t1, key, L.StartWrite(0, id, existed), calls, AfterEnsure(id, existed, false, ok, key),
            t2);
      } else {
        Advance(finalizerName, t0, key, L.StartEnsure(0, id, existed), calls, AfterEnsure(id, existed, true, true, key),
            t0);
      }
    }

    ghost function AfterEnsure(id: SetId, existed: bool, had: bool, ok: bool, key: Key): L.Stage
      reads cluster
    {
      if !ok then L.StartUndo(0, id, existed, false)
      else L.StartCall(0, id, existed, had, had && !S.Carries(cluster.server, key, finalizerName))
    }

    method RunStarter(pc: Unstructured, key: Key, cs: ControllerSet, calls: Calls, existed: bool, hadFinalizer: bool,
                      ghost id: SetId, ghost original: Object)
      returns (r: Outcome)
      requires Valid() && key in controllers.data && controllers.data[key] == cs && controllers.index[key] == id
      modifies controllers, cs, cluster
      ensures Valid()
      ensures Matches(old(World(pc, original)), old(AfterEnsure(id, existed, hadFinalizer, true, key)), calls, key, r,
        World(pc, original))
    {
      ghost var t0 := World(pc, original);
      ghost var p0 := AfterEnsure(id, existed, hadFinalizer, true, key);
      var ch, err, panics := cluster.StartController(key, calls.start);
      if panics {
        RecordPanic(pc, key, calls, p0, original);
        return Panicked;
      }
      ghost var t1 := World(pc, original);
      if err || ch.None? {
        assert t1 == if ch.Some? then t0.(reg := L.Abandoned(t0.reg, key)) else t0;
        Advance(finalizerName, t0, key, p0, calls, L.StartUndo(0, id, existed, !hadFinalizer), t1);
        Undo(key, id, existed, !hadFinalizer, pc, calls, original);
        return Failed;
      }
      Advance(finalizerName, t0, key, p0, calls, L.StartStore(0, id, ch.value), t1);
      StoreChannel(pc, key, cs, ch.value, calls, id, original);
      return Done;
    }

    /** Nothing is undone when the starter panics: the entry and the finalizer stay. */
    ghost method RecordPanic(pc: Unstructured, key: Key, calls: Calls, p: L.Stage, original: Object)
      requires Valid() && p.StartCall? && p.obj == 0 && calls.start.Panic?
      modifies controllers
      ensures Valid() && unchanged(controllers`data)
      ensures Matches(old(World(pc, original)), p, calls, key, Panicked, World(pc, original))
    {
      ghost var t0 := World(pc, original);
      controllers.panicked := controllers.panicked + {key};
      assert World(pc, original) == t0.(reg := t0.reg.(panicked := t0.reg.panicked + {key}));
      Advance(finalizerName, t0, key, p, calls, L.Finish(Some(0), false), World(pc, original));
    }

    method StoreChannel(pc: Unstructured, key: Key, cs: ControllerSet, ch: Chan, calls: Calls, ghost id: SetId,
        ghost original: Object)
      requires Valid() && key in controllers.data && controllers.data[key] == cs && controllers.index[key] == id
      modifies cs
      ensures Valid()
      ensures Matches(old(World(pc, original)), L.StartStore(0, id, ch), calls, key, Done, World(pc, original))
    {
      ghost var t0 := World(pc, original);
      cs.stopCh := Some(ch);
      assert World(pc, original).reg.sets == L.Stored(t0.reg, id, ch).sets;
      Advance(finalizerName, t0, key, L.StartStore(0, id, ch), calls, L.Finish(Some(0), true), World(pc, original));
    }

    /** Drops an entry this call made, and takes back a finalizer this call wrote. */
    method Undo(key: Key, ghost id: SetId, existed: bool, rollback: bool, pc: Unstructured, calls: Calls,
        ghost original: Object)
      requires Valid()
      modifies controllers, cluster
      ensures Valid()
      ensures Matches(old(World(pc, original)), L.StartUndo(0, id, existed, rollback), calls, key, Failed,
        World(pc, original))
    {
      if !existed {
        controllers.Delete(key);
        assert controllers.Sets() == old(controllers.Sets());
      }
      if rollback {
        RollbackFinalizerOnStartFailure(pc, key, calls, original);
      }
    }

    method StopControllersForProviderConfig(pc: Unstructured, calls: Calls, ghost original: Object) returns (r: Outcome)
      requires Valid()
      modifies controllers, cluster
      ensures Valid()
      ensures Matches(old(World(pc, original)), L.StopEntry(0), calls, pc.content.name, r, World(pc, original))
    {
      if pc.content.gvk != PROVIDER_CONFIG_GVK {
        return Failed;
      }
      var key := pc.content.name;
      var panics := StopEntered(pc, key, calls, original);
      if panics {
        return Panicked;
      }
      r := RemoveFinalizer(pc, key, calls, original);
    }

    method StopEntered(pc: Unstructured, key: Key, calls: Calls, ghost original: Object) returns (panics: bool)
      requires Valid() && pc.content.gvk == PROVIDER_CONFIG_GVK
      modifies controllers, cluster
      ensures Valid()
      ensures AfterStop(old(World(pc, original)), L.StopEntry(0), calls, key, panics, World(pc, original))
    {
      ghost var t0 := World(pc, original);
      var cs, found := controllers.Get(key);
      panics := false;
      if found {
        ghost var id := controllers.index[key];
        Advance(finalizerName, t0, key, L.StopEntry(0), calls, L.StopDelete(0, id), t0);
        panics := DeleteAndClose(pc, key, cs, calls, id, original);
      } else {
        Advance(finalizerName, t0, key, L.StopEntry(0), calls, L.StopGet(0), t0);
      }
    }

    /** The machine's stop has come from stage `p` to the finalizer removal, or has panicked on the way. */
    ghost predicate AfterStop(before: L.World, p: L.Stage, calls: Calls, key: Key, panics: bool, after: L.World) {
      Complete(finalizerName, before, key, p, calls) ==
      if panics then (L.Finish(Some(0), false), after) else Complete(finalizerName, after, key, L.StopGet(0), calls)
    }

    method DeleteAndClose(pc: Unstructured, key: Key, cs: ControllerSet, calls: Calls, ghost id: SetId,
        ghost original: Object)
      returns (panics: bool)
      requires Valid() && key in controllers.data && controllers.data[key] == cs && controllers.index[key] == id
      modifies controllers, cluster
      ensures Valid()
      ensures AfterStop(old(World(pc, original)), L.StopDelete(0, id), calls, key, panics, World(pc, original))
    {
      ghost var t0 := World(pc, original);
      panics := false;
      controllers.Delete(key);
      ghost var t1 := World(pc, original);
      assert controllers.Sets() == old(controllers.Sets());
      Advance(finalizerName, t0, key, L.StopDelete(0, id), calls, L.StopClose(0, id), t1);
      if cs.stopCh.Some? {
        panics := cluster.Close(cs.stopCh.value);
      }
      ghost var t2 := World(pc, original);
      assert t2.reg.sets == t1.reg.sets;
      Advance(finalizerName, t1, key, L.StopClose(0, id), calls,
              if panics then L.Finish(Some(0), false) else L.StopGet(0), t2);
    }

    /**
     Fetches the latest object, which may have been changed since `pc` was cached, and drops the finalizer from it.
     */
    method RemoveFinalizer(pc: Unstructured, key: Key, calls: Calls, ghost original: Object) returns (r: Outcome)
      requires Valid()
      modifies cluster
      ensures Valid()
      ensures Matches(old(World(pc, original)), L.StopGet(0), calls, key, r, World(pc, original))
    {
      ghost var t0 := World(pc, original);
      match S.Fetch(cluster.server, key, calls.fetch)
      case NotFound => r := Done;
      case Unreachable => r := Failed;
      case Found(latest) =>
        var rest := Without(latest.finalizers, finalizerName);
        if |rest| == |latest.finalizers| {
          return Done;
        }
        Advance(finalizerName, t0, key, L.StopGet(0), calls, L.StopWrite(0, latest), t0);
        var ok := cluster.Update(latest.(finalizers := rest), calls.release);
        assert World(pc, original) == t0.(server := cluster.server);
        r := if ok then Done else Failed;
    }
  }
}
