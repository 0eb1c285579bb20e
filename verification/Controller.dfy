/**
 The sync of one key, as the worker loop calls it: look the key up, dispatch on the deletion mark, turn panics into
 errors.
*/
module Controller {
  import opened Domain
  import opened Solo
  import opened Manager
  import L = Lifecycle

  /** What the indexer holds under a key: a ProviderConfig, or an object of another type. */
  datatype Item = Config(pc: Unstructured) | Other

  class Controller {
    const manager: Manager
    var lister: map<Key, Item>

    constructor (manager: Manager)
      ensures this.manager == manager && lister == map[]
    {
      this.manager, lister := manager, map[];
    }

    ghost predicate Valid()
      reads this, manager.controllers
    {
      manager.Valid()
    }

    /** The objects a sync of `key` may change in memory. */
    ghost function Reach(key: Key): set<object>
      reads this
    {
      if key in lister && lister[key].Config? then {lister[key].pc} else {}
    }

    /** The part of the step machine's state that a sync of `key` can see. */
    ghost function View(key: Key, original: Object): L.World
      reads this, Reach(key), manager.controllers, manager.controllers.made, manager.cluster
      requires Valid()
    {
      L.World(manager.Registry(),
              if key !in lister then L.Informer([], map[], multiset{})
              else match lister[key]
                case Other => L.Informer([], map[key := L.Alien], multiset{})
                case Config(pc) => L.Informer([L.Snapshot(pc.content, original)], map[key := L.ProviderConfig(0)],
                  multiset{}),
              manager.cluster.server)
    }

    /** Level triggered: the key says which object to look at, and the object says what to do. */
    method Sync(key: Key, lookupFails: bool, calls: Calls, ghost original: Object)
        returns (r: Outcome, ghost seen: Option<ObjId>)
      requires Valid()
      modifies manager.controllers, manager.controllers.made, manager.cluster, Reach(key)
      ensures Valid()
      ensures lookupFails ==> r == Failed && View(key, original) == old(View(key, original))
      ensures !lookupFails ==>
                Complete(manager.finalizerName, old(View(key, original)), key, L.Lookup, calls) ==
                (L.Finish(seen, r == Done), View(key, original))
    {
      seen := None;
      if lookupFails {
        return Failed, None;
      }
      if key !in lister {
        return Done, None;
      }
      match lister[key]
      case Other =>
        return Failed, None;
      case Config(pc) =>
        if pc.content.name != key {
          return Failed, None;
        }
        ghost var t0 := View(key, original);
        assert t0 == manager.World(pc, original);
        seen := Some(0);
        if pc.content.terminating {
          Advance(manager.finalizerName, t0, key, L.Lookup, calls, L.StopEntry(0), t0);
          r := manager.StopControllersForProviderConfig(pc, calls, original);
        } else {
          Advance(manager.finalizerName, t0, key, L.Lookup, calls, L.StartEntry(0), t0);
          r := manager.StartControllersForProviderConfig(pc, calls, original);
        }
    }

    /** A panic in a sync is an error like any other: the key is retried. */
    method SyncWrapper(key: Key, lookupFails: bool, calls: Calls, ghost original: Object)
        returns (err: bool, ghost seen: Option<ObjId>)
      requires Valid()
      modifies manager.controllers, manager.controllers.made, manager.cluster, Reach(key)
      ensures Valid()
      ensures lookupFails ==> err && View(key, original) == old(View(key, original))
      ensures !lookupFails ==>
                Complete(manager.finalizerName, old(View(key, original)), key, L.Lookup, calls) ==
                (L.Finish(seen, !err), View(key, original))
    {
      var r;
      r, seen := Sync(key, lookupFails, calls, original);
      err := r != Done;
    }
  }
}
