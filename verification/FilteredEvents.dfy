/** The filtered event stream of a tenant, and the store it lets the tenant reconstruct. */
module FilteredEvents {
  import opened Domain
  import opened Filtering
  import C = FilteredCache

  /** What a tenant's handler is told. */
  datatype Notice = Add(o: Item) | Update(before: Item, after: Item) | Delete(o: Item)

  // ---- client-go's filtering handler around the informer's filter function ----

  predicate FilterFunc(f: Filter, stopped: bool, item: Item) {
    !stopped && Matches(f, item)
  }

  /** An update is filtered twice, the new object first; the stop flag may be raised in between. */
  function OnUpdateNotices(newer: bool, older: bool, before: Item, after: Item): seq<Notice> {
    if newer && older then [Update(before, after)]
    else if newer then [Add(after)]
    else if older then [Delete(before)]
    else []
  }

  class ProviderConfigFilteredInformer {
    const indexer: C.Indexer
    const f: Filter
    var stopped: bool
    /** What the handler behind the filter has been told so far. */
    var delivered: seq<Notice>

    constructor (indexer: C.Indexer, f: Filter)
      ensures this.indexer == indexer && this.f == f && !stopped && delivered == []
    {
      this.indexer, this.f, stopped, delivered := indexer, f, false, [];
    }

    /** Wraps a shared informer. Its indexer gains the label index, unless it has an index of that name already. */
    static method NewFilteredInformer(indexer: C.Indexer, f: Filter) returns (inf: ProviderConfigFilteredInformer)
      modifies indexer`indexers
      ensures fresh(inf) && inf.indexer == indexer && inf.f == f && !inf.stopped && inf.delivered == []
      ensures f.key in old(indexer.indexers) ==> indexer.indexers == old(indexer.indexers)
      ensures f.key !in old(indexer.indexers) ==>
                C.Installed(indexer.indexers, f.key) && indexer.indexers - {f.key} == old(indexer.indexers)
    {
      if f.key !in indexer.indexers {
        indexer.indexers := indexer.indexers[f.key := item => LabelIndex(f.key, item)];
      }
      inf := new ProviderConfigFilteredInformer(indexer, f);
    }

    /** GetStore and GetIndexer are the same filtered cache over the shared indexer. */
    method GetIndexer() returns (cache: C.ProviderConfigFilteredCache)
      ensures fresh(cache) && cache.indexer == indexer && cache.f == f
    {
      cache := new C.ProviderConfigFilteredCache(indexer, f);
    }

    /** A handler that is added hears of everything that is stored already, in the order of a map iteration. */
    method AddEventHandler() returns (ghost ks: seq<Key>)
      modifies this`delivered
      ensures Enumerates(ks, indexer.items.Keys)
      ensures Model() == old(Model()).(delivered := old(delivered) + Adds(f, stopped, indexer.items, ks))
      ensures old(delivered) == [] && !stopped ==> Model() == Joined(f, indexer.items, ks)
    {
      ks := [];
      var rest := indexer.items.Keys;
      while rest != {}
        invariant rest <= indexer.items.Keys && Enumerates(ks, indexer.items.Keys - rest)
        invariant delivered == old(delivered) + Adds(f, stopped, indexer.items, ks)
        decreases rest
      {
        var k :| k in rest;
        assert k !in ks;
        AddsOneMore(f, stopped, indexer.items, ks, k);
        OnAdd(indexer.items[k]);
        ks, rest := ks + [k], rest - {k};
      }
      assert indexer.items.Keys - rest == indexer.items.Keys;
    }

    method OnAdd(o: Item)
      modifies this`delivered
      ensures delivered == old(delivered) + (if FilterFunc(f, stopped, o) then [Add(o)] else [])
    {
      if !stopped && Matches(f, o) {
        delivered := delivered + [Add(o)];
      }
    }

    /** The filter is evaluated twice, the new object first; `torn` says that a cleanup comes in between. */
    method OnUpdate(before: Item, after: Item, torn: bool)
      modifies this`delivered, this`stopped
      ensures stopped == (old(stopped) || torn)
      ensures delivered == old(delivered) +
                OnUpdateNotices(FilterFunc(f, old(stopped), after), FilterFunc(f, stopped, before), before, after)
    {
      var newer := !stopped && Matches(f, after);
      if torn {
        Cleanup();
      }
      var older := !stopped && Matches(f, before);
      if newer && older {
        delivered := delivered + [Update(before, after)];
      } else if newer {
        delivered := delivered + [Add(after)];
      } else if older {
        delivered := delivered + [Delete(before)];
      }
    }

    method OnDelete(o: Item)
      modifies this`delivered
      ensures delivered == old(delivered) + (if FilterFunc(f, stopped, o) then [Delete(o)] else [])
    {
      if !stopped && Matches(f, o) {
        delivered := delivered + [Delete(o)];
      }
    }

    /** Cleanup and RemoveEventHandlers: the handlers stay registered, and nothing passes the filter any more. */
    method Cleanup()
      modifies this`stopped
      ensures stopped && Model() == Step(f, old(Model()), Change.Cleanup)
    {
      stopped := true;
    }

    // What the shared informer does: it changes its store, and then calls the handler behind the filter.

    ghost function Model(): State
      reads this, indexer
    {
      State(indexer.items, stopped, delivered)
    }

    method StorePut(o: Item, torn: bool)
      modifies indexer`items, this`delivered, this`stopped
      ensures Model() == Step(f, old(Model()), if torn then TornPut(o) else Put(o))
    {
      if !o.Resource? {
        return;
      }
      var items := indexer.items;
      indexer.items := items[o.key := o];
      if o.key in items {
        OnUpdate(items[o.key], o, torn);
      } else {
        OnAdd(o);
        if torn {
          Cleanup();
        }
      }
    }

    method StoreRemove(final: Item)
      modifies indexer`items, this`delivered
      ensures Model() == Step(f, old(Model()), Remove(final))
    {
      var o := Opened(final);
      if !o.Resource? {
        return;
      }
      indexer.items := indexer.items - {o.key};
      OnDelete(final);
    }

    method StoreResync(k: Key)
      modifies this`delivered, this`stopped
      ensures Model() == Step(f, old(Model()), Resync(k))
    {
      if k in indexer.items {
        OnUpdate(indexer.items[k], indexer.items[k], false);
      }
    }
  }

  // ---- runs ----

  /**
   A change of the informer's store, or the tenant's cleanup. `Put` adds or replaces an object, `Remove` takes one out
   and carries its final state, possibly as a tombstone, and `TornPut` is a Put during which the cleanup raises the
   flag between the two evaluations of the filter.
   */
  datatype Change = Put(o: Item) | Remove(final: Item) | Resync(k: Key) | Cleanup | TornPut(o: Item)

  datatype State = State(store: map<Key, Item>, stopped: bool, delivered: seq<Notice>)

  function PutNotices(f: Filter, store: map<Key, Item>, o: Item, stopped: bool, torn: bool): seq<Notice>
    requires o.Resource?
  {
    if o.key in store then
      OnUpdateNotices(FilterFunc(f, stopped, o), FilterFunc(f, stopped || torn, store[o.key]), store[o.key], o)
    else if FilterFunc(f, stopped, o) then [Add(o)]
    else []
  }

  function Step(f: Filter, s: State, c: Change): State {
    match c
    case Put(o) =>
      if !o.Resource? then s
      else State(s.store[o.key := o], s.stopped, s.delivered + PutNotices(f, s.store, o, s.stopped, false))
    case TornPut(o) =>
      if !o.Resource? then s
      else State(s.store[o.key := o], true, s.delivered + PutNotices(f, s.store, o, s.stopped, true))
    case Remove(final) =>
      var o := Opened(final);
      if !o.Resource? then s
      else
        var notices := if FilterFunc(f, s.stopped, final) then [Delete(final)] else [];
        State(s.store - {o.key}, s.stopped, s.delivered + notices)
    case Resync(k) =>
      if k !in s.store then s
      else
        var o, passes := s.store[k], FilterFunc(f, s.stopped, s.store[k]);
        s.(delivered := s.delivered + OnUpdateNotices(passes, passes, o, o))
    case Cleanup => s.(stopped := true)
  }

  /** The notices a handler gets for what the store holds when it is added, in the order of a map iteration. */
  function Adds(f: Filter, stopped: bool, store: map<Key, Item>, ks: seq<Key>): seq<Notice> {
    if ks == [] then []
    else
      var n := |ks| - 1;
      Adds(f, stopped, store, ks[..n]) + if ks[n] in store && FilterFunc(f, stopped, store[ks[n]])
          then [Add(store[ks[n]])] else []
  }

  /** A tenant's handler joins a shared informer that has filled `store` already. */
  function Joined(f: Filter, store: map<Key, Item>, ks: seq<Key>): State {
    State(store, false, Adds(f, false, store, ks))
  }

  function Exec(f: Filter, start: State, run: seq<Change>): State
    decreases |run|
  {
    if run == [] then start else Step(f, Exec(f, start, run[..|run| - 1]), run[|run| - 1])
  }

  // ---- what the tenant makes of its notices ----

  function Told(m: map<Key, Item>, n: Notice): map<Key, Item> {
    match n
    case Add(o) => if o.Resource? then m[o.key := o] else m
    case Update(_, o) => if o.Resource? then m[o.key := o] else m
    case Delete(o) => if Opened(o).Resource? then m - {Opened(o).key} else m
  }

  function Replayed(notices: seq<Notice>): map<Key, Item> {
    if notices == [] then map[] else Told(Replayed(notices[..|notices| - 1]), notices[|notices| - 1])
  }

  lemma ReplayedOneMore(notices: seq<Notice>, more: seq<Notice>)
    requires |more| <= 1
    ensures Replayed(notices + more) == if more == [] then Replayed(notices) else Told(Replayed(notices), more[0])
  {
    if more == [] {
      assert notices + more == notices;
    } else {
      assert (notices + more)[..|notices|] == notices;
    }
  }

  /**
   The deletion of an object the tenant sees passes the tenant's filter. A tombstone holds what was stored, and does.
   */
  predicate Faithful(f: Filter, s: State, c: Change) {
    (c.Remove? && Opened(c.final).Resource? && Opened(c.final).key in s.store &&
        Matches(f, s.store[Opened(c.final).key])) ==>
      Matches(f, c.final)
  }

  /** Every deletion reports the state that was stored, as such or in a tombstone. */
  ghost predicate ReportsStored(f: Filter, start: State, run: seq<Change>)
    decreases |run|
  {
    run == [] ||
    (ReportsStored(f, start, run[..|run| - 1]) &&
     var store, c := Exec(f, start, run[..|run| - 1]).store, run[|run| - 1];
     c.Remove? && Opened(c.final).Resource? && Opened(c.final).key in store ==>
         Opened(c.final) == store[Opened(c.final).key])
  }

  lemma {:induction false} ReportsStoredIsFaithful(f: Filter, start: State, run: seq<Change>)
    requires StoreOk(start.store) && ReportsStored(f, start, run)
    ensures AlwaysFaithful(f, start, run)
    decreases |run|
  {
    if run != [] {
      ReportsStoredIsFaithful(f, start, run[..|run| - 1]);
      StoreStaysOk(f, start, run[..|run| - 1]);
    }
  }

  lemma ViewPut(f: Filter, store: map<Key, Item>, o: Item)
    requires o.Resource?
    ensures View(store[o.key := o], f) == if Matches(f, o) then View(store, f)[o.key := o] else View(store, f) - {o.key}
  {
    var m := if Matches(f, o) then View(store, f)[o.key := o] else View(store, f) - {o.key};
    var v := View(store[o.key := o], f);
    assert forall k :: k in v <==> k in m;
    assert forall k :: k in v ==> v[k] == m[k];
  }

  lemma ViewRemove(f: Filter, store: map<Key, Item>, k: Key)
    ensures View(store - {k}, f) == View(store, f) - {k}
  {
    assert forall x :: x in View(store - {k}, f) <==> x in View(store, f) - {k};
  }

  lemma PutReconstructs(f: Filter, s: State, o: Item)
    requires StoreOk(s.store) && o.Resource? && Replayed(s.delivered) == View(s.store, f)
    ensures Replayed(s.delivered + PutNotices(f, s.store, o, false, false)) == View(s.store[o.key := o], f)
  {
    var notices := PutNotices(f, s.store, o, false, false);
    ReplayedOneMore(s.delivered, notices);
    ViewPut(f, s.store, o);
    if notices == [] {
      assert o.key !in View(s.store, f);
      assert View(s.store, f) - {o.key} == View(s.store, f);
    }
  }

  lemma MinusKeepsIffAbsent(m: map<Key, Item>, k: Key)
    ensures m - {k} == m <==> k !in m
  {
    if k in m {
      assert k !in m - {k};
    } else {
      assert m - {k} == m;
    }
  }

  lemma RemovedReconstructs(f: Filter, s: State, final: Item)
    requires !s.stopped && Opened(final).Resource? && Matches(f, final) && Replayed(s.delivered) == View(s.store, f)
    ensures var t := Step(f, s, Remove(final)); Replayed(t.delivered) == View(t.store, f)
  {
    ViewRemove(f, s.store, Opened(final).key);
    ReplayedOneMore(s.delivered, [Delete(final)]);
  }

  lemma RemoveReconstructs(f: Filter, s: State, final: Item)
    requires StoreOk(s.store) && !s.stopped && Opened(final).Resource? && Replayed(s.delivered) == View(s.store, f)
    ensures var t := Step(f, s, Remove(final));
            Replayed(t.delivered) == View(t.store, f) <==> Faithful(f, s, Remove(final))
  {
    if Matches(f, final) {
      RemovedReconstructs(f, s, final);
    } else {
      var k := Opened(final).key;
      var t := Step(f, s, Remove(final));
      ViewRemove(f, s.store, k);
      assert t.delivered == s.delivered && View(t.store, f) == View(s.store, f) - {k};
      MinusKeepsIffAbsent(View(s.store, f), k);
      assert k in View(s.store, f) <==> !Faithful(f, s, Remove(final));
    }
  }

  lemma ResyncReconstructs(f: Filter, s: State, k: Key)
    requires StoreOk(s.store) && k in s.store && Replayed(s.delivered) == View(s.store, f)
    ensures Replayed(s.delivered +
      OnUpdateNotices(Matches(f, s.store[k]), Matches(f, s.store[k]), s.store[k], s.store[k])) ==
            View(s.store, f)
  {
    ReplayedOneMore(s.delivered, OnUpdateNotices(Matches(f, s.store[k]), Matches(f, s.store[k]), s.store[k],
        s.store[k]));
  }

  /** One change keeps the tenant's picture right if and only if it is faithful. */
  lemma StepReconstructs(f: Filter, s: State, c: Change)
    requires StoreOk(s.store) && !s.stopped && !c.TornPut? && Replayed(s.delivered) == View(s.store, f)
    ensures var t := Step(f, s, c); Replayed(t.delivered) == View(t.store, f) <==> Faithful(f, s, c)
  {
    match c
    case Put(o) => if o.Resource? { PutReconstructs(f, s, o); }
    case Remove(final) => if Opened(final).Resource? { RemoveReconstructs(f, s, final); }
    case Resync(k) => if k in s.store { ResyncReconstructs(f, s, k); }
    case Cleanup =>
  }

  /** The tenant's picture is right at every moment of the run, the last one included. */
  ghost predicate AlwaysRight(f: Filter, start: State, run: seq<Change>)
    decreases |run|
  {
    && Replayed(Exec(f, start, run).delivered) == View(Exec(f, start, run).store, f)
    && (run == [] || AlwaysRight(f, start, run[..|run| - 1]))
  }

  ghost predicate AlwaysFaithful(f: Filter, start: State, run: seq<Change>)
    decreases |run|
  {
    run == [] || (AlwaysFaithful(f, start, run[..|run| - 1]) &&
        Faithful(f, Exec(f, start, run[..|run| - 1]), run[|run| - 1]))
  }

  ghost predicate Running(run: seq<Change>) {
    forall i :: 0 <= i < |run| ==> !run[i].Cleanup? && !run[i].TornPut?
  }

  lemma {:induction false} StoreStaysOk(f: Filter, start: State, run: seq<Change>)
    requires StoreOk(start.store)
    ensures StoreOk(Exec(f, start, run).store)
    decreases |run|
  {
    if run != [] {
      StoreStaysOk(f, start, run[..|run| - 1]);
    }
  }

  lemma {:induction false} RunningNotStopped(f: Filter, start: State, run: seq<Change>)
    requires Running(run) && !start.stopped
    ensures !Exec(f, start, run).stopped
    decreases |run|
  {
    if run != [] {
      RunningNotStopped(f, start, run[..|run| - 1]);
    }
  }

  /** From a right picture on, the picture stays right as long as the changes are faithful, and no longer. */
  lemma {:induction false} StaysRightIffFaithful(f: Filter, start: State, run: seq<Change>)
    requires StoreOk(start.store) && !start.stopped && Running(run)
    requires Replayed(start.delivered) == View(start.store, f)
    ensures AlwaysRight(f, start, run) <==> AlwaysFaithful(f, start, run)
    decreases |run|
  {
    if run != [] {
      var before := run[..|run| - 1];
      StaysRightIffFaithful(f, start, before);
      StoreStaysOk(f, start, before);
      RunningNotStopped(f, start, before);
      var s := Exec(f, start, before);
      if Replayed(s.delivered) == View(s.store, f) {
        StepReconstructs(f, s, run[|run| - 1]);
      }
    }
  }

  // ---- joining ----

  ghost function ViewOf(store: map<Key, Item>, f: Filter, keys: set<Key>): map<Key, Item> {
    map k | k in View(store, f) && k in keys :: store[k]
  }

  lemma AddsOneMore(f: Filter, stopped: bool, store: map<Key, Item>, ks: seq<Key>, k: Key)
    requires k in store
    ensures Adds(f, stopped, store, ks + [k]) ==
            Adds(f, stopped, store, ks) + if FilterFunc(f, stopped, store[k]) then [Add(store[k])] else []
  {
    assert (ks + [k])[..|ks|] == ks;
  }

  ghost function Elements(ks: seq<Key>): set<Key> {
    set k | k in ks
  }

  lemma ViewOfOneMore(store: map<Key, Item>, f: Filter, keys: set<Key>, k: Key)
    requires k in store
    ensures ViewOf(store, f, keys + {k}) ==
            if Matches(f, store[k]) then ViewOf(store, f, keys)[k := store[k]] else ViewOf(store, f, keys)
  {
    var v := ViewOf(store, f, keys + {k});
    var m := if Matches(f, store[k]) then ViewOf(store, f, keys)[k := store[k]] else ViewOf(store, f, keys);
    assert forall x :: x in v <==> x in m;
    assert forall x :: x in v ==> v[x] == m[x];
  }

  /** Whatever the order, the notices on joining add up to the part of the view they are about. */
  lemma {:induction false} AddsReconstruct(f: Filter, store: map<Key, Item>, ks: seq<Key>)
    requires StoreOk(store) && forall k :: k in ks ==> k in store
    ensures Replayed(Adds(f, false, store, ks)) == ViewOf(store, f, Elements(ks))
    decreases |ks|
  {
    if ks != [] {
      var before, k := ks[..|ks| - 1], ks[|ks| - 1];
      AddsReconstruct(f, store, before);
      assert Elements(ks) == Elements(before) + {k} by {
        assert ks == before + [k];
      }
      ViewOfOneMore(store, f, Elements(before), k);
      var more := if FilterFunc(f, false, store[k]) then [Add(store[k])] else [];
      ReplayedOneMore(Adds(f, false, store, before), more);
    }
  }

  lemma JoinedIsRight(f: Filter, store: map<Key, Item>, ks: seq<Key>)
    requires StoreOk(store) && Enumerates(ks, store.Keys)
    ensures Replayed(Joined(f, store, ks).delivered) == View(store, f)
  {
    AddsReconstruct(f, store, ks);
    assert ViewOf(store, f, Elements(ks)) == View(store, f);
  }

  // ---- which notices a tenant gets ----

  /** What a change of one object means to somebody who sees the view only. */
  function Transition(before: map<Key, Item>, after: map<Key, Item>, k: Key): seq<Notice> {
    if k in before && k in after then [Update(before[k], after[k])]
    else if k in after then [Add(after[k])]
    else if k in before then [Delete(before[k])]
    else []
  }

  /**
   An object that is stored is announced as what happens to it in the tenant's view, whether or not it has changed.
   */
  lemma PutTells(f: Filter, s: State, o: Item)
    requires StoreOk(s.store) && !s.stopped && o.Resource?
    ensures var t := Step(f, s, Put(o));
            t.delivered == s.delivered + Transition(View(s.store, f), View(t.store, f), o.key)
  {
  }

  lemma ResyncTells(f: Filter, s: State, k: Key)
    requires StoreOk(s.store) && !s.stopped
    ensures var t := Step(f, s, Resync(k));
            t.store == s.store && t.delivered == s.delivered + Transition(View(s.store, f), View(s.store, f), k)
  {
    if k !in s.store {
      assert s.delivered + [] == s.delivered;
    }
  }

  /** A deletion that reports the stored state is told exactly to the tenants that see the object. */
  lemma RemoveTells(f: Filter, s: State, o: Item)
    requires StoreOk(s.store) && !s.stopped && o.Resource? && o.key in s.store && s.store[o.key] == o
    ensures var t := Step(f, s, Remove(o));
            t.delivered == s.delivered + Transition(View(s.store, f), View(t.store, f), o.key)
  {
  }

  /** A tombstone is as good as the object in it: the object leaves the store, and the tenant is told the same. */
  lemma TombstoneRemoves(f: Filter, s: State, o: Item)
    requires o.Resource?
    ensures var t, u := Step(f, s, Remove(o)), Step(f, s, Remove(DeletedFinalStateUnknown(o)));
            && t.store == u.store == s.store - {o.key} && t.stopped == u.stopped == s.stopped
            && |t.delivered| == |u.delivered| && Replayed(t.delivered) == Replayed(u.delivered)
            && (Matches(f, o) && !s.stopped ==>
                  t.delivered == s.delivered + [Delete(o)] && o.key !in Replayed(u.delivered))
  {
    if Matches(f, o) && !s.stopped {
      ReplayedOneMore(s.delivered, [Delete(o)]);
      ReplayedOneMore(s.delivered, [Delete(DeletedFinalStateUnknown(o))]);
    }
  }

  /**
   A notice fits what the tenant has made of the ones before it: only an unknown object is added, an update starts from
   the state that is known, and, if deletions are `exact`, only a known object is deleted, in the state that is known.
   */
  ghost predicate Fits(n: Notice, m: map<Key, Item>, exact: bool) {
    match n
    case Add(o) => o.Resource? && o.key !in m
    case Update(b, a) => b.Resource? && a.Resource? && a.key == b.key && b.key in m && m[b.key] == b
    case Delete(DeletedFinalStateUnknown(o)) => exact ==> o.Resource? && o.key in m && m[o.key] == o
    case Delete(o) => exact ==> o.Resource? && o.key in m && m[o.key] == o
  }

  ghost predicate WellTold(notices: seq<Notice>, exact: bool) {
    notices == [] ||
    (var n := |notices| - 1;
     WellTold(notices[..n], exact) && Fits(notices[n], Replayed(notices[..n]), exact))
  }

  lemma TellOneMore(notices: seq<Notice>, more: seq<Notice>, exact: bool)
    requires WellTold(notices, exact) && |more| <= 1
    requires more != [] ==> Fits(more[0], Replayed(notices), exact)
    ensures WellTold(notices + more, exact)
  {
    if more == [] {
      assert notices + more == notices;
    } else {
      assert (notices + more)[..|notices|] == notices;
    }
  }

  /** Every deletion is of a stored object and reports its stored state. */
  ghost predicate Exact(s: State, c: Change) {
    c.Remove? ==>
      var o := if c.final.DeletedFinalStateUnknown? then c.final.last else c.final;
      o.Resource? && o.key in s.store && s.store[o.key] == o
  }

  ghost predicate AlwaysExact(f: Filter, start: State, run: seq<Change>)
    decreases |run|
  {
    run == [] || (AlwaysExact(f, start, run[..|run| - 1]) && Exact(Exec(f, start, run[..|run| - 1]), run[|run| - 1]))
  }

  lemma StepTellsWell(f: Filter, s: State, c: Change, exact: bool)
    requires StoreOk(s.store) && !s.stopped && !c.TornPut? && Replayed(s.delivered) == View(s.store, f)
    requires WellTold(s.delivered, exact) && (exact ==> Exact(s, c))
    ensures WellTold(Step(f, s, c).delivered, exact)
  {
    match c
    case Put(o) =>
      if o.Resource? {
        PutTells(f, s, o);
        TellOneMore(s.delivered, Transition(View(s.store, f), View(s.store[o.key := o], f), o.key), exact);
      }
    case Resync(k) =>
      ResyncTells(f, s, k);
      TellOneMore(s.delivered, Transition(View(s.store, f), View(s.store, f), k), exact);
    case Remove(final) => TellOneMore(s.delivered, if FilterFunc(f, false, final) then [Delete(final)] else [], exact);
    case Cleanup =>
  }

  lemma {:induction false} AddsTellWell(f: Filter, store: map<Key, Item>, ks: seq<Key>, exact: bool)
    requires StoreOk(store) && Distinct(ks) && forall k :: k in ks ==> k in store
    ensures WellTold(Adds(f, false, store, ks), exact)
    decreases |ks|
  {
    if ks != [] {
      var n := |ks| - 1;
      AddsTellWell(f, store, ks[..n], exact);
      AddsReconstruct(f, store, ks[..n]);
      var more := if FilterFunc(f, false, store[ks[n]]) then [Add(store[ks[n]])] else [];
      assert ks[n] !in ks[..n];
      TellOneMore(Adds(f, false, store, ks[..n]), more, exact);
    }
  }

  lemma {:induction false} RunTellsWell(f: Filter, start: State, run: seq<Change>, exact: bool)
    requires StoreOk(start.store) && !start.stopped && Running(run)
    requires Replayed(start.delivered) == View(start.store, f) && WellTold(start.delivered, exact)
    requires AlwaysFaithful(f, start, run) && (exact ==> AlwaysExact(f, start, run))
    ensures WellTold(Exec(f, start, run).delivered, exact)
    decreases |run|
  {
    if run != [] {
      var before := run[..|run| - 1];
      RunTellsWell(f, start, before, exact);
      StaysRightIffFaithful(f, start, before);
      StoreStaysOk(f, start, before);
      RunningNotStopped(f, start, before);
      StepTellsWell(f, Exec(f, start, before), run[|run| - 1], exact);
    }
  }

  // ---- theorems about every run, from the moment the tenant joins ----

  /**
   From joining until the cleanup, in every run with faithful deletions, a tenant is told to add only what it does not
   know and to update only from the state it knows; if deletions report stored objects as they are stored, it is also
   told to delete only what it knows, in the state it knows.
   */
  lemma StreamFits(f: Filter, store: map<Key, Item>, ks: seq<Key>, run: seq<Change>, exact: bool)
    requires StoreOk(store) && Enumerates(ks, store.Keys) && Running(run)
    requires AlwaysFaithful(f, Joined(f, store, ks), run)
    requires exact ==> AlwaysExact(f, Joined(f, store, ks), run)
    ensures WellTold(Exec(f, Joined(f, store, ks), run).delivered, exact)
  {
    JoinedIsRight(f, store, ks);
    AddsTellWell(f, store, ks, exact);
    RunTellsWell(f, Joined(f, store, ks), run, exact);
  }

  /**
   A tenant joins an informer that holds any store. Until the cleanup, whatever happens to the objects and their labels,
   replaying the notices yields exactly the filtered store at every moment, if and only if every deletion of a visible
   object was reported in a state that passes the filter.
   */
  lemma ReconstructsIffFaithful(f: Filter, store: map<Key, Item>, ks: seq<Key>, run: seq<Change>)
    requires StoreOk(store) && Enumerates(ks, store.Keys) && Running(run)
    ensures AlwaysRight(f, Joined(f, store, ks), run) <==> AlwaysFaithful(f, Joined(f, store, ks), run)
  {
    JoinedIsRight(f, store, ks);
    StaysRightIffFaithful(f, Joined(f, store, ks), run);
  }

  /** In particular a tenant is always right, until the cleanup, if deletions report what was stored. */
  lemma StoredStateSuffices(f: Filter, store: map<Key, Item>, ks: seq<Key>, run: seq<Change>)
    requires StoreOk(store) && Enumerates(ks, store.Keys) && Running(run)
    requires ReportsStored(f, Joined(f, store, ks), run)
    ensures AlwaysRight(f, Joined(f, store, ks), run)
  {
    ReportsStoredIsFaithful(f, Joined(f, store, ks), run);
    ReconstructsIffFaithful(f, store, ks, run);
  }

  /** A deletion that reports another label than the one last delivered: the tenant keeps an object that is gone. */
  lemma UnfaithfulDeletion(f: Filter, k: Key, other: string)
    requires other != f.value
    ensures var s := Exec(f, Joined(f, map[k := Resource(k, map[f.key := f.value], 0)], [k]),
                          [Remove(Resource(k, map[f.key := other], 1))]);
            s.store == map[] && k in Replayed(s.delivered)
  {
    var o, final := Resource(k, map[f.key := f.value], 0), Resource(k, map[f.key := other], 1);
    var start := Joined(f, map[k := o], [k]);
    JoinedIsRight(f, map[k := o], [k]);
    assert [Remove(final)][..0] == [];
    assert Exec(f, start, [Remove(final)]) == Step(f, start, Remove(final));
    assert k in View(map[k := o], f);
  }

  /** After the cleanup nothing is delivered any more. */
  lemma {:induction false} Frozen(f: Filter, start: State, run: seq<Change>, more: seq<Change>)
    requires Exec(f, start, run).stopped
    ensures Exec(f, start, run + more).stopped && Exec(f, start, run + more).delivered == Exec(f, start, run).delivered
    decreases |more|
  {
    if more == [] {
      assert run + more == run;
    } else {
      Frozen(f, start, run, more[..|more| - 1]);
      assert (run + more)[..|run + more| - 1] == run + more[..|more| - 1];
    }
  }

  lemma TornReplay(f: Filter, s: State, o: Item)
    requires StoreOk(s.store) && !s.stopped && o.Resource? && Replayed(s.delivered) == View(s.store, f)
    ensures var last := Replayed(Step(f, s, TornPut(o)).delivered);
            last == View(s.store, f) || last == View(s.store[o.key := o], f)
  {
    ReplayedOneMore(s.delivered, PutNotices(f, s.store, o, false, true));
    ViewPut(f, s.store, o);
  }

  /**
   A cleanup in the middle of an update leaves the tenant with the filtered store as it was either before or after that
   update, and then for ever.
   */
  lemma TornUpdateIsBeforeOrAfter(f: Filter, store: map<Key, Item>, ks: seq<Key>, run: seq<Change>, o: Item,
      more: seq<Change>)
    requires StoreOk(store) && Enumerates(ks, store.Keys) && o.Resource?
    requires Running(run) && AlwaysFaithful(f, Joined(f, store, ks), run)
    ensures var start := Joined(f, store, ks);
            var last := Replayed(Exec(f, start, run + [TornPut(o)] + more).delivered);
            var now := Exec(f, start, run).store;
            last == View(now, f) || last == View(now[o.key := o], f)
  {
    var start := Joined(f, store, ks);
    ReconstructsIffFaithful(f, store, ks, run);
    StoreStaysOk(f, start, run);
    RunningNotStopped(f, start, run);
    TornReplay(f, Exec(f, start, run), o);
    var torn := run + [TornPut(o)];
    assert torn[..|torn| - 1] == run;
    Frozen(f, start, torn, more);
  }
}
