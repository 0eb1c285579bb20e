/** The filtered store: a fast path over the label index, and filters over everything else. */
module FilteredCache {
  import opened Domain
  import opened Filtering

  // ---- listings: sequences of stored objects, in an order nobody promises ----

  ghost function Values(store: map<Key, Item>, ks: seq<Key>): seq<Item>
    requires forall k :: k in ks ==> k in store
  {
    seq(|ks|, i requires 0 <= i < |ks| => store[ks[i]])
  }

  /** `items` are the objects stored under `keys`, each once, in the order `ks`. */
  ghost predicate Listing(items: seq<Item>, store: map<Key, Item>, keys: set<Key>, ks: seq<Key>) {
    keys <= store.Keys && Enumerates(ks, keys) && items == Values(store, ks)
  }

  /** `items` are the objects stored under `keys`, each once, in some order. */
  ghost predicate Lists(items: seq<Item>, store: map<Key, Item>, keys: set<Key>) {
    exists ks :: Listing(items, store, keys, ks)
  }

  lemma WithoutKey(ks: seq<Key>, keys: set<Key>, i: nat)
    requires Enumerates(ks, keys) && i < |ks|
    ensures Enumerates(ks[..i] + ks[i + 1..], keys - {ks[i]})
  {
    var rest := ks[..i] + ks[i + 1..];
    forall k ensures k in rest <==> k in keys - {ks[i]} {
      if k in keys && k != ks[i] {
        var j :| 0 <= j < |ks| && ks[j] == k;
        assert rest[if j < i then j else j - 1] == k;
      }
    }
  }

  lemma DropKey(items: seq<Item>, store: map<Key, Item>, keys: set<Key>, ks: seq<Key>, i: nat)
    requires Listing(items, store, keys, ks) && i < |ks|
    ensures Listing(items[..i] + items[i + 1..], store, keys - {ks[i]}, ks[..i] + ks[i + 1..])
    ensures multiset(items) == multiset(items[..i] + items[i + 1..]) + multiset{store[ks[i]]}
  {
    WithoutKey(ks, keys, i);
    assert items[..i] + items[i + 1..] == Values(store, ks[..i] + ks[i + 1..]);
    OneLess(items, i);
  }

  lemma OneLess(items: seq<Item>, i: nat)
    requires i < |items|
    ensures multiset(items) == multiset(items[..i] + items[i + 1..]) + multiset{items[i]}
  {
    assert items == items[..i] + [items[i]] + items[i + 1..];
  }

  lemma DropFirst(items: seq<Item>, store: map<Key, Item>, keys: set<Key>, ks: seq<Key>)
    requires Listing(items, store, keys, ks) && ks != []
    ensures Listing(items[1..], store, keys - {ks[0]}, ks[1..])
    ensures multiset(items) == multiset(items[1..]) + multiset{store[ks[0]]}
  {
    var first: nat :| first == 0;
    DropKey(items, store, keys, ks, first);
    WithoutFirst(items, first);
    WithoutFirst(ks, first);
  }

  lemma WithoutFirst<T>(s: seq<T>, i: nat)
    requires s != [] && i == 0
    ensures s[..i] + s[i + 1..] == s[1..]
  {
  }

  lemma {:induction false} EnumerationLength(ks: seq<Key>, keys: set<Key>)
    requires Enumerates(ks, keys)
    ensures |ks| == |keys|
    decreases |ks|
  {
    if ks == [] {
      assert keys == {};
    } else {
      var n := |ks| - 1;
      WithoutKey(ks, keys, n);
      assert ks[..n] + ks[n + 1..] == ks[..n];
      assert ks[n] in keys;
      EnumerationLength(ks[..n], keys - {ks[n]});
    }
  }

  lemma PlaceOf(k: Key, ka: seq<Key>, kb: seq<Key>, keys: set<Key>) returns (i: nat)
    requires Enumerates(ka, keys) && Enumerates(kb, keys) && k in ka
    ensures i < |kb| && kb[i] == k
  {
    assert k in kb;
    i :| i < |kb| && kb[i] == k;
  }

  /** All listings of the same keys hold the same objects, each equally often. */
  lemma {:induction false} SameListing(a: seq<Item>, b: seq<Item>, store: map<Key, Item>, keys: set<Key>, ka: seq<Key>,
      kb: seq<Key>)
    requires Listing(a, store, keys, ka) && Listing(b, store, keys, kb)
    ensures multiset(a) == multiset(b)
    decreases |ka|
  {
    EnumerationLength(ka, keys);
    EnumerationLength(kb, keys);
    if ka != [] {
      DropFirst(a, store, keys, ka);
      var i := PlaceOf(ka[0], ka, kb, keys);
      DropKey(b, store, keys, kb, i);
      var b' := b[..i] + b[i + 1..];
      SameListing(a[1..], b', store, keys - {ka[0]}, ka[1..], kb[..i] + kb[i + 1..]);
      calc {
        multiset(a);
        multiset(a[1..]) + multiset{store[ka[0]]};
        multiset(b') + multiset{store[kb[i]]};
        multiset(b);
      }
    }
  }

  /** The keys of `ks` whose objects match. */
  ghost function Kept(store: map<Key, Item>, ks: seq<Key>, f: Filter): seq<Key>
    requires forall k :: k in ks ==> k in store
  {
    if ks == [] then []
    else
      var k := ks[|ks| - 1];
      Kept(store, ks[..|ks| - 1], f) + (if Matches(f, store[k]) then [k] else [])
  }

  /** Filtering a listing gives a listing of the keys in the view. */
  lemma {:induction false} FilteredListing(items: seq<Item>, store: map<Key, Item>, keys: set<Key>, ks: seq<Key>,
      f: Filter)
    requires Listing(items, store, keys, ks)
    ensures Listing(Filtered(items, f), store, keys * Keys(store, f), Kept(store, ks, f))
    decreases |ks|
  {
    if ks != [] {
      var n := |ks| - 1;
      var k := ks[n];
      DropKey(items, store, keys, ks, n);
      assert items[..n] + items[n + 1..] == items[..n] && ks[..n] + ks[n + 1..] == ks[..n];
      FilteredListing(items[..n], store, keys - {k}, ks[..n], f);
      var before := Kept(store, ks[..n], f);
      assert k !in before;
      assert keys * Keys(store, f) == (keys - {k}) * Keys(store, f) + (if Matches(f, store[k]) then {k} else {});
      if Matches(f, store[k]) {
        assert Kept(store, ks, f) == before + [k];
        assert Filtered(items, f) == Values(store, before + [k]);
      }
    } else {
      assert keys * Keys(store, f) == {} by {
        assert forall x :: x in keys ==> x in ks;
      }
    }
  }

  // ---- the shared indexer, as a contract ----

  /** The values an object is filed under, or an error. */
  type IndexFunc = Item -> Option<seq<string>>

  predicate Files(index: IndexFunc, item: Item, value: string) {
    index(item).Some? && value in index(item).value
  }

  ghost function IndexedKeys(store: map<Key, Item>, index: IndexFunc, value: string): set<Key> {
    set k | k in store && Files(index, store[k], value)
  }

  /** The stored objects that share an index value with `item`. */
  ghost function SharedKeys(store: map<Key, Item>, index: IndexFunc, item: Item): set<Key> {
    set k | k in store && exists v :: Files(index, item, v) && Files(index, store[k], v)
  }

  /** client-go's thread-safe store. Its listings come in the order of a map iteration. */
  class Indexer {
    var items: map<Key, Item>
    var indexers: map<string, IndexFunc>

    constructor ()
      ensures items == map[] && indexers == map[]
    {
      items, indexers := map[], map[];
    }

    method Collect(keys: set<Key>) returns (list: seq<Item>, ghost ks: seq<Key>)
      requires keys <= items.Keys
      ensures Listing(list, items, keys, ks)
    {
      list, ks := [], [];
      var rest := keys;
      while rest != {}
        invariant rest <= keys && Listing(list, items, keys - rest, ks)
        decreases rest
      {
        var k :| k in rest;
        assert k !in ks;
        assert list + [items[k]] == Values(items, ks + [k]);
        list, ks, rest := list + [items[k]], ks + [k], rest - {k};
      }
      assert keys - rest == keys;
    }

    method List() returns (list: seq<Item>, ghost ks: seq<Key>)
      ensures Listing(list, items, items.Keys, ks)
    {
      list, ks := Collect(items.Keys);
    }

    method ByIndex(name: string, value: string) returns (list: seq<Item>, err: bool, ghost ks: seq<Key>)
      ensures err <==> name !in indexers
      ensures !err ==> Listing(list, items, IndexedKeys(items, indexers[name], value), ks)
    {
      if name !in indexers {
        return [], true, [];
      }
      var index := indexers[name];
      list, ks := Collect(set k | k in items && Files(index, items[k], value));
      err := false;
    }

    /** The index function may fail on `item`. */
    method Index(name: string, item: Item) returns (list: seq<Item>, err: bool, ghost ks: seq<Key>)
      ensures err <==> name !in indexers || indexers[name](item).None?
      ensures !err ==> Listing(list, items, SharedKeys(items, indexers[name], item), ks)
    {
      if name !in indexers || indexers[name](item).None? {
        return [], true, [];
      }
      var index := indexers[name];
      var values := index(item).value;
      var shared := set k | k in items && exists v :: v in values && Files(index, items[k], v);
      assert shared == SharedKeys(items, index, item);
      list, ks := Collect(shared);
      err := false;
    }
  }

  /** The index registered under the filter key is the label index. */
  ghost predicate Installed(indexers: map<string, IndexFunc>, labelKey: string) {
    labelKey in indexers && forall item :: indexers[labelKey](item) == LabelIndex(labelKey, item)
  }

  // ---- the filtered cache ----

  /** What List shows: what an index named like the filter key files under the value, or else the whole view. */
  ghost function Shown(store: map<Key, Item>, indexers: map<string, IndexFunc>, f: Filter): set<Key> {
    if f.key in indexers then IndexedKeys(store, indexers[f.key], f.value) else Keys(store, f)
  }

  /** The keys that the key function finds; it fails on an object without metadata. */
  function NamesOf(items: seq<Item>): seq<Key> {
    if items == [] then []
    else
      var item := items[|items| - 1];
      NamesOf(items[..|items| - 1]) + if item.Resource? then [item.key] else []
  }

  lemma {:induction false} NamesAreKeys(items: seq<Item>, store: map<Key, Item>, keys: set<Key>, ks: seq<Key>)
    requires Listing(items, store, keys, ks)
    requires forall k :: k in keys ==> store[k].Resource? && store[k].key == k
    ensures NamesOf(items) == ks
    decreases |ks|
  {
    if ks != [] {
      var n := |ks| - 1;
      assert ks[n] in keys;
      DropKey(items, store, keys, ks, n);
      assert items[..n] + items[n + 1..] == items[..n] && ks[..n] + ks[n + 1..] == ks[..n];
      NamesAreKeys(items[..n], store, keys - {ks[n]}, ks[..n]);
    }
  }

  class ProviderConfigFilteredCache {
    const indexer: Indexer
    const f: Filter

    constructor (indexer: Indexer, f: Filter)
      ensures this.indexer == indexer && this.f == f
    {
      this.indexer, this.f := indexer, f;
    }

    /** An index lookup is restricted to the view. */
    method ByIndex(name: string, value: string) returns (list: seq<Item>, err: bool, ghost ks: seq<Key>)
      ensures err <==> name !in indexer.indexers
      ensures !err ==> Listing(list, indexer.items,
        IndexedKeys(indexer.items, indexer.indexers[name], value) * Keys(indexer.items, f), ks)
      ensures !err ==> Lists(list, indexer.items,
        IndexedKeys(indexer.items, indexer.indexers[name], value) * Keys(indexer.items, f))
    {
      list, err, ks := indexer.ByIndex(name, value);
      if err {
        return [], true, [];
      }
      FilteredListing(list, indexer.items, IndexedKeys(indexer.items, indexer.indexers[name], value), ks, f);
      ks := Kept(indexer.items, ks, f);
      list := GetFilteredListByValue(list, f);
    }

    method Index(name: string, item: Item) returns (list: seq<Item>, err: bool, ghost ks: seq<Key>)
      ensures err <==> name !in indexer.indexers || indexer.indexers[name](item).None?
      ensures !err ==> Listing(list, indexer.items,
        SharedKeys(indexer.items, indexer.indexers[name], item) * Keys(indexer.items, f), ks)
      ensures !err ==> Lists(list, indexer.items,
        SharedKeys(indexer.items, indexer.indexers[name], item) * Keys(indexer.items, f))
    {
      list, err, ks := indexer.Index(name, item);
      if err {
        return [], true, [];
      }
      FilteredListing(list, indexer.items, SharedKeys(indexer.items, indexer.indexers[name], item), ks, f);
      ks := Kept(indexer.items, ks, f);
      list := GetFilteredListByValue(list, f);
    }

    method List() returns (list: seq<Item>, ghost ks: seq<Key>)
      ensures Listing(list, indexer.items, Shown(indexer.items, indexer.indexers, f), ks)
      ensures Lists(list, indexer.items, Shown(indexer.items, indexer.indexers, f))
    {
      var err;
      list, err, ks := indexer.ByIndex(f.key, f.value);
      if !err {
        return;
      }
      list, ks := indexer.List();
      FilteredListing(list, indexer.items, indexer.items.Keys, ks, f);
      assert indexer.items.Keys * Keys(indexer.items, f) == Keys(indexer.items, f);
      ks := Kept(indexer.items, ks, f);
      list := GetFilteredListByValue(list, f);
    }

    /** The names of what List shows; for a store in order and the label index, exactly its keys, each once. */
    method ListKeys() returns (keys: seq<Key>)
      ensures exists list ::
          Lists(list, indexer.items, Shown(indexer.items, indexer.indexers, f)) && keys == NamesOf(list)
      ensures StoreOk(indexer.items) && (f.key in indexer.indexers ==> Installed(indexer.indexers, f.key)) ==>
                Enumerates(keys, Shown(indexer.items, indexer.indexers, f))
    {
      var list;
      ghost var ks;
      list, ks := List();
      keys := [];
      for i := 0 to |list|
        invariant keys == NamesOf(list[..i])
      {
        assert list[..i + 1][..i] == list[..i];
        if list[i].Resource? {
          keys := keys + [list[i].key];
        }
      }
      assert list[..|list|] == list;
      if StoreOk(indexer.items) && (f.key in indexer.indexers ==> Installed(indexer.indexers, f.key)) {
        NamesAreKeys(list, indexer.items, Shown(indexer.items, indexer.indexers, f), ks);
      }
    }

    method GetByKey(key: Key) returns (item: Option<Item>, found: bool)
      ensures found <==> key in View(indexer.items, f)
      ensures item == if found then Some(View(indexer.items, f)[key]) else None
    {
      if key !in indexer.items {
        return None, false;
      }
      if Matches(f, indexer.items[key]) {
        return Some(indexer.items[key]), true;
      }
      return None, false;
    }

    /** Looks up the stored object with the key of `obj`; an object without a key is an error. */
    method Get(obj: Item) returns (item: Option<Item>, found: bool, err: bool)
      ensures err <==> !obj.Resource?
      ensures found <==> obj.Resource? && obj.key in View(indexer.items, f)
      ensures item == if found then Some(View(indexer.items, f)[obj.key]) else None
    {
      if !obj.Resource? {
        return None, false, true;
      }
      item, found := GetByKey(obj.key);
      err := false;
    }
  }

  // ---- the two paths of List ----

  /** With the label index, List leaves out exactly the unlabelled objects that the filter allows. */
  lemma IndexOmitsUnlabelled(store: map<Key, Item>, indexers: map<string, IndexFunc>, f: Filter)
    requires StoreOk(store) && Installed(indexers, f.key)
    ensures Shown(store, indexers, f) == Keys(store, f) - Unlabelled(store, f.key)
    ensures Shown(store, indexers, f) == Keys(store, f) <==> !f.allowMissing || Unlabelled(store, f.key) == {}
  {
    if k :| k in Unlabelled(store, f.key) {
      assert f.allowMissing ==> k in Keys(store, f);
    }
  }

  /**
   So both paths list the same objects, each equally often, if and only if no unlabelled object is allowed through.
   */
  lemma PathsAgree(store: map<Key, Item>, indexers: map<string, IndexFunc>, f: Filter,
                   fast: seq<Item>, slow: seq<Item>, kf: seq<Key>, ks: seq<Key>)
    requires StoreOk(store) && Installed(indexers, f.key)
    requires Listing(fast, store, Shown(store, indexers, f), kf) && Listing(slow, store, Shown(store, map[], f), ks)
    ensures multiset(fast) == multiset(slow) <==> !f.allowMissing || Unlabelled(store, f.key) == {}
  {
    IndexOmitsUnlabelled(store, indexers, f);
    if Shown(store, indexers, f) == Keys(store, f) {
      SameListing(fast, slow, store, Keys(store, f), kf, ks);
    } else {
      var k :| k in Unlabelled(store, f.key);
      assert k in Keys(store, f) && k in ks;
      var i :| 0 <= i < |ks| && ks[i] == k;
      assert slow[i] == store[k] && store[k] in multiset(slow);
      assert store[k] !in fast;
    }
  }

  /** One unlabelled object and a filter that allows it: without the index it is listed, with the index it is not. */
  lemma PathsDiffer(k: Key, labelKey: string, value: string)
    ensures var store := map[k := Resource(k, map[], 0)];
            var f := Filter(labelKey, value, true);
            var indexers := map[labelKey := (item: Item) => LabelIndex(labelKey, item)];
            StoreOk(store) && Installed(indexers, labelKey) && Shown(store, map[], f) == {k} &&
                Shown(store, indexers, f) == {}
  {
    var store := map[k := Resource(k, map[], 0)];
    var f := Filter(labelKey, value, true);
    assert Keys(store, f) == {k};
  }
}
