/** Which objects a tenant's filter lets through, and what the views of different tenants have to do with each other. */
module Filtering {
  import opened Domain

  type Labels = map<string, string>

  /**
   An object with metadata, a tombstone around the last known state of a deleted object, or something without metadata.
   */
  datatype Item =
    | Resource(key: Key, labels: Labels, version: nat)
    | DeletedFinalStateUnknown(last: Item)
    | Bare

  datatype Filter = Filter(key: string, value: string, allowMissing: bool)

  /** `val` is the label's value and `ok` says whether the label is there. */
  function MatchValue(val: string, ok: bool, expected: string, allowMissing: bool): bool {
    if !ok then allowMissing else val == expected
  }

  /** Tombstones are opened once, so that a deletion is judged by the state it deletes. */
  function Opened(item: Item): Item {
    if item.DeletedFinalStateUnknown? then item.last else item
  }

  predicate Labelled(item: Item, labelKey: string) {
    item.Resource? && labelKey in item.labels
  }

  predicate Matches(f: Filter, item: Item) {
    var o := Opened(item);
    var value := if Labelled(o, f.key) then o.labels[f.key] else "";
    o.Resource? && MatchValue(value, Labelled(o, f.key), f.value, f.allowMissing)
  }

  /** The values the label index files an object under. Anything without metadata is an error there. */
  function LabelIndex(labelKey: string, item: Item): Option<seq<string>> {
    if !item.Resource? then None
    else Some(if Labelled(item, labelKey) then [item.labels[labelKey]] else [])
  }

  /** Stored objects are no tombstones, and an object with metadata is stored under its key. */
  ghost predicate StoreOk(store: map<Key, Item>) {
    forall k :: k in store ==> !store[k].DeletedFinalStateUnknown? && (store[k].Resource? ==> store[k].key == k)
  }

  /** What a tenant sees of a store. */
  function View(store: map<Key, Item>, f: Filter): map<Key, Item> {
    map k | k in store && Matches(f, store[k]) :: store[k]
  }

  /** What passes a filter, case by case. A tombstone passes exactly if the object in it does. */
  lemma MatchesMeans(f: Filter, k: Key, labels: Labels, version: nat)
    ensures Matches(f, Resource(k, labels, version)) <==>
            if f.key in labels then labels[f.key] == f.value else f.allowMissing
    ensures Matches(f, DeletedFinalStateUnknown(Resource(k, labels, version))) <==>
      Matches(f, Resource(k, labels, version))
    ensures !Matches(f, Bare) && !Matches(f, DeletedFinalStateUnknown(Bare))
  {
  }

  // ---- the list filter ----

  function Filtered(items: seq<Item>, f: Filter): seq<Item> {
    if items == [] then []
    else Filtered(items[..|items| - 1], f) + (if Matches(f, items[|items| - 1]) then [items[|items| - 1]] else [])
  }

  method GetFilteredListByValue(items: seq<Item>, f: Filter) returns (filtered: seq<Item>)
    ensures filtered == Filtered(items, f)
  {
    filtered := [];
    for i := 0 to |items|
      invariant filtered == Filtered(items[..i], f)
    {
      assert items[..i + 1][..i] == items[..i];
      if Matches(f, items[i]) {
        filtered := filtered + [items[i]];
      }
    }
    assert items[..|items|] == items;
  }

  /** The filter keeps exactly the matching objects, each as often as it was there. */
  lemma {:induction false} FilteredKeepsMatches(items: seq<Item>, f: Filter)
    ensures forall x :: multiset(Filtered(items, f))[x] == if Matches(f, x) then multiset(items)[x] else 0
    decreases |items|
  {
    if items != [] {
      FilteredKeepsMatches(items[..|items| - 1], f);
      assert items == items[..|items| - 1] + [items[|items| - 1]];
    }
  }

  /** The filter keeps the order: what comes from the front of the list stays in front. */
  lemma {:induction false} FilteredConcat(a: seq<Item>, b: seq<Item>, f: Filter)
    ensures Filtered(a + b, f) == Filtered(a, f) + Filtered(b, f)
    decreases |b|
  {
    if b == [] {
      assert a + b == a;
    } else {
      var n := |b| - 1;
      FilteredConcat(a, b[..n], f);
      assert (a + b)[..|a + b| - 1] == a + b[..n];
    }
  }

  // ---- tenants partition the store ----

  ghost function Keys(store: map<Key, Item>, f: Filter): set<Key> {
    View(store, f).Keys
  }

  ghost function WithMetadata(store: map<Key, Item>): set<Key> {
    set k | k in store && Opened(store[k]).Resource?
  }

  ghost function Unlabelled(store: map<Key, Item>, labelKey: string): set<Key> {
    set k | k in WithMetadata(store) && !Labelled(Opened(store[k]), labelKey)
  }

  ghost function Pick(values: set<string>): (v: string)
    requires values != {}
    ensures v in values
  {
    var v :| v in values;
    v
  }

  /** The total size of the views for `values`. */
  ghost function Sizes(store: map<Key, Item>, labelKey: string, values: set<string>): nat {
    if values == {} then 0
    else
      var v := Pick(values);
      |Keys(store, Filter(labelKey, v, false))| + Sizes(store, labelKey, values - {v})
  }

  ghost function LabelledWith(store: map<Key, Item>, labelKey: string, values: set<string>): set<Key> {
    set k | k in WithMetadata(store) && Labelled(Opened(store[k]), labelKey) &&
        Opened(store[k]).labels[labelKey] in values
  }

  lemma {:induction false} SizesCount(store: map<Key, Item>, labelKey: string, values: set<string>)
    ensures Sizes(store, labelKey, values) == |LabelledWith(store, labelKey, values)|
    decreases values
  {
    if values == {} {
      assert LabelledWith(store, labelKey, values) == {};
    } else {
      var v := Pick(values);
      SizesCount(store, labelKey, values - {v});
      var rest, here := LabelledWith(store, labelKey, values - {v}), Keys(store, Filter(labelKey, v, false));
      assert LabelledWith(store, labelKey, values) == rest + here;
      assert rest !! here;
    }
  }

  /** The views for different values share the unlabelled objects if both filters allow them, and nothing else. */
  lemma ViewsShareUnlabelled(store: map<Key, Item>, f: Filter, g: Filter)
    requires f.key == g.key && f.value != g.value
    ensures Keys(store, f) * Keys(store, g) == if f.allowMissing && g.allowMissing then Unlabelled(store, f.key) else {}
    ensures !f.allowMissing || !g.allowMissing ==> Keys(store, f) !! Keys(store, g)
  {
    var both := if f.allowMissing && g.allowMissing then Unlabelled(store, f.key) else {};
    assert forall k :: k in Keys(store, f) && k in Keys(store, g) <==> k in both;
  }

  /**
   The views of all label values, together with the unlabelled objects, account for every object with metadata exactly
   once.
   */
  lemma ViewsPartition(store: map<Key, Item>, labelKey: string, values: set<string>)
    requires forall k :: k in WithMetadata(store) && Labelled(Opened(store[k]), labelKey) ==>
      Opened(store[k]).labels[labelKey] in values
    ensures Sizes(store, labelKey, values) + |Unlabelled(store, labelKey)| == |WithMetadata(store)|
  {
    SizesCount(store, labelKey, values);
    var labelled := LabelledWith(store, labelKey, values);
    assert WithMetadata(store) == labelled + Unlabelled(store, labelKey);
    assert labelled !! Unlabelled(store, labelKey);
  }
}
