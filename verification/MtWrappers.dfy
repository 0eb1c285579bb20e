/** The wrappers and vectors of dual emission as they are written, and the ledger that ties them to `DualEmission`. */
module MtWrappers {
  import opened DualEmission

  /** A counter, or the count and sum of a histogram. */
  class Child {
    var count: nat
    var sum: real

    constructor ()
      ensures count == 0 && sum == 0.0
    {
      count, sum := 0, 0.0;
    }

    method Add(v: real)
      modifies this
      ensures count == old(count) + 1 && sum == old(sum) + v
    {
      count, sum := count + 1, sum + v;
    }
  }

  /** A Prometheus vector: one child for each tuple of label values, made on first use. */
  class Vec {
    var children: map<LabelValues, Child>

    constructor ()
      ensures children == map[]
    {
      children := map[];
    }

    method WithLabelValues(lvs: LabelValues) returns (child: Child)
      modifies this
      ensures lvs in children && children[lvs] == child
      ensures if lvs in old(children) then children == old(children)
              else children == old(children)[lvs := child] && fresh(child) && child.count == 0 && child.sum == 0.0
    {
      if lvs !in children {
        var made := new Child();
        children := children[lvs := made];
      }
      child := children[lvs];
    }

    /** Drops the children; whoever holds one keeps it. */
    method Reset()
      modifies this
      ensures children == map[]
    {
      children := map[];
    }
  }

  /** The counter and observer wrappers. Either child may be missing. */
  datatype MtChild = MtChild(local: Child?, global: Child?)

  ghost function Present(c: MtChild): set<Child> {
    (if c.local == null then {} else {c.local}) + (if c.global == null then {} else {c.global})
  }

  /**
   Inc, Add and Observe: first the local child, then the global one. A negative amount panics in the first counter it
   meets, so that nothing is added; a histogram takes it.
   */
  method Emit(c: MtChild, counter: bool, v: real) returns (panics: bool)
    modifies Present(c)
    ensures panics <==> counter && v < 0.0 && Present(c) != {}
    ensures forall x :: x in Present(c) && (panics || c.local != c.global) ==>
              x.count == old(x.count) + (if panics then 0 else 1) && x.sum == old(x.sum) + (if panics then 0.0 else v)
  {
    if c.local != null {
      if counter && v < 0.0 {
        return true;
      }
      c.local.Add(v);
    }
    if c.global != null {
      if counter && v < 0.0 {
        return true;
      }
      c.global.Add(v);
    }
    panics := false;
  }

  /** A child was found under the key, or was filed there as the only change. */
  ghost predicate Given(before: map<LabelValues, Child>, after: map<LabelValues, Child>, key: LabelValues,
      child: Child?) {
    && key in after && after[key] == child
    && after == (if key in before then before else before[key := after[key]])
  }

  /** mtCounterVec and mtObserverVec. Either vector may be missing. */
  class MtVec {
    const tenantUID: string
    const local: Vec?
    const global: Vec?

    constructor (tenantUID: string, local: Vec?, global: Vec?)
      ensures this.tenantUID == tenantUID && this.local == local && this.global == global
    {
      this.tenantUID, this.local, this.global := tenantUID, local, global;
    }

    ghost function Vecs(): set<Vec> {
      (if local == null then {} else {local}) + (if global == null then {} else {global})
    }

    /** The local child carries the tenant as one more label value. */
    method WithLabelValues(lvs: LabelValues) returns (c: MtChild)
      requires local == null || local != global
      modifies Vecs()
      ensures c.local == null <==> local == null
      ensures c.global == null <==> global == null
      ensures local != null ==> Given(old(local.children), local.children, lvs + [tenantUID], c.local)
      ensures global != null ==> Given(old(global.children), global.children, lvs, c.global)
      ensures c.local != null && (lvs + [tenantUID]) !in old(local.children) ==> fresh(c.local)
      ensures c.global != null && lvs !in old(global.children) ==> fresh(c.global)
      ensures c.local != null && c.global != null && fresh(c.local) && fresh(c.global) ==> c.local != c.global
      ensures c.local != null && fresh(c.local) ==> c.local.count == 0 && c.local.sum == 0.0
      ensures c.global != null && fresh(c.global) ==> c.global.count == 0 && c.global.sum == 0.0
    {
      var l: Child? := null;
      var g: Child? := null;
      if local != null {
        l := local.WithLabelValues(lvs + [tenantUID]);
      }
      if global != null {
        g := global.WithLabelValues(lvs);
      }
      c := MtChild(l, g);
    }

    /** Resets the tenant's vector; the global one keeps everything. */
    method Reset()
      modifies if local == null then {} else {local}
      ensures local != null ==> local.children == map[]
    {
      if local != null {
        local.Reset();
      }
    }
  }

  // ---- the ledger: which run of `DualEmission` the objects are in ----

  datatype VecId = GlobalVec(name: string) | LocalVec(factory: nat, name: string)

  type Views = map<VecId, map<LabelValues, Child>>

  function OriginOf(id: VecId, lvs: LabelValues): Origin {
    match id
    case GlobalVec(name) => Global(name, lvs)
    case LocalVec(f, name) => Local(f, name, lvs)
  }

  /** The key a vector files a child of its series under. */
  function KeyOf(uid: nat -> string, id: VecId, lvs: LabelValues): LabelValues {
    match id
    case GlobalVec(_) => lvs
    case LocalVec(f, _) => lvs + [uid(f)]
  }

  lemma KeysDiffer(uid: nat -> string, id: VecId, a: LabelValues, b: LabelValues)
    requires KeyOf(uid, id, a) == KeyOf(uid, id, b)
    ensures a == b
  {
    if id.LocalVec? {
      assert a == (a + [uid(id.factory)])[..|a|] && b == (b + [uid(id.factory)])[..|b|];
    }
  }

  /** Vector `id` holds a child of the series exactly if the model says so, and the child is the one it says. */
  ghost predicate Filed(uid: nat -> string, s: State, views: Views, made: seq<Child>, id: VecId, lvs: LabelValues)
    requires id in views
  {
    var key, o := KeyOf(uid, id, lvs), OriginOf(id, lvs);
    && (key in views[id] <==> o in s.current)
    && (o in s.current && s.current[o] < |made| && key in views[id] ==> views[id][key] == made[s.current[o]])
  }

  ghost predicate Fits(uid: nat -> string, s: State, views: Views, made: seq<Child>) {
    && Linked(s)
    && |made| == |s.cells| && (forall i, j :: 0 <= i < j < |made| ==> made[i] != made[j])
    && (forall id, lvs :: id in views ==> Filed(uid, s, views, made, id, lvs))
  }

  function ViewWith(views: Views, id: VecId, key: LabelValues, child: Child): Views
    requires id in views
  {
    if key in views[id] then views else views[id := views[id][key := child]]
  }

  function MadeWith(views: Views, made: seq<Child>, id: VecId, key: LabelValues, child: Child): seq<Child>
    requires id in views
  {
    if key in views[id] then made else made + [child]
  }

  ghost predicate FoundOrNew(views: Views, made: seq<Child>, id: VecId, key: LabelValues, child: Child)
    requires id in views
  {
    if key in views[id] then child == views[id][key] else child !in made
  }

  /** What is known stays, and what is new is zero. */
  ghost predicate Grows(s: State, t: State, made: seq<Child>, made': seq<Child>) {
    && made <= made' && |made| == |s.cells| && |made'| == |t.cells| && s.cells <= t.cells
    && (forall i :: |s.cells| <= i < |t.cells| ==> t.cells[i].count == 0 && t.cells[i].sum == 0.0)
  }

  /** Filing a child is the model's `WithChild`. */
  lemma Filing(uid: nat -> string, s: State, views: Views, made: seq<Child>, id: VecId, lvs: LabelValues, child: Child)
    requires Fits(uid, s, views, made) && id in views && FoundOrNew(views, made, id, KeyOf(uid, id, lvs), child)
    ensures var key, o := KeyOf(uid, id, lvs), OriginOf(id, lvs);
            var t, made' := WithChild(s, o), MadeWith(views, made, id, key, child);
            && Fits(uid, t, ViewWith(views, id, key, child), made') && Grows(s, t, made, made')
            && t.handles == s.handles && o in t.current && t.current[o] < |made'| && made'[t.current[o]] == child
            && (forall x :: x in s.current ==> x in t.current && t.current[x] == s.current[x])
  {
    var key, o := KeyOf(uid, id, lvs), OriginOf(id, lvs);
    var t := WithChild(s, o);
    assert Filed(uid, s, views, made, id, lvs);
    ChildLinks(s, o);
    if key !in views[id] {
      var views', made' := ViewWith(views, id, key, child), made + [child];
      forall i, x | i in views' ensures Filed(uid, t, views', made', i, x) {
        assert Filed(uid, s, views, made, i, x);
        if i == id && KeyOf(uid, id, x) == key {
          KeysDiffer(uid, id, x, lvs);
        }
      }
    }
  }

  lemma FoundIsMade(uid: nat -> string, s: State, views: Views, made: seq<Child>, id: VecId, lvs: LabelValues)
    requires Fits(uid, s, views, made) && id in views
    ensures KeyOf(uid, id, lvs) in views[id] ==> views[id][KeyOf(uid, id, lvs)] in made
  {
    assert Filed(uid, s, views, made, id, lvs);
    if OriginOf(id, lvs) in s.current {
      assert s.current[OriginOf(id, lvs)] < |made|;
    }
  }

  lemma HandleFits(uid: nat -> string, s: State, views: Views, made: seq<Child>, f: nat, name: string, lvs: LabelValues)
    requires Fits(uid, s, views, made) && Local(f, name, lvs) in s.current && Global(name, lvs) in s.current
    ensures Fits(uid, WithHandle(s, f, name, lvs), views, made)
  {
    HandleLinks(s, f, name, lvs);
    forall id, x | id in views ensures Filed(uid, WithHandle(s, f, name, lvs), views, made, id, x) {
      assert Filed(uid, s, views, made, id, x);
    }
  }

  /** The views and the children after a wrapper has been obtained. */
  function ObtainedViews(uid: nat -> string, views: Views, f: nat, name: string, lvs: LabelValues, l: Child,
      g: Child): Views
    requires LocalVec(f, name) in views && GlobalVec(name) in views
  {
    ViewWith(ViewWith(views, LocalVec(f, name), lvs + [uid(f)], l), GlobalVec(name), lvs, g)
  }

  function ObtainedChildren(uid: nat -> string, views: Views, made: seq<Child>, f: nat, name: string, lvs: LabelValues,
      l: Child, g: Child): seq<Child>
    requires LocalVec(f, name) in views && GlobalVec(name) in views
  {
    MadeWith(views, MadeWith(views, made, LocalVec(f, name), lvs + [uid(f)], l), GlobalVec(name), lvs, g)
  }

  /** The last wrapper is that of `l` and `g`, and the others are as before. */
  ghost predicate Wraps(s: State, t: State, made: seq<Child>, l: Child, g: Child) {
    && |t.handles| == |s.handles| + 1 && s.handles <= t.handles
    && var h := t.handles[|s.handles|];
       h.local < |made| && h.global < |made| && made[h.local] == l && made[h.global] == g
  }

  /** Obtaining a wrapper is the model's `With`. */
  lemma Obtaining(uid: nat -> string, s: State, views: Views, made: seq<Child>, f: nat, name: string, lvs: LabelValues,
      l: Child, g: Child)
    requires Fits(uid, s, views, made) && LocalVec(f, name) in views && GlobalVec(name) in views
    requires FoundOrNew(views, made, LocalVec(f, name), lvs + [uid(f)], l)
    requires FoundOrNew(views, MadeWith(views, made, LocalVec(f, name), lvs + [uid(f)], l), GlobalVec(name), lvs, g)
    ensures var t, made' := Step(s, With(f, name, lvs)), ObtainedChildren(uid, views, made, f, name, lvs, l, g);
            && Fits(uid, t, ObtainedViews(uid, views, f, name, lvs, l, g), made')
            && Grows(s, t, made, made') && Wraps(s, t, made', l, g)
  {
    var key := lvs + [uid(f)];
    var s1, views1 := WithChild(s, Local(f, name, lvs)), ViewWith(views, LocalVec(f, name), key, l);
    var made1 := MadeWith(views, made, LocalVec(f, name), key, l);
    Filing(uid, s, views, made, LocalVec(f, name), lvs, l);
    assert views1[GlobalVec(name)] == views[GlobalVec(name)];
    Filing(uid, s1, views1, made1, GlobalVec(name), lvs, g);
    var s2 := WithChild(s1, Global(name, lvs));
    HandleFits(uid, s2, ObtainedViews(uid, views, f, name, lvs, l, g), MadeWith(views1, made1, GlobalVec(name), lvs, g),
        f, name, lvs);
  }

  /** The model's state in which an emission has reached both children. */
  function Emitted(s: State, h: nat, v: real): State
    requires h < |s.handles| && HandleOk(s, s.handles[h])
  {
    s.(cells := Raised(Raised(s.cells, s.handles[h].local, v), s.handles[h].global, v))
  }

  lemma EmissionIsTwoSteps(s: State, h: nat, counter: bool, v: real)
    requires Linked(s) && h < |s.handles| && !(counter && v < 0.0)
    ensures HandleOk(s, s.handles[h])
    ensures Step(Step(s, EmitLocal(h, counter, v)), EmitGlobal(|s.flights|)) == Emitted(s, h, v)
  {
    assert Paired(s, s.handles[h]);
    var f := Flight(s.handles[h].global, s.cells[s.handles[h].global].origin, v);
    assert Landed(s.flights + [f], |s.flights|) == s.flights;
  }

  lemma EmittedFits(uid: nat -> string, s: State, views: Views, made: seq<Child>, h: nat, v: real)
    requires Fits(uid, s, views, made) && h < |s.handles|
    ensures HandleOk(s, s.handles[h]) && Fits(uid, Emitted(s, h, v), views, made)
    ensures made[s.handles[h].local] != made[s.handles[h].global] && s.handles[h].local != s.handles[h].global
  {
    assert Paired(s, s.handles[h]);
    var Handle(i, j) := s.handles[h];
    RaisedStaysLinked(s, i, v);
    RaisedStaysLinked(s.(cells := Raised(s.cells, i, v)), j, v);
    forall id, lvs | id in views ensures Filed(uid, Emitted(s, h, v), views, made, id, lvs) {
      assert Filed(uid, s, views, made, id, lvs);
    }
  }

  lemma ResetFits(uid: nat -> string, s: State, views: Views, made: seq<Child>, f: nat, name: string)
    requires Fits(uid, s, views, made) && LocalVec(f, name) in views
    ensures Fits(uid, Step(s, ResetVec(f, name)), views[LocalVec(f, name) := map[]], made)
  {
    var t, views' := Step(s, ResetVec(f, name)), views[LocalVec(f, name) := map[]];
    forall id, lvs | id in views' ensures Filed(uid, t, views', made, id, lvs) {
      assert Filed(uid, s, views, made, id, lvs);
    }
  }

  /** The children hold what the model says. */
  ghost predicate Counts(s: State, made: seq<Child>)
    reads made
  {
    |made| == |s.cells| && forall i :: 0 <= i < |made| ==>
        made[i].count == s.cells[i].count && made[i].sum == s.cells[i].sum
  }

  ghost predicate Wrappers(s: State, made: seq<Child>, wrappers: seq<MtChild>) {
    |wrappers| == |s.handles| &&
    forall h :: 0 <= h < |wrappers| ==>
      && s.handles[h].local < |made| && s.handles[h].global < |made|
      && wrappers[h] == MtChild(made[s.handles[h].local], made[s.handles[h].global])
  }

  lemma CountsGrow(s: State, t: State, made: seq<Child>, made': seq<Child>)
    requires Counts(s, made) && Grows(s, t, made, made')
    requires forall i :: |made| <= i < |made'| ==> made'[i].count == 0 && made'[i].sum == 0.0
    ensures Counts(t, made')
  {
    forall i | 0 <= i < |made'| ensures made'[i].count == t.cells[i].count && made'[i].sum == t.cells[i].sum {
      if i < |made| {
        assert made'[i] == made[i] && t.cells[i] == s.cells[i];
      }
    }
  }

  lemma WrapsGrow(s: State, t: State, made: seq<Child>, made': seq<Child>, wrappers: seq<MtChild>, l: Child, g: Child)
    requires Wrappers(s, made, wrappers) && Wraps(s, t, made', l, g) && made <= made'
    ensures Wrappers(t, made', wrappers + [MtChild(l, g)])
  {
    forall h | 0 <= h < |wrappers|
      ensures t.handles[h] == s.handles[h] && made'[s.handles[h].local] == made[s.handles[h].local] &&
              made'[s.handles[h].global] == made[s.handles[h].global]
    {}
  }

  lemma NewChildren(uid: nat -> string, views: Views, made: seq<Child>, factory: nat, name: string, lvs: LabelValues,
      l: Child, g: Child)
    requires LocalVec(factory, name) in views && GlobalVec(name) in views
    requires FoundOrNew(views, made, LocalVec(factory, name), lvs + [uid(factory)], l)
    requires FoundOrNew(views, MadeWith(views, made, LocalVec(factory, name), lvs + [uid(factory)], l), GlobalVec(name),
      lvs, g)
    ensures var made' := ObtainedChildren(uid, views, made, factory, name, lvs, l, g);
            made <= made' && forall i :: |made| <= i < |made'| ==> made'[i] !in made && (made'[i] == l || made'[i] == g)
  {
  }

  /** All that changes in the ledger when a wrapper is obtained. */
  lemma Entering(uid: nat -> string, s: State, views: Views, made: seq<Child>, wrappers: seq<MtChild>,
                 f: nat, name: string, lvs: LabelValues, l: Child, g: Child)
    requires Fits(uid, s, views, made) && Wrappers(s, made, wrappers) && LocalVec(f, name) in views &&
      GlobalVec(name) in views
    requires FoundOrNew(views, made, LocalVec(f, name), lvs + [uid(f)], l)
    requires FoundOrNew(views, MadeWith(views, made, LocalVec(f, name), lvs + [uid(f)], l), GlobalVec(name), lvs, g)
    ensures var t, made' := Step(s, With(f, name, lvs)), ObtainedChildren(uid, views, made, f, name, lvs, l, g);
            && Fits(uid, t, ObtainedViews(uid, views, f, name, lvs, l, g), made')
            && Grows(s, t, made, made') && Wrappers(t, made', wrappers + [MtChild(l, g)])
            && (forall i :: |made| <= i < |made'| ==> made'[i] !in made && (made'[i] == l || made'[i] == g))
  {
    var made' := ObtainedChildren(uid, views, made, f, name, lvs, l, g);
    Obtaining(uid, s, views, made, f, name, lvs, l, g);
    NewChildren(uid, views, made, f, name, lvs, l, g);
    WrapsGrow(s, Step(s, With(f, name, lvs)), made, made', wrappers, l, g);
  }

  lemma EmittedCells(s: State, h: nat, v: real, k: nat)
    requires h < |s.handles| && HandleOk(s, s.handles[h]) && s.handles[h].local != s.handles[h].global && k < |s.cells|
    ensures var mine := k == s.handles[h].local || k == s.handles[h].global;
            var cell := Emitted(s, h, v).cells[k];
            cell.count == s.cells[k].count + (if mine then 1 else 0) &&
                cell.sum == s.cells[k].sum + (if mine then v else 0.0)
  {
  }

  class Ledger {
    const uid: nat -> string
    ghost var vecs: map<VecId, Vec>
    ghost var made: seq<Child>
    ghost var wrappers: seq<MtChild>
    ghost var model: State

    constructor (uid: nat -> string)
      ensures Valid() && model == START && vecs == map[] && this.uid == uid
    {
      this.uid := uid;
      vecs, made, wrappers, model := map[], [], [], START;
    }

    ghost function Vecs(): set<Vec>
      reads this
    {
      set id | id in vecs :: vecs[id]
    }

    ghost function View(): Views
      reads this, Vecs()
    {
      map id | id in vecs :: vecs[id].children
    }

    ghost predicate Counted()
      reads this, made
    {
      Counts(model, made)
    }

    ghost predicate Wrapped()
      reads this
    {
      Wrappers(model, made, wrappers)
    }

    ghost predicate Valid()
      reads this, Vecs(), made
    {
      && Fits(uid, model, View(), made) && Counted() && Wrapped()
      && (forall a, b :: a in vecs && b in vecs && a != b ==> vecs[a] != vecs[b])
    }

    /** An empty vector is registered for a metric that has none yet. */
    ghost method Attach(id: VecId, v: Vec)
      requires Valid() && id !in vecs && v !in Vecs() && v.children == map[]
      requires forall lvs :: OriginOf(id, lvs) !in model.current
      modifies this
      ensures Valid() && vecs == old(vecs)[id := v] && model == old(model) && wrappers == old(wrappers)
    {
      var views := View();
      vecs := vecs[id := v];
      assert View() == views[id := map[]];
      forall i, lvs | i in View() ensures Filed(uid, model, View(), made, i, lvs) {
        assert i != id ==> Filed(uid, model, views, made, i, lvs);
      }
    }

    /** `v` is what factory `factory` holds for the metric `name`. */
    ghost predicate Owns(v: MtVec, factory: nat, name: string)
      reads this
    {
      && v.tenantUID == uid(factory) && v.local != null && v.global != null
      && LocalVec(factory, name) in vecs && vecs[LocalVec(factory, name)] == v.local
      && GlobalVec(name) in vecs && vecs[GlobalVec(name)] == v.global
    }

    method WithLabelValues(v: MtVec, factory: nat, name: string, lvs: LabelValues) returns (c: MtChild)
      requires Valid() && Owns(v, factory, name)
      modifies this, v.Vecs()
      ensures Valid() && vecs == old(vecs) && wrappers == old(wrappers) + [c]
      ensures model == Step(old(model), With(factory, name, lvs))
    {
      ghost var views := View();
      FoundIsMade(uid, model, views, made, LocalVec(factory, name), lvs);
      FoundIsMade(uid, model, views, made, GlobalVec(name), lvs);
      c := v.WithLabelValues(lvs);
      HandOut(views, factory, name, lvs, c.local, c.global);
    }

    /** The vectors have changed from `views` by handing out `l` and `g`. */
    ghost method HandOut(views: Views, factory: nat, name: string, lvs: LabelValues, l: Child, g: Child)
      requires Fits(uid, model, views, made) && Counted() && Wrapped()
      requires forall a, b :: a in vecs && b in vecs && a != b ==> vecs[a] != vecs[b]
      requires views.Keys == vecs.Keys && LocalVec(factory, name) in vecs && GlobalVec(name) in vecs
      requires forall id :: id in vecs && id != LocalVec(factory, name) && id != GlobalVec(name) ==>
        vecs[id].children == views[id]
      requires Given(views[LocalVec(factory, name)], vecs[LocalVec(factory, name)].children, lvs + [uid(factory)], l)
      requires Given(views[GlobalVec(name)], vecs[GlobalVec(name)].children, lvs, g)
      requires FoundOrNew(views, made, LocalVec(factory, name), lvs + [uid(factory)], l)
      requires FoundOrNew(views, MadeWith(views, made, LocalVec(factory, name), lvs + [uid(factory)], l),
        GlobalVec(name), lvs, g)
      requires l !in made ==> l.count == 0 && l.sum == 0.0
      requires g !in made ==> g.count == 0 && g.sum == 0.0
      modifies this
      ensures Valid() && vecs == old(vecs) && wrappers == old(wrappers) + [MtChild(l, g)]
      ensures model == Step(old(model), With(factory, name, lvs))
    {
      Entering(uid, model, views, made, wrappers, factory, name, lvs, l, g);
      ViewsObtained(views, factory, name, lvs, l, g);
      Enter(Step(model, With(factory, name, lvs)), View(), ObtainedChildren(uid, views, made, factory, name, lvs, l, g),
          MtChild(l, g));
    }

    /** The vectors hold `views` now, which is what state `t` says. */
    ghost method Enter(t: State, views: Views, made': seq<Child>, c: MtChild)
      requires Counted() && views == View() && Grows(model, t, made, made')
      requires Fits(uid, t, views, made') && Wrappers(t, made', wrappers + [c])
      requires forall a, b :: a in vecs && b in vecs && a != b ==> vecs[a] != vecs[b]
      requires forall i :: |made| <= i < |made'| ==> made'[i].count == 0 && made'[i].sum == 0.0
      modifies this
      ensures Valid() && vecs == old(vecs) && wrappers == old(wrappers) + [c] && model == t
    {
      CountsGrow(model, t, made, made');
      made, model, wrappers := made', t, wrappers + [c];
      assert View() == views;
    }

    lemma ViewsObtained(views: Views, factory: nat, name: string, lvs: LabelValues, l: Child, g: Child)
      requires views.Keys == vecs.Keys && LocalVec(factory, name) in vecs && GlobalVec(name) in vecs
      requires forall id :: id in vecs && id != LocalVec(factory, name) && id != GlobalVec(name) ==>
        vecs[id].children == views[id]
      requires Given(views[LocalVec(factory, name)], vecs[LocalVec(factory, name)].children, lvs + [uid(factory)], l)
      requires Given(views[GlobalVec(name)], vecs[GlobalVec(name)].children, lvs, g)
      ensures View() == ObtainedViews(uid, views, factory, name, lvs, l, g)
    {
      var target := ObtainedViews(uid, views, factory, name, lvs, l, g);
      forall id | id in vecs ensures id in target && vecs[id].children == target[id] {
        if id == LocalVec(factory, name) {
        } else if id == GlobalVec(name) {
        }
      }
    }

    /** The children have changed to what state `t` says. */
    ghost method Book(t: State)
      requires Fits(uid, t, View(), made) && Counts(t, made) && Wrappers(t, made, wrappers)
      requires forall a, b :: a in vecs && b in vecs && a != b ==> vecs[a] != vecs[b]
      modifies this`model
      ensures Valid() && model == t
    {
      ghost var views := View();
      model := t;
      assert View() == views;
    }

    method EmitOn(c: MtChild, ghost h: nat, counter: bool, v: real) returns (panics: bool)
      requires Valid() && h < |wrappers| && wrappers[h] == c
      modifies this, Present(c)
      ensures Valid() && vecs == old(vecs) && wrappers == old(wrappers)
      ensures panics <==> counter && v < 0.0
      ensures var s := Step(old(model), EmitLocal(h, counter, v));
              model == if panics then old(model) else Step(s, EmitGlobal(|old(model).flights|))
    {
      ghost var s0, views := model, View();
      EmittedFits(uid, s0, views, made, h, v);
      assert forall k :: 0 <= k < |made| && k != s0.handles[h].local && k != s0.handles[h].global ==>
          made[k] !in Present(c);
      panics := Emit(c, counter, v);
      if !panics {
        EmissionIsTwoSteps(s0, h, counter, v);
        forall k | 0 <= k < |made|
          ensures made[k].count == Emitted(s0, h, v).cells[k].count && made[k].sum == Emitted(s0, h, v).cells[k].sum
        {
          EmittedCells(s0, h, v, k);
        }
        assert View() == views;
        Book(Emitted(s0, h, v));
      } else {
        assert View() == views;
      }
    }

    method Reset(v: MtVec, factory: nat, name: string)
      requires Valid() && Owns(v, factory, name)
      modifies this, v.local
      ensures Valid() && vecs == old(vecs) && wrappers == old(wrappers)
      ensures model == Step(old(model), ResetVec(factory, name))
    {
      ghost var s0, views := model, View();
      v.Reset();
      ResetFits(uid, s0, views, made, factory, name);
      model := Step(s0, ResetVec(factory, name));
      assert View() == views[LocalVec(factory, name) := map[]];
    }
  }
}
