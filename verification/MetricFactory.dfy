/**
 A tenant's metric factory: every metric is made once in the shared global registry, through the tracker, and once in
 the tenant's own registry, where it carries the tenant as one more label.
 */
module MetricFactory {
  import opened Domain
  import T = MetricsTracker

  const TENANT_LABEL := "tenant_uid"

  /** A vector of a tenant's registry. A scalar metric is a vector there whose only label is the tenant. */
  datatype LocalVec = LocalVec(kind: T.Kind, labelNames: seq<string>, help: string)

  /** A collector's identity in a registry: its name and its constant labels, with their values. */
  datatype Id = Id(name: string, constLabels: map<string, string>)

  type Registry = map<Id, LocalVec>

  /** Name, label names and the fate of the global registration are in `call`; the tracker never sees the rest. */
  datatype Request = Request(call: T.Call, help: string, constLabels: map<string, string>)

  function IdOf(r: Request): Id {
    Id(r.call.name, r.constLabels)
  }

  /** What the caller gets: the tenant's vector, registered as `id`, and the global collector behind one wrapper. */
  datatype Metric = Metric(tenantUID: string, id: Id, local: LocalVec, global: T.Collector)

  function LocalKind(kind: T.Kind): T.Kind {
    match kind
    case Counter => T.CounterVec
    case Histogram => T.HistogramVec
    case _ => kind
  }

  // ---- a Prometheus registry, as a contract ----

  datatype Answer = Accepted | AlreadyRegistered(existing: LocalVec) | Refused

  predicate Repeats(names: seq<string>) {
    names != [] && (names[|names| - 1] in names[..|names| - 1] || Repeats(names[..|names| - 1]))
  }

  lemma {:induction false} RepeatsIffNotDistinct(names: seq<string>)
    ensures Repeats(names) <==> !Distinct(names)
    decreases |names|
  {
    if names != [] {
      var n := |names| - 1;
      RepeatsIffNotDistinct(names[..n]);
      if names[n] in names[..n] {
        var i :| 0 <= i < n && names[..n][i] == names[n];
        assert names[i] == names[n];
      }
    }
  }

  lemma OneNameDoesNotRepeat(name: string)
    ensures !Repeats([] + [name])
  {
    var names := [] + [name];
    assert names[..|names| - 1] == [];
  }

  /** A label occurs twice, or is a constant one as well. */
  predicate Invalid(id: Id, v: LocalVec) {
    Repeats(v.labelNames) || exists n :: n in v.labelNames && n in id.constLabels
  }

  /** Help, names of constant labels and label names agree, the latter in any order. */
  predicate SameDimensions(a: Id, x: LocalVec, b: Id, y: LocalVec) {
    x.help == y.help && a.constLabels.Keys == b.constLabels.Keys && multiset(x.labelNames) == multiset(y.labelNames)
  }

  /**
   A label cannot occur twice. All collectors of one name must have the same dimensions. A second collector of the same
   identity, of whatever type, meets the first one.
   */
  function Register(reg: Registry, id: Id, v: LocalVec): Answer {
    if Invalid(id, v) then Refused
    else if exists a :: a in reg && a.name == id.name && !SameDimensions(a, reg[a], id, v) then Refused
    else if id in reg then AlreadyRegistered(reg[id])
    else Accepted
  }

  // ---- the constructors ----

  function LocalFor(r: Request): LocalVec {
    LocalVec(LocalKind(r.call.kind), r.call.labelNames + [TENANT_LABEL], r.help)
  }

  /** The tracker's part, then the tenant's. A failure of the second leaves the first done. */
  function Create(t: T.Tracker, reg: Registry, tenantUID: string, r: Request): (T.Tracker, Registry, Option<Metric>) {
    var (t', global) := T.GetOrCreate(t, r.call);
    if global.None? then (t', reg, None)
    else
      var v := LocalFor(r);
      match Register(reg, IdOf(r), v)
      case Accepted => (t', reg[IdOf(r) := v], Some(Metric(tenantUID, IdOf(r), v, global.value)))
      case AlreadyRegistered(existing) =>
        (t', reg, if existing.kind == v.kind then Some(Metric(tenantUID, IdOf(r), existing, global.value)) else None)
      case Refused => (t', reg, None)
  }

  class MtMetricFactory {
    const tenantUID: string
    const tracker: T.GlobalMetricsTracker
    var localRegistry: Registry

    constructor (tenantUID: string, tracker: T.GlobalMetricsTracker)
      ensures this.tenantUID == tenantUID && this.tracker == tracker && localRegistry == map[]
    {
      this.tenantUID, this.tracker, localRegistry := tenantUID, tracker, map[];
    }

    /**
     NewCounterVec, NewHistogramVec, NewCounter and NewHistogram; they differ in the kind, and scalars have no labels.
     */
    method NewMetric(r: Request) returns (made: Option<Metric>)
      modifies tracker, this`localRegistry
      ensures (tracker.Model(), localRegistry, made) == Create(old(tracker.Model()), old(localRegistry), tenantUID, r)
    {
      var mtLabelNames := r.call.labelNames + [TENANT_LABEL];
      var global := tracker.GetOrCreateCollector(r.call);
      if global.None? {
        return None;
      }
      var local := LocalVec(LocalKind(r.call.kind), mtLabelNames, r.help);
      match Register(localRegistry, IdOf(r), local) {
        case Refused =>
          return None;
        case AlreadyRegistered(existing) =>
          if existing.kind != local.kind {
            return None;
          }
          local := existing;
        case Accepted =>
          localRegistry := localRegistry[IdOf(r) := local];
      }
      made := Some(Metric(tenantUID, IdOf(r), local, global.value));
    }
  }

  /**
   What a successful constructor returns: the factory's tenant, the tracker's collector, and a vector of the right type,
   registered with the tenant's label behind the labels asked for. Nothing else is registered, and without the tracker's
   consent nothing at all.
   */
  lemma NewMetricMeans(t: T.Tracker, reg: Registry, tenantUID: string, r: Request)
    requires T.WellFormed(r.call)
    ensures var (t', reg', made) := Create(t, reg, tenantUID, r);
            var (u, global) := T.GetOrCreate(t, r.call);
            && t' == u && (global.None? || made.None? ==> made.None? && reg' == reg)
            && (made.Some? ==>
                  && made.value.tenantUID == tenantUID && global == Some(made.value.global)
                  && made.value.id == Id(r.call.name, r.constLabels)
                  && reg' == reg[made.value.id := made.value.local]
                  && made.value.local.help == r.help
                  && (made.value.id !in reg ==> made.value.local.labelNames == r.call.labelNames + ["tenant_uid"])
                  && (r.call.kind == T.Counter || r.call.kind == T.CounterVec ==> made.value.local.kind == T.CounterVec)
                  && (r.call.kind == T.Histogram || r.call.kind == T.HistogramVec ==>
                        made.value.local.kind == T.HistogramVec))
  {
    var v := LocalFor(r);
    if IdOf(r) in reg {
      assert reg[IdOf(r) := reg[IdOf(r)]] == reg;
    }
  }

  // ---- runs of any number of factories that share a tracker ----

  /** A child of a local vector: a series of the tenant's registry. */
  datatype Child = Child(factory: nat, id: Id, labelValues: seq<string>)

  /** A metric in the hands of a caller. History: the factory that made it. */
  datatype Wrapper = Wrapper(factory: nat, metric: Metric)

  datatype State = State(tracker: T.Tracker, registries: map<nat, Registry>, wrappers: seq<Wrapper>,
      children: set<Child>)

  const START := State(T.EMPTY, map[], [], {})

  datatype Action =
    | Make(factory: nat, request: Request)
    | WithLabelValues(wrapper: nat, lvs: seq<string>)
    | ResetVec(wrapper: nat)

  function RegistryOf(s: State, factory: nat): Registry {
    if factory in s.registries then s.registries[factory] else map[]
  }

  /** A scalar metric has its one child from the beginning. */
  function FirstChildren(factory: nat, tenantUID: string, r: Request, made: Option<Metric>): set<Child> {
    if made.Some? && (r.call.kind == T.Counter || r.call.kind == T.Histogram)
        then {Child(factory, IdOf(r), [tenantUID])} else {}
  }

  /** `uid` gives every factory the tenant it was made for. A wrong number of label values panics. */
  function Step(uid: nat -> string, s: State, a: Action): State {
    match a
    case Make(f, r) =>
      var (t, reg, made) := Create(s.tracker, RegistryOf(s, f), uid(f), r);
      State(t, s.registries[f := reg], s.wrappers + if made.Some? then [Wrapper(f, made.value)] else [],
            s.children + FirstChildren(f, uid(f), r, made))
    case WithLabelValues(w, lvs) =>
      if w < |s.wrappers| && |lvs| + 1 == |s.wrappers[w].metric.local.labelNames| then
        var Wrapper(f, m) := s.wrappers[w];
        s.(children := s.children + {Child(f, m.id, lvs + [m.tenantUID])})
      else s
    case ResetVec(w) =>
      if w < |s.wrappers| then
        var Wrapper(f, m) := s.wrappers[w];
        s.(children := set c | c in s.children && !(c.factory == f && c.id == m.id))
      else s
  }

  function Exec(uid: nat -> string, run: seq<Action>): State
    decreases |run|
  {
    if run == [] then START else Step(uid, Exec(uid, run[..|run| - 1]), run[|run| - 1])
  }

  /** A factory has no constructors for other kinds, and its scalar constructors take no labels. */
  ghost predicate WellFormed(run: seq<Action>) {
    forall i :: 0 <= i < |run| && run[i].Make? ==> T.WellFormed(run[i].request.call)
  }

  /** The one kind of request a global collector satisfies. */
  function Satisfies(c: T.Collector): T.Kind {
    if c.kind == T.Gauge then T.Counter else if c.kind == T.Summary then T.Histogram else c.kind
  }

  /** What a tenant's registry holds under a name is what the tracker knows about that name. */
  ghost predicate Approved(t: T.Tracker, name: string, v: LocalVec) {
    && name in t.collectors && name in t.metricLabels
    && v.kind == LocalKind(Satisfies(t.collectors[name]))
    && v.labelNames == t.metricLabels[name] + [TENANT_LABEL] && !Repeats(v.labelNames)
  }

  /** A child belongs to a vector of its factory, has a value for each label, and ends in the tenant of the factory. */
  ghost predicate Rooted(uid: nat -> string, s: State, c: Child) {
    && c.id in RegistryOf(s, c.factory)
    && |c.labelValues| == |RegistryOf(s, c.factory)[c.id].labelNames| > 0
    && c.labelValues[|c.labelValues| - 1] == uid(c.factory)
  }

  /** A wrapper carries the tenant of its factory, a vector of that factory's registry, and the tracker's collector. */
  ghost predicate Wraps(uid: nat -> string, s: State, w: Wrapper) {
    && w.metric.tenantUID == uid(w.factory)
    && w.metric.id in RegistryOf(s, w.factory) && RegistryOf(s, w.factory)[w.metric.id] == w.metric.local
    && w.metric.id.name in s.tracker.collectors && s.tracker.collectors[w.metric.id.name] == w.metric.global
  }

  ghost predicate Inv(uid: nat -> string, s: State) {
    && T.Inv(s.tracker)
    && (forall w :: w in s.wrappers ==> Wraps(uid, s, w))
    && (forall f, id :: f in s.registries && id in s.registries[f] ==>
          Approved(s.tracker, id.name, s.registries[f][id]))
    && (forall c :: c in s.children ==> Rooted(uid, s, c))
  }

  lemma MakeApproves(uid: nat -> string, s: State, f: nat, r: Request)
    requires Inv(uid, s) && T.WellFormed(r.call)
    ensures var s' := Step(uid, s, Make(f, r));
            && T.Inv(s'.tracker)
            && (forall g, id :: g in s'.registries && id in s'.registries[g] ==>
                  Approved(s'.tracker, id.name, s'.registries[g][id]))
  {
    var s', reg := Step(uid, s, Make(f, r)), RegistryOf(s, f);
    T.CallExtends(s.tracker, r.call);
    forall g, id | g in s'.registries && id in s'.registries[g]
      ensures Approved(s'.tracker, id.name, s'.registries[g][id])
    {
      if g == f && id !in reg {
        NewIsApproved(s.tracker, reg, uid(f), r, id);
      } else {
        assert g in s.registries && id in s.registries[g] && s'.registries[g][id] == s.registries[g][id];
        StaysApproved(s.tracker, s'.tracker, id.name, s.registries[g][id]);
      }
    }
  }

  lemma StaysApproved(t: T.Tracker, t': T.Tracker, name: string, v: LocalVec)
    requires Approved(t, name, v) && T.Extends(t, t')
    ensures Approved(t', name, v)
  {
  }

  lemma NewIsApproved(t: T.Tracker, reg: Registry, tenantUID: string, r: Request, id: Id)
    requires T.Inv(t) && T.WellFormed(r.call)
    requires id !in reg && id in Create(t, reg, tenantUID, r).1
    ensures Approved(Create(t, reg, tenantUID, r).0, id.name, Create(t, reg, tenantUID, r).1[id])
  {
    CreateAdds(t, reg, tenantUID, r, id);
    T.CallExtends(t, r.call);
  }

  /** All that a constructor adds to the tenant's registry. */
  lemma CreateAdds(t: T.Tracker, reg: Registry, tenantUID: string, r: Request, id: Id)
    requires id !in reg && id in Create(t, reg, tenantUID, r).1
    ensures T.GetOrCreate(t, r.call).1.Some? && id == IdOf(r) && !Repeats(LocalFor(r).labelNames)
    ensures Create(t, reg, tenantUID, r).1[id] == LocalFor(r)
  {
  }

  /** The tracker's part of a constructor. */
  lemma CreateAsks(t: T.Tracker, reg: Registry, tenantUID: string, r: Request)
    ensures var (t', reg', made) := Create(t, reg, tenantUID, r);
            var (u, global) := T.GetOrCreate(t, r.call);
            t' == u && (made.Some? ==> global == Some(made.value.global) && IdOf(r) in reg')
  {
  }

  /** Registries only grow, so a child stays rooted; the first child of a scalar has the tenant as its only value. */
  lemma MakeRoots(uid: nat -> string, s: State, f: nat, r: Request, c: Child)
    requires Inv(uid, s) && T.WellFormed(r.call) && c in Step(uid, s, Make(f, r)).children
    ensures Rooted(uid, Step(uid, s, Make(f, r)), c)
  {
    var s' := Step(uid, s, Make(f, r));
    if c in s.children {
      assert Rooted(uid, s, c);
      assert RegistryOf(s', c.factory)[c.id] == RegistryOf(s, c.factory)[c.id];
    } else if IdOf(r) in RegistryOf(s, f) {
      SameName(uid, s, f, r, IdOf(r));
    }
  }

  lemma MakeWraps(uid: nat -> string, s: State, f: nat, r: Request, w: Wrapper)
    requires Inv(uid, s) && T.WellFormed(r.call) && w in Step(uid, s, Make(f, r)).wrappers
    ensures Wraps(uid, Step(uid, s, Make(f, r)), w)
  {
    var s' := Step(uid, s, Make(f, r));
    NewMetricMeans(s.tracker, RegistryOf(s, f), uid(f), r);
    T.CallExtends(s.tracker, r.call);
    if w in s.wrappers {
      assert Wraps(uid, s, w);
      OldVectorStays(uid, s, f, r, w.factory, w.metric.id);
    }
  }

  /** Making a metric again leaves the vector as it is. */
  lemma OldVectorStays(uid: nat -> string, s: State, f: nat, r: Request, g: nat, id: Id)
    requires id in RegistryOf(s, g)
    ensures var s' := Step(uid, s, Make(f, r)); id in RegistryOf(s', g) && RegistryOf(s', g)[id] == RegistryOf(s, g)[id]
  {
  }

  lemma LabelsRoot(uid: nat -> string, s: State, w: nat, lvs: seq<string>, c: Child)
    requires Inv(uid, s) && c in Step(uid, s, WithLabelValues(w, lvs)).children
    ensures Rooted(uid, Step(uid, s, WithLabelValues(w, lvs)), c)
  {
    if c in s.children {
      assert Rooted(uid, s, c);
    } else {
      assert Wraps(uid, s, s.wrappers[w]);
    }
  }

  lemma StepKeeps(uid: nat -> string, s: State, a: Action)
    requires Inv(uid, s) && (a.Make? ==> T.WellFormed(a.request.call))
    ensures Inv(uid, Step(uid, s, a))
  {
    var s' := Step(uid, s, a);
    match a
    case Make(f, r) =>
      MakeApproves(uid, s, f, r);
      forall c | c in s'.children ensures Rooted(uid, s', c) {
        MakeRoots(uid, s, f, r, c);
      }
      forall w | w in s'.wrappers ensures Wraps(uid, s', w) {
        MakeWraps(uid, s, f, r, w);
      }
    case WithLabelValues(w, lvs) =>
      forall c | c in s'.children ensures Rooted(uid, s', c) {
        LabelsRoot(uid, s, w, lvs, c);
      }
      forall x | x in s'.wrappers ensures Wraps(uid, s', x) {
        assert Wraps(uid, s, x);
      }
    case ResetVec(_) =>
      forall c | c in s'.children ensures Rooted(uid, s', c) {
        assert Rooted(uid, s, c);
      }
      forall x | x in s'.wrappers ensures Wraps(uid, s', x) {
        assert Wraps(uid, s, x);
      }
  }

  lemma {:induction false} Reachable(uid: nat -> string, run: seq<Action>)
    requires WellFormed(run)
    ensures Inv(uid, Exec(uid, run))
    decreases |run|
  {
    if run != [] {
      Reachable(uid, run[..|run| - 1]);
      StepKeeps(uid, Exec(uid, run[..|run| - 1]), run[|run| - 1]);
    }
  }

  /** The label names of the request, with the tenant's, repeat or meet one of its constant labels. */
  ghost predicate Unfit(r: Request) {
    var names := r.call.labelNames + [TENANT_LABEL];
    !Distinct(names) || exists n :: n in names && n in r.constLabels
  }

  /** The factory has made a metric of this name with another help text or other constant labels' names. */
  ghost predicate Clashes(reg: Registry, r: Request) {
    exists id :: id in reg && id.name == r.call.name &&
                 (reg[id].help != r.help || id.constLabels.Keys != r.constLabels.Keys)
  }

  /**
   Once the tracker has agreed, the tenant's registry refuses a metric if and only if a label repeats, the tenant label
   included, or this factory made one of that name before with another help text or other constant labels: neither other
   labels nor another type can get as far. A refusal for a metric made before leaves everything as it was.
   */
  lemma LocalRefusesIffUnfit(uid: nat -> string, run: seq<Action>, f: nat, r: Request)
    requires WellFormed(run) && T.WellFormed(r.call)
    requires T.GetOrCreate(Exec(uid, run).tracker, r.call).1.Some?
    ensures var s := Exec(uid, run);
            var reg := RegistryOf(s, f);
            var (t', reg', made) := Create(s.tracker, reg, uid(f), r);
            && (made == None <==> Unfit(r) || Clashes(reg, r))
            && (made == None ==> reg' == reg && (Unfit(r) || t' == s.tracker))
            && (made.Some? ==> made.value.local == LocalFor(r) && reg' == reg[IdOf(r) := LocalFor(r)])
  {
    Reachable(uid, run);
    var s := Exec(uid, run);
    var reg := RegistryOf(s, f);
    RepeatsIffNotDistinct(LocalFor(r).labelNames);
    assert Invalid(IdOf(r), LocalFor(r)) <==> Unfit(r);
    forall id | id in reg && id.name == r.call.name
      ensures reg[id].kind == LocalFor(r).kind && reg[id].labelNames == LocalFor(r).labelNames
      ensures T.GetOrCreate(s.tracker, r.call).0 == s.tracker
    {
      SameName(uid, s, f, r, id);
    }
    RegisterIffNoClash(reg, r);
  }

  /** Among collectors that agree on type and labels. */
  lemma RegisterIffNoClash(reg: Registry, r: Request)
    requires forall id :: id in reg && id.name == r.call.name ==>
               reg[id].kind == LocalFor(r).kind && reg[id].labelNames == LocalFor(r).labelNames
    ensures var answer := Register(reg, IdOf(r), LocalFor(r));
            && (answer.Refused? <==> Invalid(IdOf(r), LocalFor(r)) || Clashes(reg, r))
            && (answer.Accepted? ==> IdOf(r) !in reg)
            && (answer.AlreadyRegistered? ==> answer.existing == LocalFor(r) && reg[IdOf(r) := LocalFor(r)] == reg)
  {
    var v := LocalFor(r);
    forall id | id in reg && id.name == r.call.name
      ensures SameDimensions(id, reg[id], IdOf(r), v) <==>
              reg[id].help == r.help && id.constLabels.Keys == r.constLabels.Keys
    {
    }
    if IdOf(r) in reg && reg[IdOf(r)].help == r.help {
      assert reg[IdOf(r)] == v;
      assert reg[IdOf(r) := v] == reg;
    }
  }

  /** What the factory has made under a name agrees with every request for that name that the tracker approves. */
  lemma SameName(uid: nat -> string, s: State, f: nat, r: Request, id: Id)
    requires Inv(uid, s) && T.WellFormed(r.call) && T.GetOrCreate(s.tracker, r.call).1.Some?
    requires id in RegistryOf(s, f) && id.name == r.call.name
    ensures var had, v := RegistryOf(s, f)[id], LocalFor(r);
            && had.kind == v.kind && had.labelNames == v.labelNames && !Repeats(v.labelNames)
            && T.GetOrCreate(s.tracker, r.call).0 == s.tracker
  {
    assert f in s.registries && Approved(s.tracker, id.name, RegistryOf(s, f)[id]);
    T.CallExtends(s.tracker, r.call);
  }

  /** What a step does to the series that the tenants' registries show. */
  lemma ChildrenMean(uid: nat -> string, s: State, a: Action)
    requires Inv(uid, s)
    ensures var after := Step(uid, s, a).children;
            match a
            case Make(f, r) =>
              var made := Create(s.tracker, RegistryOf(s, f), uid(f), r).2;
              var scalar := r.call.kind == T.Counter || r.call.kind == T.Histogram;
              after == s.children + if made.Some? && scalar then {Child(f, made.value.id, [uid(f)])} else {}
            case WithLabelValues(w, lvs) =>
              if w < |s.wrappers| && |lvs| + 1 == |s.wrappers[w].metric.local.labelNames| then
                var f := s.wrappers[w].factory;
                after == s.children + {Child(f, s.wrappers[w].metric.id, lvs + [uid(f)])}
              else after == s.children
            case ResetVec(w) =>
              forall c :: c in after <==>
                c in s.children &&
                (w < |s.wrappers| ==> c.factory != s.wrappers[w].factory || c.id != s.wrappers[w].metric.id)
  {
    if a.WithLabelValues? && a.wrapper < |s.wrappers| {
      assert Wraps(uid, s, s.wrappers[a.wrapper]);
    }
  }

  /**
   Whoever holds a wrapper, after any run: it carries the tenant of the factory that made it, and everybody who holds
   one for the same metric name, of whatever tenant, holds the same global collector.
   */
  lemma WrappersFitTogether(uid: nat -> string, run: seq<Action>, v: Wrapper, w: Wrapper)
    requires WellFormed(run) && v in Exec(uid, run).wrappers && w in Exec(uid, run).wrappers
    ensures v.metric.tenantUID == uid(v.factory)
    ensures v.metric.id.name == w.metric.id.name ==>
              && v.metric.global == w.metric.global
              && v.metric.local.kind == w.metric.local.kind && v.metric.local.labelNames == w.metric.local.labelNames
  {
    Reachable(uid, run);
    var s := Exec(uid, run);
    assert Wraps(uid, s, v) && Wraps(uid, s, w);
    assert Approved(s.tracker, v.metric.id.name, v.metric.local) &&
        Approved(s.tracker, w.metric.id.name, w.metric.local);
  }

  /**
   The tracker knows names only. A later request with other constant labels gets a vector of its own in the tenant's
   registry, and the first request's collector, with the first request's constant labels, as its global one.
   */
  lemma ConstantLabelsAreLocal(t: T.Tracker, a: Request, b: Request, regA: Registry, regB: Registry, uidA: string,
                               uidB: string)
    requires T.Inv(t) && a.call.name == b.call.name
    requires var (t', _, m) := Create(t, regA, uidA, a); m.Some? && Create(t', regB, uidB, b).2.Some?
    ensures var (t', _, m) := Create(t, regA, uidA, a);
            var (_, reg, n) := Create(t', regB, uidB, b);
            && m.value.global == n.value.global && IdOf(b) in reg
            && (a.constLabels != b.constLabels ==> IdOf(a) != IdOf(b))
  {
    CreateAsks(t, regA, uidA, a);
    T.CallExtends(t, a.call);
    var t' := Create(t, regA, uidA, a).0;
    CreateAsks(t', regB, uidB, b);
    T.CallExtends(t', b.call);
  }

  /** A caller's label that is called like the tenant label: the global collector is made, the tenant's never. */
  lemma TenantLabelIsReserved(t: T.Tracker, reg: Registry, tenantUID: string, r: Request)
    requires TENANT_LABEL in r.call.labelNames
    ensures var (t', reg', made) := Create(t, reg, tenantUID, r);
            && made == None && reg' == reg && t' == T.GetOrCreate(t, r.call).0
            && (r.call.name !in t.metricLabels && r.call.name !in t.collectors && r.call.registration.Accepted? ==>
                  r.call.name in t'.collectors)
  {
    var names := LocalFor(r).labelNames;
    assert names[..|names| - 1] == r.call.labelNames;
  }
}
