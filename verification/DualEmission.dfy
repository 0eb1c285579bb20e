/**
 Dual emission over runs: every amount reaches a child of the tenant's own vector and then the child of the shared
 global vector. Sums are exact here, where the original adds floating point numbers.
 */
module DualEmission {

  type LabelValues = seq<string>

  /** History of a child: the vector it was made for. */
  datatype Origin = Global(name: string, lvs: LabelValues) | Local(factory: nat, name: string, lvs: LabelValues)

  /** A counter, or the count and sum of a histogram. */
  datatype Cell = Cell(origin: Origin, count: nat, sum: real)

  datatype Handle = Handle(local: nat, global: nat)

  /** An emission that has reached the local child and not the global one yet. */
  datatype Flight = Flight(cell: nat, to: Origin, amount: real)

  /**
   All children ever made, the ones each vector currently holds, the wrappers handed out, and the emissions under way.
   */
  datatype State = State(cells: seq<Cell>, current: map<Origin, nat>, handles: seq<Handle>, flights: seq<Flight>)

  const START := State([], map[], [], [])

  datatype Action =
    | With(factory: nat, name: string, lvs: LabelValues)
    | EmitLocal(handle: nat, counter: bool, amount: real)
    | EmitGlobal(flight: nat)
    | ResetVec(factory: nat, name: string)

  function WithChild(s: State, o: Origin): State {
    if o in s.current then s
    else s.(cells := s.cells + [Cell(o, 0, 0.0)], current := s.current[o := |s.cells|])
  }

  /** The wrapper of the two children that the vectors hold now. */
  function WithHandle(s: State, f: nat, n: string, x: LabelValues): State
    requires Local(f, n, x) in s.current && Global(n, x) in s.current
  {
    s.(handles := s.handles + [Handle(s.current[Local(f, n, x)], s.current[Global(n, x)])])
  }

  function Raised(cells: seq<Cell>, i: nat, v: real): seq<Cell>
    requires i < |cells|
  {
    cells[i := cells[i].(count := cells[i].count + 1, sum := cells[i].sum + v)]
  }

  predicate HandleOk(s: State, h: Handle) {
    h.local < |s.cells| && h.global < |s.cells|
  }

  function Landed(flights: seq<Flight>, i: nat): seq<Flight>
    requires i < |flights|
  {
    flights[..i] + flights[i + 1..]
  }

  /** A negative amount panics in a counter before anything is added. */
  function Step(s: State, a: Action): State {
    match a
    case With(f, name, lvs) =>
      WithHandle(WithChild(WithChild(s, Local(f, name, lvs)), Global(name, lvs)), f, name, lvs)
    case EmitLocal(h, counter, v) =>
      if h < |s.handles| && HandleOk(s, s.handles[h]) && !(counter && v < 0.0) then
        var g := s.handles[h].global;
        s.(cells := Raised(s.cells, s.handles[h].local, v), flights := s.flights + [Flight(g, s.cells[g].origin, v)])
      else s
    case EmitGlobal(i) =>
      if i < |s.flights| && s.flights[i].cell < |s.cells| then
        s.(cells := Raised(s.cells, s.flights[i].cell, s.flights[i].amount), flights := Landed(s.flights, i))
      else s
    case ResetVec(f, name) =>
      s.(current := map o | o in s.current && !(o.Local? && o.factory == f && o.name == name) :: s.current[o])
  }

  function Exec(run: seq<Action>): State
    decreases |run|
  {
    if run == [] then START else Step(Exec(run[..|run| - 1]), run[|run| - 1])
  }

  // ---- accounts ----

  predicate LocalOf(c: Cell, name: string, lvs: LabelValues) {
    c.origin.Local? && c.origin.name == name && c.origin.lvs == lvs
  }

  /** The total of all local children of a series: those in some tenant's vector and those detached by a Reset. */
  function LocalSum(cells: seq<Cell>, name: string, lvs: LabelValues): real {
    if cells == [] then 0.0
    else
      var last := cells[|cells| - 1];
      LocalSum(cells[..|cells| - 1], name, lvs) + if LocalOf(last, name, lvs) then last.sum else 0.0
  }

  function LocalCount(cells: seq<Cell>, name: string, lvs: LabelValues): nat {
    if cells == [] then 0
    else
      var last := cells[|cells| - 1];
      LocalCount(cells[..|cells| - 1], name, lvs) + if LocalOf(last, name, lvs) then last.count else 0
  }

  function GlobalSum(s: State, name: string, lvs: LabelValues): real {
    var o := Global(name, lvs);
    if o in s.current && s.current[o] < |s.cells| then s.cells[s.current[o]].sum else 0.0
  }

  function GlobalCount(s: State, name: string, lvs: LabelValues): nat {
    var o := Global(name, lvs);
    if o in s.current && s.current[o] < |s.cells| then s.cells[s.current[o]].count else 0
  }

  lemma {:induction false} RaiseCounts(cells: seq<Cell>, i: nat, v: real, name: string, lvs: LabelValues)
    requires i < |cells|
    ensures LocalSum(Raised(cells, i, v), name, lvs) ==
      LocalSum(cells, name, lvs) + (if LocalOf(cells[i], name, lvs) then v else 0.0)
    ensures LocalCount(Raised(cells, i, v), name, lvs) ==
      LocalCount(cells, name, lvs) + (if LocalOf(cells[i], name, lvs) then 1 else 0)
    decreases |cells|
  {
    var n := |cells| - 1;
    if i < n {
      RaiseCounts(cells[..n], i, v, name, lvs);
      assert Raised(cells, i, v)[..n] == Raised(cells[..n], i, v);
    } else {
      assert Raised(cells, i, v)[..n] == cells[..n];
    }
  }

  /** What is on its way to the global child of a series. */
  function FlightSum(flights: seq<Flight>, name: string, lvs: LabelValues): real {
    if flights == [] then 0.0
    else
      var last := flights[|flights| - 1];
      FlightSum(flights[..|flights| - 1], name, lvs) + if last.to == Global(name, lvs) then last.amount else 0.0
  }

  function FlightCount(flights: seq<Flight>, name: string, lvs: LabelValues): nat {
    if flights == [] then 0
    else
      var last := flights[|flights| - 1];
      FlightCount(flights[..|flights| - 1], name, lvs) + if last.to == Global(name, lvs) then 1 else 0
  }

  lemma {:induction false} LandingCounts(flights: seq<Flight>, i: nat, name: string, lvs: LabelValues)
    requires i < |flights|
    ensures var mine := flights[i].to == Global(name, lvs);
            && FlightSum(Landed(flights, i), name, lvs) ==
                 FlightSum(flights, name, lvs) - (if mine then flights[i].amount else 0.0)
            && FlightCount(Landed(flights, i), name, lvs) == FlightCount(flights, name, lvs) - (if mine then 1 else 0)
    decreases |flights|
  {
    var n := |flights| - 1;
    if i < n {
      LandingCounts(flights[..n], i, name, lvs);
      assert Landed(flights, i)[..n - 1] == Landed(flights[..n], i);
    } else {
      assert Landed(flights, i) == flights[..n];
    }
  }

  // ---- invariant ----

  ghost predicate Held(s: State) {
    forall o :: o in s.current ==> s.current[o] < |s.cells| && s.cells[s.current[o]].origin == o
  }

  ghost predicate GlobalsStay(s: State) {
    forall i: nat :: i < |s.cells| && s.cells[i].origin.Global? ==>
        s.cells[i].origin in s.current && s.current[s.cells[i].origin] == i
  }

  ghost predicate Paired(s: State, h: Handle) {
    && HandleOk(s, h)
    && s.cells[h.local].origin.Local?
    && s.cells[h.global].origin == Global(s.cells[h.local].origin.name, s.cells[h.local].origin.lvs)
  }

  ghost predicate Bound(s: State, f: Flight) {
    f.cell < |s.cells| && s.cells[f.cell].origin == f.to && f.to.Global?
  }

  /**
   Vectors hold children made for them, a global child is never dropped, the two children of a wrapper belong to one
   series, and an emission under way is bound for a global child.
   */
  ghost predicate Linked(s: State) {
    && Held(s) && GlobalsStay(s)
    && (forall h :: 0 <= h < |s.handles| ==> Paired(s, s.handles[h]))
    && (forall i :: 0 <= i < |s.flights| ==> Bound(s, s.flights[i]))
  }

  ghost predicate Balanced(s: State, name: string, lvs: LabelValues) {
    && GlobalSum(s, name, lvs) + FlightSum(s.flights, name, lvs) == LocalSum(s.cells, name, lvs)
    && GlobalCount(s, name, lvs) + FlightCount(s.flights, name, lvs) == LocalCount(s.cells, name, lvs)
  }

  // ---- every step ----

  lemma ChildLinks(s: State, o: Origin)
    requires Linked(s)
    ensures Linked(WithChild(s, o))
  {
  }

  lemma ChildBalances(s: State, o: Origin, name: string, lvs: LabelValues)
    requires Linked(s) && Balanced(s, name, lvs)
    ensures Balanced(WithChild(s, o), name, lvs)
  {
    var t := WithChild(s, o);
    if o !in s.current {
      assert t.cells[..|t.cells| - 1] == s.cells;
    }
  }

  lemma RaisedStaysLinked(s: State, i: nat, v: real)
    requires Linked(s) && i < |s.cells|
    ensures Linked(s.(cells := Raised(s.cells, i, v)))
  {
  }

  /** Raising a child changes the global value of a series exactly if it is the global child of that series. */
  lemma RaisedGlobal(s: State, i: nat, v: real, name: string, lvs: LabelValues)
    requires Linked(s) && i < |s.cells|
    ensures var t := s.(cells := Raised(s.cells, i, v));
            var mine := s.cells[i].origin == Global(name, lvs);
            && GlobalSum(t, name, lvs) == GlobalSum(s, name, lvs) + (if mine then v else 0.0)
            && GlobalCount(t, name, lvs) == GlobalCount(s, name, lvs) + (if mine then 1 else 0)
  {
  }

  lemma TakesOff(s: State, f: Flight, name: string, lvs: LabelValues)
    requires Linked(s) && Bound(s, f)
    ensures var t := s.(flights := s.flights + [f]);
            var mine := f.to == Global(name, lvs);
            && Linked(t)
            && FlightSum(t.flights, name, lvs) == FlightSum(s.flights, name, lvs) + (if mine then f.amount else 0.0)
            && FlightCount(t.flights, name, lvs) == FlightCount(s.flights, name, lvs) + (if mine then 1 else 0)
  {
    assert (s.flights + [f])[..|s.flights|] == s.flights;
  }

  lemma Lands(s: State, i: nat)
    requires Linked(s) && i < |s.flights|
    ensures Linked(s.(flights := Landed(s.flights, i)))
  {
  }

  lemma EmitLocalKeeps(s: State, h: nat, v: real, name: string, lvs: LabelValues)
    requires Linked(s) && Balanced(s, name, lvs) && h < |s.handles|
    ensures var t := Step(s, EmitLocal(h, false, v)); Linked(t) && Balanced(t, name, lvs)
  {
    assert Paired(s, s.handles[h]);
    var Handle(l, g) := s.handles[h];
    var u := s.(cells := Raised(s.cells, l, v));
    var o := Flight(g, s.cells[g].origin, v);
    RaiseCounts(s.cells, l, v, name, lvs);
    RaisedStaysLinked(s, l, v);
    RaisedGlobal(s, l, v, name, lvs);
    assert Bound(u, o);
    TakesOff(u, o, name, lvs);
    SameGlobals(u, Step(s, EmitLocal(h, false, v)), name, lvs);
  }

  lemma SameGlobals(s: State, t: State, name: string, lvs: LabelValues)
    requires t.cells == s.cells && t.current == s.current
    ensures GlobalSum(t, name, lvs) == GlobalSum(s, name, lvs) && GlobalCount(t, name, lvs) == GlobalCount(s, name, lvs)
  {
  }

  lemma EmitGlobalKeeps(s: State, i: nat, name: string, lvs: LabelValues)
    requires Linked(s) && Balanced(s, name, lvs) && i < |s.flights|
    ensures var t := Step(s, EmitGlobal(i)); Linked(t) && Balanced(t, name, lvs)
  {
    assert Bound(s, s.flights[i]);
    var Flight(g, to, v) := s.flights[i];
    RaiseCounts(s.cells, g, v, name, lvs);
    RaisedStaysLinked(s, g, v);
    RaisedGlobal(s, g, v, name, lvs);
    LandingCounts(s.flights, i, name, lvs);
    Lands(s.(cells := Raised(s.cells, g, v)), i);
  }

  lemma WithKeeps(s: State, f: nat, n: string, x: LabelValues, name: string, lvs: LabelValues)
    requires Linked(s) && Balanced(s, name, lvs)
    ensures var t := Step(s, With(f, n, x)); Linked(t) && Balanced(t, name, lvs)
  {
    var u := WithChild(s, Local(f, n, x));
    ChildKeeps(s, Local(f, n, x), name, lvs);
    ChildKeeps(u, Global(n, x), name, lvs);
    HandleLinks(WithChild(u, Global(n, x)), f, n, x);
    HandleBalances(WithChild(u, Global(n, x)), f, n, x, name, lvs);
  }

  lemma ChildKeeps(s: State, o: Origin, name: string, lvs: LabelValues)
    requires Linked(s) && Balanced(s, name, lvs)
    ensures Linked(WithChild(s, o)) && Balanced(WithChild(s, o), name, lvs) && o in WithChild(s, o).current
    ensures forall x :: x in s.current ==> x in WithChild(s, o).current
  {
    ChildLinks(s, o);
    ChildBalances(s, o, name, lvs);
  }

  lemma HandleBalances(s: State, f: nat, n: string, x: LabelValues, name: string, lvs: LabelValues)
    requires Balanced(s, name, lvs) && Local(f, n, x) in s.current && Global(n, x) in s.current
    ensures Balanced(WithHandle(s, f, n, x), name, lvs)
  {
  }

  lemma HandleLinks(s: State, f: nat, n: string, x: LabelValues)
    requires Linked(s) && Local(f, n, x) in s.current && Global(n, x) in s.current
    ensures Linked(WithHandle(s, f, n, x))
  {
  }

  lemma ResetKeeps(s: State, f: nat, n: string, name: string, lvs: LabelValues)
    requires Linked(s) && Balanced(s, name, lvs)
    ensures var t := Step(s, ResetVec(f, n)); Linked(t) && Balanced(t, name, lvs)
  {
    assert Global(name, lvs) in Step(s, ResetVec(f, n)).current <==> Global(name, lvs) in s.current;
  }

  lemma StepKeeps(s: State, a: Action, name: string, lvs: LabelValues)
    requires Linked(s) && Balanced(s, name, lvs)
    ensures Linked(Step(s, a)) && Balanced(Step(s, a), name, lvs)
  {
    match a
    case With(f, n, x) => WithKeeps(s, f, n, x, name, lvs);
    case ResetVec(f, n) => ResetKeeps(s, f, n, name, lvs);
    case EmitLocal(h, counter, v) =>
      if h < |s.handles| && !(counter && v < 0.0) {
        EmitLocalKeeps(s, h, v, name, lvs);
      } else {
        assert Step(s, a) == s;
      }
    case EmitGlobal(i) =>
      if i < |s.flights| {
        EmitGlobalKeeps(s, i, name, lvs);
      } else {
        assert Step(s, a) == s;
      }
  }

  /**
   Conservation. After any run of tenants obtaining wrappers, emitting through old and new ones, and resetting their
   vectors, the global child of every series, together with what is on its way there, holds exactly what all local
   children of that series have received.
   */
  lemma {:induction false} Conservation(run: seq<Action>, name: string, lvs: LabelValues)
    ensures Linked(Exec(run)) && Balanced(Exec(run), name, lvs)
    ensures Exec(run).flights == [] ==> GlobalSum(Exec(run), name, lvs) == LocalSum(Exec(run).cells, name, lvs)
    decreases |run|
  {
    if run != [] {
      Conservation(run[..|run| - 1], name, lvs);
      StepKeeps(Exec(run[..|run| - 1]), run[|run| - 1], name, lvs);
    }
  }

  // ---- resets are invisible to the global vectors ----

  /** A Reset takes nothing from the global vector and nothing from the wrappers that are in use. */
  lemma ResetKeepsGlobal(s: State, factory: nat, name: string, n: string, lvs: LabelValues)
    ensures var t := Step(s, ResetVec(factory, name));
            && GlobalSum(t, n, lvs) == GlobalSum(s, n, lvs) && t.cells == s.cells && t.handles == s.handles
            && (forall f: nat :: Local(f, n, lvs) in t.current <==>
                  Local(f, n, lvs) in s.current && !(f == factory && n == name))
  {
  }

  function Unreset(run: seq<Action>): seq<Action> {
    if run == [] then []
    else Unreset(run[..|run| - 1]) + if run[|run| - 1].ResetVec? then [] else [run[|run| - 1]]
  }

  function OriginAt(s: State, i: nat): (o: seq<Origin>) {
    if i < |s.cells| then [s.cells[i].origin] else []
  }

  ghost predicate SameValues(s: State, t: State) {
    forall name, lvs :: (Global(name, lvs) in s.current <==> Global(name, lvs) in t.current) &&
                        GlobalSum(s, name, lvs) == GlobalSum(t, name, lvs) &&
                            GlobalCount(s, name, lvs) == GlobalCount(t, name, lvs)
  }

  /** Two states that nobody who looks at global vectors only can tell apart, now or later. */
  ghost predicate Alike(s: State, t: State) {
    && SameValues(s, t)
    && |s.handles| == |t.handles|
    && (forall h :: 0 <= h < |s.handles| ==> OriginAt(s, s.handles[h].global) == OriginAt(t, t.handles[h].global))
    && |s.flights| == |t.flights|
    && (forall i :: 0 <= i < |s.flights| ==>
          s.flights[i].to == t.flights[i].to && s.flights[i].amount == t.flights[i].amount)
  }

  ghost predicate BothAlike(s: State, t: State) {
    Linked(s) && Linked(t) && Alike(s, t)
  }

  lemma ChildAlike(s: State, t: State, o: Origin)
    requires BothAlike(s, t)
    ensures BothAlike(WithChild(s, o), WithChild(t, o))
  {
    ChildLinks(s, o);
    ChildLinks(t, o);
    forall h | 0 <= h < |s.handles|
      ensures OriginAt(WithChild(s, o), s.handles[h].global) == OriginAt(WithChild(t, o), t.handles[h].global)
    {
      assert Paired(s, s.handles[h]) && Paired(t, t.handles[h]);
    }
  }

  lemma HandleAlike(s: State, t: State, f: nat, n: string, x: LabelValues)
    requires BothAlike(s, t)
    requires Local(f, n, x) in s.current && Global(n, x) in s.current && Local(f, n, x) in t.current &&
      Global(n, x) in t.current
    ensures Alike(WithHandle(s, f, n, x), WithHandle(t, f, n, x))
  {
    assert OriginAt(s, s.current[Global(n, x)]) == [Global(n, x)] == OriginAt(t, t.current[Global(n, x)]);
  }

  lemma WithAlike(s: State, t: State, f: nat, n: string, x: LabelValues)
    requires BothAlike(s, t)
    ensures Alike(Step(s, With(f, n, x)), Step(t, With(f, n, x)))
  {
    var s1, t1 := WithChild(s, Local(f, n, x)), WithChild(t, Local(f, n, x));
    ChildAlike(s, t, Local(f, n, x));
    ChildAlike(s1, t1, Global(n, x));
    HandleAlike(WithChild(s1, Global(n, x)), WithChild(t1, Global(n, x)), f, n, x);
  }

  lemma EmitLocalAlike(s: State, t: State, h: nat, counter: bool, v: real)
    requires BothAlike(s, t)
    ensures Alike(Step(s, EmitLocal(h, counter, v)), Step(t, EmitLocal(h, counter, v)))
  {
    if h < |s.handles| {
      assert Paired(s, s.handles[h]) && Paired(t, t.handles[h]);
      RaisedAlike(s, s.handles[h].local, v);
      RaisedAlike(t, t.handles[h].local, v);
    }
  }

  /** An amount added to a local child does not show in any global one. */
  lemma RaisedAlike(s: State, i: nat, v: real)
    requires Linked(s) && i < |s.cells| && s.cells[i].origin.Local?
    ensures Alike(s, s.(cells := Raised(s.cells, i, v)))
  {
    forall h | 0 <= h < |s.handles| ensures Paired(s, s.handles[h]) {}
  }

  lemma GlobalRaisedAlike(s: State, t: State, g: nat, h: nat, v: real)
    requires BothAlike(s, t) && g < |s.cells| && h < |t.cells|
    requires s.cells[g].origin == t.cells[h].origin && s.cells[g].origin.Global?
    ensures SameValues(s.(cells := Raised(s.cells, g, v)), t.(cells := Raised(t.cells, h, v)))
  {
    var s', t' := s.(cells := Raised(s.cells, g, v)), t.(cells := Raised(t.cells, h, v));
    forall name, lvs
      ensures GlobalSum(s', name, lvs) == GlobalSum(t', name, lvs) &&
        GlobalCount(s', name, lvs) == GlobalCount(t', name, lvs)
    {
      RaisedGlobal(s, g, v, name, lvs);
      RaisedGlobal(t, h, v, name, lvs);
    }
  }

  lemma SameOrigins(s: State, i: nat, v: real)
    requires i < |s.cells|
    ensures forall k: nat :: OriginAt(s.(cells := Raised(s.cells, i, v)), k) == OriginAt(s, k)
  {
  }

  lemma EmitGlobalAlike(s: State, t: State, i: nat)
    requires BothAlike(s, t)
    ensures Alike(Step(s, EmitGlobal(i)), Step(t, EmitGlobal(i)))
  {
    if i < |s.flights| {
      assert Bound(s, s.flights[i]) && Bound(t, t.flights[i]);
      GlobalRaisedAlike(s, t, s.flights[i].cell, t.flights[i].cell, s.flights[i].amount);
      SameOrigins(s, s.flights[i].cell, s.flights[i].amount);
      SameOrigins(t, t.flights[i].cell, t.flights[i].amount);
    }
  }

  lemma StepAlike(s: State, t: State, a: Action)
    requires BothAlike(s, t)
    ensures Alike(Step(s, a), if a.ResetVec? then t else Step(t, a))
  {
    match a
    case With(f, n, x) => WithAlike(s, t, f, n, x);
    case EmitLocal(h, counter, v) => EmitLocalAlike(s, t, h, counter, v);
    case EmitGlobal(i) => EmitGlobalAlike(s, t, i);
    case ResetVec(f, n) =>
      forall name, lvs ensures GlobalSum(Step(s, a), name, lvs) == GlobalSum(s, name, lvs) {
        ResetKeepsGlobal(s, f, n, name, lvs);
      }
  }

  /**
   Resets are invisible to the global vectors: whatever tenants reset in a run, and whenever, every global child is what
   it would be had nobody ever reset anything.
   */
  lemma {:induction false} ResetsAreInvisible(run: seq<Action>)
    ensures Alike(Exec(run), Exec(Unreset(run)))
    ensures forall name, lvs :: GlobalSum(Exec(run), name, lvs) == GlobalSum(Exec(Unreset(run)), name, lvs) &&
                                GlobalCount(Exec(run), name, lvs) == GlobalCount(Exec(Unreset(run)), name, lvs)
    decreases |run|
  {
    if run != [] {
      var before, a := run[..|run| - 1], run[|run| - 1];
      ResetsAreInvisible(before);
      Conservation(before, "", []);
      Conservation(Unreset(before), "", []);
      StepAlike(Exec(before), Exec(Unreset(before)), a);
      if a.ResetVec? {
        assert Unreset(run) == Unreset(before);
      } else {
        assert Unreset(run)[..|Unreset(run)| - 1] == Unreset(before);
      }
    }
  }

  // ---- what each tenant shows ----

  predicate Attached(s: State, i: nat) {
    i < |s.cells| && s.cells[i].origin in s.current && s.current[s.cells[i].origin] == i
  }

  /** Local sums by whether the child is still in its vector, over the first `n` children. */
  function PartSum(s: State, n: nat, name: string, lvs: LabelValues, attached: bool): real
    requires n <= |s.cells|
  {
    if n == 0 then 0.0
    else PartSum(s, n - 1, name, lvs, attached) +
         if LocalOf(s.cells[n - 1], name, lvs) && Attached(s, n - 1) == attached then s.cells[n - 1].sum else 0.0
  }

  lemma {:induction false} PartsMakeUp(s: State, n: nat, name: string, lvs: LabelValues)
    requires n <= |s.cells|
    ensures PartSum(s, n, name, lvs, true) + PartSum(s, n, name, lvs, false) == LocalSum(s.cells[..n], name, lvs)
  {
    if n > 0 {
      PartsMakeUp(s, n - 1, name, lvs);
      assert s.cells[..n][..n - 1] == s.cells[..n - 1];
    }
  }

  /**
   The global value, with what is on its way there, is what the tenants show now plus what their resets have hidden.
   */
  lemma GlobalIsShownPlusHidden(run: seq<Action>, name: string, lvs: LabelValues)
    ensures var s := Exec(run);
            GlobalSum(s, name, lvs) + FlightSum(s.flights, name, lvs) ==
            PartSum(s, |s.cells|, name, lvs, true) + PartSum(s, |s.cells|, name, lvs, false)
  {
    Conservation(run, name, lvs);
    var s := Exec(run);
    PartsMakeUp(s, |s.cells|, name, lvs);
    assert s.cells[..|s.cells|] == s.cells;
  }
}
