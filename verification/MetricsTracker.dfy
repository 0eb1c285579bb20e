/** The tracker that hands every tenant the one global collector of a metric. */
module MetricsTracker {
  import opened Domain

  datatype Kind = CounterVec | HistogramVec | Counter | Histogram | Gauge | Summary

  /** A collector object; `id` is its identity. */
  datatype Collector = Collector(id: nat, kind: Kind)

  /** How the global registry answers Register: accepted, an equal collector exists already, or refused. */
  datatype Registration = Accepted | AlreadyRegistered(existing: Collector) | Refused

  /**
   The type assertion on a collector. Interfaces are structural: a gauge has every method of a counter, and a summary
   every method of a histogram.
   */
  predicate Asserts(c: Collector, wanted: Kind) {
    c.kind == wanted || (c.kind == Gauge && wanted == Counter) || (c.kind == Summary && wanted == Histogram)
  }

  /** One get-or-create call for a full metric name. The scalar kinds ask for no labels. */
  datatype Call = Call(kind: Kind, name: string, labelNames: seq<string>, registration: Registration)

  predicate WellFormed(c: Call) {
    c.kind != Gauge && c.kind != Summary && (c.kind == Counter || c.kind == Histogram ==> c.labelNames == [])
  }

  datatype Tracker = Tracker(collectors: map<string, Collector>, metricLabels: map<string, seq<string>>, made: nat)

  const EMPTY := Tracker(map[], map[], 0)

  /** The labels of a name are recorded by the first call for it, whether or not that call then succeeds. */
  function Validated(t: Tracker, c: Call): Option<Tracker> {
    if c.name !in t.metricLabels then Some(t.(metricLabels := t.metricLabels[c.name := c.labelNames]))
    else if t.metricLabels[c.name] == c.labelNames then Some(t)
    else None
  }

  function GetOrCreate(t: Tracker, c: Call): (Tracker, Option<Collector>) {
    match Validated(t, c)
    case None => (t, None)
    case Some(v) =>
      if c.name in v.collectors then
        (v, if Asserts(v.collectors[c.name], c.kind) then Some(v.collectors[c.name]) else None)
      else
        var created := Collector(v.made, c.kind);
        var next := v.(made := v.made + 1);
        match c.registration
        case Accepted => (next.(collectors := v.collectors[c.name := created]), Some(created))
        case AlreadyRegistered(existing) =>
          if Asserts(existing, c.kind) then (next.(collectors := v.collectors[c.name := existing]), Some(existing))
          else (next, None)
        case Refused => (next, None)
  }

  // ---- the tracker as it is written ----

  class GlobalMetricsTracker {
    var collectors: map<string, Collector>
    var metricLabels: map<string, seq<string>>
    var made: nat

    constructor ()
      ensures Model() == EMPTY
    {
      collectors, metricLabels, made := map[], map[], 0;
    }

    ghost function Model(): Tracker
      reads this
    {
      Tracker(collectors, metricLabels, made)
    }

    method ValidateLabelsLocked(name: string, labelNames: seq<string>) returns (ok: bool)
      modifies this`metricLabels
      ensures ok <==> name !in old(metricLabels) || old(metricLabels)[name] == labelNames
      ensures metricLabels == if name in old(metricLabels) then old(metricLabels)
        else old(metricLabels)[name := labelNames]
    {
      if name in metricLabels {
        var stored := metricLabels[name];
        if |stored| != |labelNames| {
          return false;
        }
        for i := 0 to |stored|
          invariant stored[..i] == labelNames[..i]
        {
          if stored[i] != labelNames[i] {
            return false;
          }
        }
        assert stored[..|stored|] == stored && labelNames[..|stored|] == labelNames;
      } else {
        metricLabels := metricLabels[name := labelNames];
      }
      ok := true;
    }

    /** The four get-or-create methods; they differ in the kind, and the scalar ones pass an empty label list. */
    method GetOrCreateCollector(c: Call) returns (r: Option<Collector>)
      modifies this
      ensures (Model(), r) == GetOrCreate(old(Model()), c)
    {
      var ok := ValidateLabelsLocked(c.name, c.labelNames);
      if !ok {
        return None;
      }
      if c.name in collectors {
        return if Asserts(collectors[c.name], c.kind) then Some(collectors[c.name]) else None;
      }
      var collector := Collector(made, c.kind);
      made := made + 1;
      match c.registration {
        case Refused =>
          return None;
        case AlreadyRegistered(existing) =>
          if !Asserts(existing, c.kind) {
            return None;
          }
          collector := existing;
        case Accepted =>
      }
      collectors := collectors[c.name := collector];
      r := Some(collector);
    }
  }

  // ---- runs ----

  function Exec(run: seq<Call>): Tracker
    decreases |run|
  {
    if run == [] then EMPTY else GetOrCreate(Exec(run[..|run| - 1]), run[|run| - 1]).0
  }

  /** What the i-th call of a run returned. */
  function Result(run: seq<Call>, i: nat): Option<Collector>
    requires i < |run|
  {
    GetOrCreate(Exec(run[..i]), run[i]).1
  }

  ghost predicate Inv(t: Tracker) {
    t.collectors.Keys <= t.metricLabels.Keys
  }

  /** Names keep their labels and their collector. */
  ghost predicate Extends(t: Tracker, u: Tracker) {
    && (forall n :: n in t.metricLabels ==> n in u.metricLabels && u.metricLabels[n] == t.metricLabels[n])
    && (forall n :: n in t.collectors ==> n in u.collectors && u.collectors[n] == t.collectors[n])
  }

  lemma CallExtends(t: Tracker, c: Call)
    requires Inv(t)
    ensures var (u, r) := GetOrCreate(t, c);
            && Inv(u) && Extends(t, u)
            && (r.Some? ==> c.name in u.collectors && u.collectors[c.name] == r.value && Asserts(r.value, c.kind) &&
                            u.metricLabels[c.name] == c.labelNames)
  {
  }

  lemma {:induction false} RunExtends(run: seq<Call>, n: nat)
    requires n <= |run|
    ensures Inv(Exec(run)) && Extends(Exec(run[..n]), Exec(run))
    decreases |run|
  {
    if run == [] {
      assert run[..n] == run;
    } else {
      var before := run[..|run| - 1];
      RunExtends(before, if n < |run| then n else n - 1);
      CallExtends(Exec(before), run[|run| - 1]);
      if n < |run| {
        assert run[..n] == before[..n];
      } else {
        assert run[..n] == run;
      }
    }
  }

  /**
   Any two successful calls for one name, by whichever tenants, asked for the same kind and the same labels, and got the
   same collector.
   */
  lemma OneCollectorPerName(run: seq<Call>, i: nat, j: nat)
    requires forall n :: 0 <= n < |run| ==> WellFormed(run[n])
    requires i <= j < |run| && run[i].name == run[j].name && Result(run, i).Some? && Result(run, j).Some?
    ensures run[i].kind == run[j].kind && run[i].labelNames == run[j].labelNames && Result(run, i) == Result(run, j)
  {
    SuccessIsRecorded(run, i, j + 1);
    SuccessIsRecorded(run, j, j + 1);
    assert WellFormed(run[i]) && WellFormed(run[j]);
  }

  lemma SuccessIsRecorded(run: seq<Call>, i: nat, n: nat)
    requires i < n <= |run| && Result(run, i).Some?
    ensures var t, name := Exec(run[..n]), run[i].name;
            && name in t.collectors && Some(t.collectors[name]) == Result(run, i)
            && name in t.metricLabels && t.metricLabels[name] == run[i].labelNames
            && Asserts(t.collectors[name], run[i].kind)
  {
    RunExtends(run[..i], 0);
    CallExtends(Exec(run[..i]), run[i]);
    var upTo := run[..i + 1];
    assert upTo[..|upTo| - 1] == run[..i] && upTo[|upTo| - 1] == run[i];
    RunExtends(run[..n], i + 1);
    assert run[..n][..i + 1] == upTo;
  }

  /**
   A name is bound to the labels of the first call for it, for good: a later call with other labels is refused even if
   nothing was ever registered under the name, because the first registration failed.
   */
  lemma FirstCallFixesLabels(run: seq<Call>, i: nat, j: nat)
    requires i < j < |run| && run[i].name == run[j].name && run[i].labelNames != run[j].labelNames
    requires forall n :: 0 <= n < i ==> run[n].name != run[i].name
    ensures Result(run, j) == None
  {
    LabelsBound(run, i, j);
  }

  lemma LabelsBound(run: seq<Call>, h: nat, n: nat)
    requires h < n <= |run| && FirstFor(run, h, run[h].name)
    ensures run[h].name in Exec(run[..n]).metricLabels && Exec(run[..n]).metricLabels[run[h].name] == run[h].labelNames
  {
    NameUnseen(run[..h], run[h].name);
    RunExtends(run[..h], 0);
    CallExtends(Exec(run[..h]), run[h]);
    var upTo := run[..h + 1];
    assert upTo[..|upTo| - 1] == run[..h] && upTo[|upTo| - 1] == run[h];
    RunExtends(run[..n], h + 1);
    assert run[..n][..h + 1] == upTo;
  }

  /** A recorded collector is the result of some call for its name. */
  lemma {:induction false} RecordedByCall(run: seq<Call>, n: nat, name: string) returns (i: nat)
    requires n <= |run| && name in Exec(run[..n]).collectors
    ensures i < n && run[i].name == name && Result(run, i) == Some(Exec(run[..n]).collectors[name])
    decreases n
  {
    assert n > 0;
    assert run[..n][..n - 1] == run[..n - 1];
    if name in Exec(run[..n - 1]).collectors {
      i := RecordedByCall(run, n - 1, name);
      RunExtends(run[..n - 1], 0);
      CallExtends(Exec(run[..n - 1]), run[n - 1]);
    } else {
      i := n - 1;
    }
  }

  predicate FirstFor(run: seq<Call>, h: nat, name: string) {
    h < |run| && run[h].name == name && forall n :: 0 <= n < h ==> run[n].name != name
  }

  /** No call before the `j`-th has had success with its name. */
  ghost predicate NoneYet(run: seq<Call>, j: nat)
    requires j < |run|
  {
    forall i :: 0 <= i < j && run[i].name == run[j].name ==> Result(run, i).None?
  }

  /** The global registry accepts the new collector, or has one that will do. */
  predicate Registers(c: Call) {
    c.registration.Accepted? || (c.registration.AlreadyRegistered? && Asserts(c.registration.existing, c.kind))
  }

  /**
   What the `j`-th call returns, where the `h`-th is the first for its name. Other labels are refused. After a success
   for the name, by whichever tenant, everybody who asks for that type gets the same collector. Before one, the call
   succeeds exactly if its registration does, with a new collector of its own kind or the one found in the registry.
   */
  lemma OutcomeOfCall(run: seq<Call>, h: nat, j: nat)
    requires h <= j < |run| && FirstFor(run, h, run[j].name)
    ensures run[j].labelNames != run[h].labelNames ==> Result(run, j) == None
    ensures run[j].labelNames == run[h].labelNames ==>
              forall i :: 0 <= i < j && run[i].name == run[j].name && Result(run, i).Some? ==>
                Result(run, j) == if Asserts(Result(run, i).value, run[j].kind) then Result(run, i) else None
    ensures run[j].labelNames == run[h].labelNames && NoneYet(run, j) ==>
              && (Result(run, j).Some? <==> Registers(run[j]))
              && (run[j].registration.Accepted? ==> Result(run, j).value.kind == run[j].kind)
              && (run[j].registration.AlreadyRegistered? && Result(run, j).Some? ==>
                    Result(run, j).value == run[j].registration.existing)
  {
    var t, c := Exec(run[..j]), run[j];
    if h < j {
      LabelsBound(run, h, j);
    } else {
      NameUnseen(run[..j], c.name);
      RunExtends(run[..j], 0);
    }
    forall i | 0 <= i < j && run[i].name == c.name && Result(run, i).Some?
      ensures c.name in t.collectors && Some(t.collectors[c.name]) == Result(run, i)
    {
      SuccessIsRecorded(run, i, j);
    }
    if NoneYet(run, j) && c.name in t.collectors {
      var i := RecordedByCall(run, j, c.name);
      assert false;
    }
  }

  /** A call that repeats a successful one returns the same collector. */
  lemma RepeatedCallSucceeds(run: seq<Call>, i: nat, j: nat)
    requires i < j < |run| && Result(run, i).Some?
    requires run[j].name == run[i].name && run[j].kind == run[i].kind && run[j].labelNames == run[i].labelNames
    ensures Result(run, j) == Result(run, i)
  {
    SuccessIsRecorded(run, i, j);
  }

  lemma {:induction false} MadeGrows(run: seq<Call>, n: nat)
    requires n <= |run|
    ensures Exec(run[..n]).made <= Exec(run).made
    decreases |run|
  {
    if n == |run| {
      assert run[..n] == run;
    } else {
      MadeGrows(run[..|run| - 1], n);
      assert run[..|run| - 1][..n] == run[..n];
    }
  }

  /** Collectors made for different names are different. */
  lemma NewCollectorsDiffer(run: seq<Call>, i: nat, j: nat)
    requires i < j < |run| && run[i].name != run[j].name && NoneYet(run, i) && NoneYet(run, j)
    requires run[i].registration.Accepted? && run[j].registration.Accepted? && Result(run, i).Some? &&
      Result(run, j).Some?
    ensures Result(run, i) != Result(run, j)
  {
    NewIsNumbered(run, i);
    NewIsNumbered(run, j);
    var upTo := run[..i + 1];
    assert upTo == run[..i] + [run[i]];
    MadeGrows(run[..j], i + 1);
    assert run[..j][..i + 1] == upTo;
  }

  lemma NewIsNumbered(run: seq<Call>, j: nat)
    requires j < |run| && NoneYet(run, j) && run[j].registration.Accepted? && Result(run, j).Some?
    ensures Result(run, j).value.id == Exec(run[..j]).made < Exec(run[..j] + [run[j]]).made
  {
    assert (run[..j] + [run[j]])[..j] == run[..j];
    if run[j].name in Exec(run[..j]).collectors {
      var i := RecordedByCall(run, j, run[j].name);
      assert false;
    }
  }

  /** A registration that fails, and a name that is lost to everybody who wants other labels. */
  lemma FailureBlocksName()
    ensures var run := [Call(CounterVec, "m", ["a"], Refused), Call(CounterVec, "m", ["b"], Accepted)];
            Result(run, 0) == None && Result(run, 1) == None && Exec(run).collectors == map[]
  {
    var run := [Call(CounterVec, "m", ["a"], Refused), Call(CounterVec, "m", ["b"], Accepted)];
    assert run[..1] == [run[0]];
    assert run[..1][..0] == [] && run[..0] == [];
    FirstCallFixesLabels(run, 0, 1);
  }

  lemma {:induction false} NameUnseen(run: seq<Call>, name: string)
    requires forall n :: 0 <= n < |run| ==> run[n].name != name
    ensures name !in Exec(run).metricLabels
    decreases |run|
  {
    if run != [] {
      NameUnseen(run[..|run| - 1], name);
    }
  }
}
