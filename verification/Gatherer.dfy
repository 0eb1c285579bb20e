/**
 The multi-tenant gatherer: whatever order a map iteration takes, the tenants are gathered in sorted order, and they
 fit together.
*/
module Gatherer {
  import opened Domain
  import F = MetricFactory
  import T = MetricsTracker

  // ---- string order ----

  predicate Below(a: string, b: string) {
    a == [] || (b != [] && (a[0] < b[0] || (a[0] == b[0] && Below(a[1..], b[1..]))))
  }

  /** At the first place where they differ, `a` has the smaller character. */
  ghost predicate SmallerAt(a: string, b: string, i: nat) {
    i < |a| && i < |b| && a[..i] == b[..i] && a[i] < b[i]
  }

  lemma SmallerBehind(a: string, b: string, i: nat)
    requires a != [] && b != [] && a[0] == b[0]
    ensures SmallerAt(a[1..], b[1..], i) <==> SmallerAt(a, b, i + 1)
  {
    if i < |a| - 1 && i < |b| - 1 {
      assert a[..i + 1] == [a[0]] + a[1..][..i];
      assert b[..i + 1] == [b[0]] + b[1..][..i];
      assert a[..i + 1][1..] == a[1..][..i] && b[..i + 1][1..] == b[1..][..i];
    }
  }

  /** The order is the lexicographic one: a prefix comes first, and otherwise the first difference decides. */
  lemma {:induction false} BelowIsLexicographic(a: string, b: string)
    ensures Below(a, b) <==> a <= b || exists i: nat :: SmallerAt(a, b, i)
    decreases |a|
  {
    if a != [] && b != [] {
      if a[0] == b[0] {
        BelowIsLexicographic(a[1..], b[1..]);
        assert a <= b <==> a[1..] <= b[1..] by {
          assert a == [a[0]] + a[1..] && b == [b[0]] + b[1..];
        }
        SameFirst(a, b);
      } else if a[0] < b[0] {
        assert SmallerAt(a, b, 0);
      } else {
        forall i: nat ensures !SmallerAt(a, b, i) {
          if i > 0 && i < |a| && i < |b| {
            assert a[..i][0] != b[..i][0];
          }
        }
      }
    }
  }

  lemma SameFirst(a: string, b: string)
    requires a != [] && b != [] && a[0] == b[0]
    ensures (exists i: nat :: SmallerAt(a[1..], b[1..], i)) <==> exists i: nat :: SmallerAt(a, b, i)
  {
    if i: nat :| SmallerAt(a[1..], b[1..], i) {
      SmallerBehind(a, b, i);
    }
    if i: nat :| SmallerAt(a, b, i) {
      assert i > 0;
      SmallerBehind(a, b, i - 1);
    }
  }

  lemma {:induction false} BelowTotal(a: string, b: string)
    ensures Below(a, b) || Below(b, a)
    ensures Below(a, b) && Below(b, a) ==> a == b
  {
    if a != [] && b != [] {
      BelowTotal(a[1..], b[1..]);
      if a[0] == b[0] && a[1..] == b[1..] {
        assert a == [a[0]] + a[1..] && b == [b[0]] + b[1..];
      }
    }
  }

  lemma {:induction false} BelowTransitive(a: string, b: string, c: string)
    requires Below(a, b) && Below(b, c)
    ensures Below(a, c)
  {
    if a != [] && a[0] == b[0] && b[0] == c[0] {
      BelowTransitive(a[1..], b[1..], c[1..]);
    }
  }

  ghost predicate Sorted(s: seq<string>) {
    forall i, j :: 0 <= i < j < |s| ==> Below(s[i], s[j])
  }

  lemma FirstIsLeast(s: seq<string>, uids: set<string>)
    requires Enumerates(s, uids) && Sorted(s) && s != []
    ensures s[0] in uids && forall x :: x in uids ==> Below(s[0], x)
    ensures Enumerates(s[1..], uids - {s[0]}) && Sorted(s[1..])
  {
    BelowTotal(s[0], s[0]);
    forall x ensures x in s[1..] <==> x in uids - {s[0]} {
      assert s == [s[0]] + s[1..];
    }
  }

  /** A set of tenants has one sorted listing, so the order of the gatherers does not depend on the map iteration. */
  lemma {:induction false} SortedListingUnique(a: seq<string>, b: seq<string>, uids: set<string>)
    requires Enumerates(a, uids) && Sorted(a) && Enumerates(b, uids) && Sorted(b)
    ensures a == b
    decreases |a|
  {
    assert a != [] ==> a[0] in a && a[0] in b;
    assert b != [] ==> b[0] in b && b[0] in a;
    if a != [] {
      FirstIsLeast(a, uids);
      FirstIsLeast(b, uids);
      BelowTotal(a[0], b[0]);
      SortedListingUnique(a[1..], b[1..], uids - {a[0]});
      assert a == [a[0]] + a[1..] && b == [b[0]] + b[1..];
    }
  }

  // ---- the gatherer as it is written ----

  /** The place of `x` in a sorted listing. */
  method Insert(s: seq<string>, x: string, ghost uids: set<string>) returns (r: seq<string>)
    requires Enumerates(s, uids) && Sorted(s) && x !in uids
    ensures Enumerates(r, uids + {x}) && Sorted(r)
  {
    var i := 0;
    while i < |s| && Below(s[i], x)
      invariant 0 <= i <= |s|
      invariant forall j :: 0 <= j < i ==> Below(s[j], x)
    {
      i := i + 1;
    }
    forall j | i <= j < |s| ensures Below(x, s[j]) {
      BelowTotal(s[i], x);
      if i < j {
        BelowTransitive(x, s[i], s[j]);
      }
    }
    assert forall y :: y in s[..i] || y in s[i..] <==> y in s by {
      assert s == s[..i] + s[i..];
    }
    r := s[..i] + [x] + s[i..];
  }

  class MultiGatherer<G> {
    var gatherers: map<string, G>

    constructor ()
      ensures gatherers == map[]
    {
      gatherers := map[];
    }

    method Register(tenantUID: string, g: G) returns (err: bool)
      modifies this
      ensures err <==> tenantUID in old(gatherers)
      ensures gatherers == if err then old(gatherers) else old(gatherers)[tenantUID := g]
    {
      if tenantUID in gatherers {
        return true;
      }
      gatherers := gatherers[tenantUID := g];
      err := false;
    }

    method Unregister(tenantUID: string)
      modifies this
      ensures gatherers == old(gatherers) - {tenantUID}
    {
      gatherers := gatherers - {tenantUID};
    }

    /**
     The tenants' gatherers in the order of their UIDs. The keys come out of the map in any order; sorting is the
     library's part, and an insertion stands in for it.
     */
    method Gatherers() returns (list: seq<G>, tenantUIDs: seq<string>)
      ensures Enumerates(tenantUIDs, gatherers.Keys) && Sorted(tenantUIDs)
      ensures |list| == |tenantUIDs| && forall i :: 0 <= i < |list| ==> list[i] == gatherers[tenantUIDs[i]]
    {
      tenantUIDs := [];
      var rest := gatherers.Keys;
      while rest != {}
        invariant rest <= gatherers.Keys && Enumerates(tenantUIDs, gatherers.Keys - rest) && Sorted(tenantUIDs)
        decreases rest
      {
        var uid :| uid in rest;
        tenantUIDs := Insert(tenantUIDs, uid, gatherers.Keys - rest);
        rest := rest - {uid};
        assert gatherers.Keys - rest == gatherers.Keys - (rest + {uid}) + {uid};
      }
      assert gatherers.Keys - rest == gatherers.Keys;
      list := [];
      for i := 0 to |tenantUIDs|
        invariant |list| == i && forall j :: 0 <= j < i ==> list[j] == gatherers[tenantUIDs[j]]
      {
        assert tenantUIDs[i] in gatherers.Keys;
        list := list + [gatherers[tenantUIDs[i]]];
      }
    }
  }

  // ---- what the tenants' registries show ----

  /** A series as it is scraped. */
  datatype Series = Series(id: F.Id, labelNames: seq<string>, labelValues: seq<string>)

  function LabelsOf(s: F.State, f: nat, id: F.Id): seq<string> {
    if id in F.RegistryOf(s, f) then F.RegistryOf(s, f)[id].labelNames else []
  }

  /** What gathering the registry of factory `f` shows. */
  function SeriesOf(s: F.State, f: nat): set<Series> {
    set c | c in s.children && c.factory == f :: Series(c.id, LabelsOf(s, f, c.id), c.labelValues)
  }

  /** Prometheus merges two families of one name if type and help agree and no series occurs twice. */
  predicate Merges(a: F.LocalVec, b: F.LocalVec) {
    a.kind == b.kind && a.help == b.help
  }

  /**
   Whatever any number of factories did with one tracker: families of one name agree on type and labels, constant ones
   aside, so that they can be merged if and only if their help texts agree.
   */
  lemma FamiliesFitTogether(uid: nat -> string, run: seq<F.Action>, f: nat, g: nat, a: F.Id, b: F.Id)
    requires F.WellFormed(run) && a.name == b.name
    requires a in F.RegistryOf(F.Exec(uid, run), f) && b in F.RegistryOf(F.Exec(uid, run), g)
    ensures var x, y := F.RegistryOf(F.Exec(uid, run), f)[a], F.RegistryOf(F.Exec(uid, run), g)[b];
            && x.kind == y.kind && x.labelNames == y.labelNames
            && (Merges(x, y) <==> x.help == y.help)
  {
    F.Reachable(uid, run);
    var s := F.Exec(uid, run);
    assert f in s.registries && F.Approved(s.tracker, a.name, F.RegistryOf(s, f)[a]);
    assert g in s.registries && F.Approved(s.tracker, b.name, F.RegistryOf(s, g)[b]);
  }

  /** Every series that a factory's registry ever shows ends in the tenant label, with the tenant of the factory. */
  lemma SeriesCarryTenant(uid: nat -> string, run: seq<F.Action>, f: nat, x: Series)
    requires F.WellFormed(run) && x in SeriesOf(F.Exec(uid, run), f)
    ensures |x.labelNames| == |x.labelValues| > 0
    ensures x.labelNames[|x.labelNames| - 1] == F.TENANT_LABEL && x.labelValues[|x.labelValues| - 1] == uid(f)
  {
    F.Reachable(uid, run);
    var s := F.Exec(uid, run);
    var c :| c in s.children && c.factory == f && x == Series(c.id, LabelsOf(s, f, c.id), c.labelValues);
    assert F.Rooted(uid, s, c);
    assert f in s.registries && F.Approved(s.tracker, c.id.name, F.RegistryOf(s, f)[c.id]);
  }

  /** So no run makes two factories of different tenants show the same series. */
  lemma TenantsAreDisjoint(uid: nat -> string, run: seq<F.Action>, f: nat, g: nat)
    requires F.WellFormed(run) && uid(f) != uid(g)
    ensures SeriesOf(F.Exec(uid, run), f) !! SeriesOf(F.Exec(uid, run), g)
  {
    forall x | x in SeriesOf(F.Exec(uid, run), f) && x in SeriesOf(F.Exec(uid, run), g) ensures false {
      SeriesCarryTenant(uid, run, f, x);
      SeriesCarryTenant(uid, run, g, x);
    }
  }

  /** A request for a counter without constant labels. */
  function CounterRequest(name: string, help: string): F.Request {
    F.Request(T.Call(T.Counter, name, [], T.Accepted), help, map[])
  }

  /** A factory's first metric is a counter, made by the tracker or found there. */
  lemma CounterIsMade(uid: nat -> string, s: F.State, f: nat, name: string, help: string)
    requires F.RegistryOf(s, f) == map[] && T.GetOrCreate(s.tracker, CounterRequest(name, help).call).1.Some?
    ensures var r := CounterRequest(name, help);
            var s' := F.Step(uid, s, F.Make(f, r));
            && s'.tracker == T.GetOrCreate(s.tracker, r.call).0
            && F.RegistryOf(s', f) == map[F.Id(name, map[]) := F.LocalFor(r)]
            && (forall g :: g != f ==> F.RegistryOf(s', g) == F.RegistryOf(s, g))
  {
    var r := CounterRequest(name, help);
    F.OneNameDoesNotRepeat(F.TENANT_LABEL);
    assert F.Register(F.RegistryOf(s, f), F.IdOf(r), F.LocalFor(r)) == F.Accepted;
  }

  /** Two tenants that describe one counter in different words: both succeed, and their families cannot be merged. */
  lemma HelpTextsClash(uid: nat -> string, name: string, one: string, two: string)
    requires one != two
    ensures var s := F.Step(uid, F.START, F.Make(0, CounterRequest(name, one)));
            var t := F.Step(uid, s, F.Make(1, CounterRequest(name, two)));
            var id := F.Id(name, map[]);
            && id in F.RegistryOf(t, 0) && id in F.RegistryOf(t, 1)
            && !Merges(F.RegistryOf(t, 0)[id], F.RegistryOf(t, 1)[id])
  {
    var s := F.Step(uid, F.START, F.Make(0, CounterRequest(name, one)));
    CounterIsMade(uid, F.START, 0, name, one);
    CounterIsMade(uid, s, 1, name, two);
  }
}
