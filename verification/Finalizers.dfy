/** What the manager does to finalizers on the server, over every run and among any other writers. */
module Finalizers {
  import opened Domain
  import opened Lifecycle
  import S = ApiServer
  import M = MutualExclusion
  import C = StopChannels
  import V = Convergence
  import Shutdown

  // ---- where objects in memory come from ----

  /** A snapshot is a published version, possibly marked with the manager's finalizer since. */
  ghost predicate Genuine(server: S.Server, cell: Snapshot, own: string) {
    && cell.original in server.published
    && (cell.pc == cell.original ||
        (own !in cell.original.finalizers &&
         cell.pc == cell.original.(finalizers := cell.original.finalizers + [own])))
  }

  ghost predicate AllGenuine(t: World, own: string) {
    forall o: ObjId :: o < |t.inf.heap| ==> Genuine(t.server, t.inf.heap[o], own)
  }

  ghost predicate MarkedHere(cell: Snapshot, own: string) {
    own !in cell.original.finalizers && own in cell.pc.finalizers
  }

  /**
   What a worker holds: its object is named after its key, and what it fetched has been published with the finalizer.
   */
  ghost predicate StageOk(own: string, t: World, k: Key, p: Stage) {
    && (!p.Lookup? && !p.Finish? && !p.Release? ==> p.obj < |t.inf.heap| && t.inf.heap[p.obj].pc.name == k)
    && (p.StartWrite? ==> MarkedHere(t.inf.heap[p.obj], own))
    && (p.RollbackWrite? || p.StopWrite? ==>
          p.latest in t.server.published && p.latest.name == k && own in p.latest.finalizers)
  }

  ghost predicate Traced(s: State) {
    && S.Valid(s.world.server)
    && AllGenuine(s.world, s.own)
    && (forall w :: 0 <= w < |s.workers| && s.workers[w].Busy? ==>
          StageOk(s.own, s.world, s.workers[w].key, s.workers[w].stage))
  }

  ghost predicate Inv(s: State) {
    V.Inv(s) && Traced(s)
  }

  // ---- one write ----

  /** The stored objects differ at `k` at most, and nothing published is forgotten. */
  ghost predicate OnlyAt(a: S.Server, b: S.Server, k: Key) {
    && a.published <= b.published
    && (forall x :: x != k ==> (x in a.objects <==> x in b.objects))
    && (forall x :: x != k && x in a.objects && x in b.objects ==> a.objects[x] == b.objects[x])
  }

  /** The manager's finalizer is appended to what is stored, and nothing else changes. */
  ghost predicate Appends(a: S.Server, b: S.Server, k: Key, own: string) {
    && k in a.objects && k in b.objects && own !in a.objects[k].finalizers
    && b.objects[k] == a.objects[k].(finalizers := a.objects[k].finalizers + [own], version := a.next)
  }

  /**
   Every occurrence of the manager's finalizer is removed; an object whose deletion waited for nothing else goes away.
   */
  ghost predicate Removes(a: S.Server, b: S.Server, k: Key, own: string) {
    && k in a.objects && own in a.objects[k].finalizers
    && var rest := Without(a.objects[k].finalizers, own);
       if a.objects[k].terminating && rest == [] then k !in b.objects
       else k in b.objects && b.objects[k] == a.objects[k].(finalizers := rest, version := a.next)
  }

  /** An update computed from a published version is accepted only while that version is the stored one. */
  lemma AcceptedMeansCurrent(server: S.Server, base: Object, o: Object)
    requires S.Valid(server) && base in server.published && base.name == o.name && base.version == o.version
    requires S.Accepts(server, o)
    ensures server.objects[o.name] == base
  {
  }

  lemma UpdateKeepsValid(server: S.Server, o: Object, reply: S.Reply)
    requires S.Valid(server)
    ensures S.Valid(S.Update(server, o, reply).0) && OnlyAt(server, S.Update(server, o, reply).0, o.name)
  {
    S.StoreKeepsValid(server, o);
  }

  /** A write of `w` to the server is one of the two. */
  ghost predicate OwnWrite(own: string, a: S.Server, b: S.Server, k: Key, p: Stage) {
    && OnlyAt(a, b, k)
    && (b == a || (p.StartWrite? && Appends(a, b, k, own)) ||
         ((p.RollbackWrite? || p.StopWrite?) && Removes(a, b, k, own)))
  }

  lemma StartWrites(own: string, t: World, k: Key, p: Stage, reply: S.Reply)
    requires S.Valid(t.server) && p.StartWrite? && StageOk(own, t, k, p) && Genuine(t.server, t.inf.heap[p.obj], own)
    ensures var server := S.Update(t.server, t.inf.heap[p.obj].pc, reply).0;
            S.Valid(server) && OwnWrite(own, t.server, server, k, p)
  {
    var cell := t.inf.heap[p.obj];
    UpdateKeepsValid(t.server, cell.pc, reply);
    if S.Accepts(t.server, cell.pc) {
      AcceptedMeansCurrent(t.server, cell.original, cell.pc);
    }
  }

  lemma ReleaseWrites(own: string, t: World, k: Key, p: Stage, reply: S.Reply)
    requires S.Valid(t.server) && (p.RollbackWrite? || p.StopWrite?) && StageOk(own, t, k, p)
    ensures var server := S.Update(t.server, Released(p.latest, own), reply).0;
            S.Valid(server) && OwnWrite(own, t.server, server, k, p)
  {
    var o := Released(p.latest, own);
    UpdateKeepsValid(t.server, o, reply);
    if S.Accepts(t.server, o) {
      AcceptedMeansCurrent(t.server, p.latest, o);
    }
  }

  lemma StatementWrites(own: string, t: World, k: Key, p: Stage, c: Choice)
    requires S.Valid(t.server) && InBounds(t, p) && StageOk(own, t, k, p)
    requires p.StartWrite? ==> Genuine(t.server, t.inf.heap[p.obj], own)
    ensures var t' := SyncStep(own, t, k, p, c).1; S.Valid(t'.server) && OwnWrite(own, t.server, t'.server, k, p)
  {
    if p.StartWrite? {
      StartWrites(own, t, k, p, c.reply);
    } else if p.RollbackWrite? || p.StopWrite? {
      ReleaseWrites(own, t, k, p, c.reply);
    }
  }

  /** Only objects named `k` are touched in memory, and no object is renamed. */
  ghost predicate OnlyNamed(inf: Informer, inf': Informer, k: Key) {
    && |inf'.heap| == |inf.heap|
    && (forall o: ObjId :: o < |inf.heap| && inf.heap[o].pc.name != k ==> inf'.heap[o] == inf.heap[o])
    && (forall o: ObjId :: o < |inf.heap| ==> inf'.heap[o].pc.name == inf.heap[o].pc.name)
  }

  lemma StatementMarks(own: string, t: World, k: Key, p: Stage, c: Choice)
    requires InBounds(t, p) && StageOk(own, t, k, p) && AllGenuine(t, own)
    requires t.server.published <= SyncStep(own, t, k, p, c).1.server.published
    ensures var t' := SyncStep(own, t, k, p, c).1; AllGenuine(t', own) && OnlyNamed(t.inf, t'.inf, k)
  {
    var t' := SyncStep(own, t, k, p, c).1;
    if p.StartEnsure? {
      assert t'.server == t.server;
      assert t'.inf == t.inf || t'.inf == Marked(t.inf, p.obj, own);
    } else {
      assert t'.inf == t.inf;
    }
  }

  lemma FetchHolds(own: string, t: World, k: Key, p: Stage, c: Choice)
    requires S.Valid(t.server) && (p.RollbackGet? || p.StopGet?) && StageOk(own, t, k, p)
    ensures StageOk(own, t, k, SyncStep(own, t, k, p, c).0)
  {
    if k in t.server.objects {
      WithoutShrinksIffPresent(t.server.objects[k].finalizers, own);
    }
  }

  /** The next stage again holds what it should. */
  lemma StatementHolds(own: string, t: World, k: Key, p: Stage, c: Choice)
    requires S.Valid(t.server) && InBounds(t, p) && StageOk(own, t, k, p) && AllGenuine(t, own)
    ensures StageOk(own, SyncStep(own, t, k, p, c).1, k, SyncStep(own, t, k, p, c).0)
  {
    if p.RollbackGet? || p.StopGet? {
      FetchHolds(own, t, k, p, c);
    } else if p.StartEnsure? {
      EnsureHolds(own, t, k, p, c);
    } else {
      StageHolds(own, t, k, p, c);
    }
  }

  lemma EnsureHolds(own: string, t: World, k: Key, p: Stage, c: Choice)
    requires InBounds(t, p) && StageOk(own, t, k, p) && AllGenuine(t, own) && p.StartEnsure?
    ensures StageOk(own, SyncStep(own, t, k, p, c).1, k, SyncStep(own, t, k, p, c).0)
  {
    assert Genuine(t.server, t.inf.heap[p.obj], own);
  }

  lemma StageHolds(own: string, t: World, k: Key, p: Stage, c: Choice)
    requires InBounds(t, p) && StageOk(own, t, k, p) && !p.RollbackGet? && !p.StopGet? && !p.StartEnsure?
    ensures StageOk(own, SyncStep(own, t, k, p, c).1, k, SyncStep(own, t, k, p, c).0)
  {
  }

  // ---- every step ----

  lemma BusyStepKeeps(s: State, w: nat, c: Choice)
    requires Traced(s) && M.Exclusive(s) && w < |s.workers| && s.workers[w].Busy?
    ensures Traced(BusyStep(s, w, c))
  {
    var Busy(k, p) := s.workers[w];
    if !p.Finish? && !p.Release? && InBounds(s.world, p) {
      StatementWrites(s.own, s.world, k, p, c);
      StatementMarks(s.own, s.world, k, p, c);
      StatementHolds(s.own, s.world, k, p, c);
      var (p', t') := SyncStep(s.own, s.world, k, p, c);
      OthersHold(s, w, p', t');
    }
  }

  lemma OthersHold(s: State, w: nat, p': Stage, t': World)
    requires Traced(s) && M.Exclusive(s) && w < |s.workers| && s.workers[w].Busy?
    requires S.Valid(t'.server) && s.world.server.published <= t'.server.published
    requires AllGenuine(t', s.own) && OnlyNamed(s.world.inf, t'.inf, s.workers[w].key)
    requires StageOk(s.own, t', s.workers[w].key, p')
    ensures Traced(At(s, w, Busy(s.workers[w].key, p')).(world := t'))
  {
    var k := s.workers[w].key;
    assert M.Holds(s, w, k);
    forall v | 0 <= v < |s.workers| && v != w && s.workers[v].Busy?
      ensures StageOk(s.own, t', s.workers[v].key, s.workers[v].stage)
    {
      assert M.Holds(s, v, s.workers[v].key);
      assert s.workers[v].key != k;
    }
  }

  lemma WriterKeepsValid(server: S.Server, a: Action)
    requires S.Valid(server)
    ensures S.Valid(WriterStep(server, a)) && server.published <= WriterStep(server, a).published
  {
    match a
    case Create(o) => S.StoreKeepsValid(server, o.(terminating := false));
    case Delete(k) =>
      if k in server.objects {
        S.StoreKeepsValid(server, server.objects[k].(terminating := true));
      }
    case Modify(k, finalizers) =>
      if k in server.objects {
        S.StoreKeepsValid(server, server.objects[k].(finalizers := finalizers));
      }
    case _ =>
  }

  /** The informer keeps the objects it has in memory, and adds only published ones. */
  lemma InformerGrows(t: World, a: Action, own: string)
    requires AllGenuine(t, own)
    ensures AllGenuine(t.(inf := InformerStep(t, a)), own) && t.inf.heap <= InformerStep(t, a).heap
  {
  }

  lemma GenuineGrows(t: World, server: S.Server, own: string)
    requires AllGenuine(t, own) && t.server.published <= server.published
    ensures AllGenuine(t.(server := server), own)
  {
  }

  lemma StageOkGrows(own: string, t: World, t': World, k: Key, p: Stage)
    requires StageOk(own, t, k, p) && t.inf.heap <= t'.inf.heap && t.server.published <= t'.server.published
    ensures StageOk(own, t', k, p)
  {
  }

  /** What anything but a worker does to the world. */
  lemma OutsideWorld(s: State, a: Action)
    requires !a.Work?
    ensures Step(s, a).own == s.own
    ensures Step(s, a).world == s.world ||
            Step(s, a).world == s.world.(inf := InformerStep(s.world, a), server := WriterStep(s.world.server, a))
    ensures forall w :: 0 <= w < |Step(s, a).workers| && Step(s, a).workers[w].Busy? ==>
              w < |s.workers| && Step(s, a).workers[w] == s.workers[w]
  {
  }

  lemma OutsideKeeps(s: State, a: Action)
    requires Traced(s) && !a.Work?
    ensures Traced(Step(s, a))
  {
    var s' := Step(s, a);
    OutsideWorld(s, a);
    WriterKeepsValid(s.world.server, a);
    InformerGrows(s.world, a, s.own);
    GenuineGrows(s.world.(inf := InformerStep(s.world, a)), WriterStep(s.world.server, a), s.own);
    forall w | 0 <= w < |s'.workers| && s'.workers[w].Busy?
      ensures StageOk(s.own, s'.world, s'.workers[w].key, s'.workers[w].stage)
    {
      StageOkGrows(s.own, s.world, s'.world, s.workers[w].key, s.workers[w].stage);
    }
  }

  lemma StepKeeps(s: State, a: Action)
    requires Inv(s)
    ensures Inv(Step(s, a))
  {
    V.StepKeeps(s, a);
    TracedStep(s, a);
  }

  lemma TracedStep(s: State, a: Action)
    requires Traced(s) && M.Exclusive(s)
    ensures Traced(Step(s, a))
  {
    if !a.Work? {
      OutsideKeeps(s, a);
    } else if a.w < |s.workers| && s.workers[a.w].Busy? {
      BusyStepKeeps(s, a.w, a.choice);
    }
  }

  lemma InitHolds(own: string, workers: nat)
    ensures Inv(Init(own, workers))
  {
    V.InitHolds(own, workers);
  }

  lemma {:induction false} Reachable(own: string, workers: nat, run: seq<Action>)
    ensures Inv(Exec(Init(own, workers), run))
    decreases |run|
  {
    if run == [] {
      InitHolds(own, workers);
    } else {
      Reachable(own, workers, run[..|run| - 1]);
      StepKeeps(Exec(Init(own, workers), run[..|run| - 1]), run[|run| - 1]);
    }
  }

  // ---- theorem: other finalizers are conserved ----

  /**
   From `a` to `b`, the finalizers of `k` other than `own` keep their order and number, `own` is appended once or
   removed altogether if anything changes, and the object disappears only when its deletion waits for nothing else.
   */
  ghost predicate Conserves(a: S.Server, b: S.Server, k: Key, own: string) {
    && (k in b.objects ==> k in a.objects)
    && (k in a.objects && k !in b.objects ==> a.objects[k].terminating && Without(a.objects[k].finalizers, own) == [])
    && (k in a.objects && k in b.objects ==>
         (var before, after := a.objects[k].finalizers, b.objects[k].finalizers;
          && Without(after, own) == Without(before, own)
          && b.objects[k].terminating == a.objects[k].terminating
          && (after == before || (own !in before && after == before + [own]) ||
               (own in before && after == Without(before, own)))))
  }

  lemma OwnWriteConserves(a: S.Server, b: S.Server, key: Key, p: Stage, k: Key, own: string)
    requires S.Valid(a) && OwnWrite(own, a, b, key, p)
    ensures Conserves(a, b, k, own)
  {
    if k in a.objects {
      WithoutConcat(a.objects[k].finalizers, [own], own);
      WithoutIdempotent(a.objects[k].finalizers, own);
    }
  }

  ghost predicate SameObject(a: S.Server, b: S.Server, k: Key) {
    (k in a.objects <==> k in b.objects) && (k in a.objects ==> b.objects[k] == a.objects[k])
  }

  lemma StatementConserves(own: string, t: World, key: Key, p: Stage, c: Choice, k: Key)
    requires S.Valid(t.server) && InBounds(t, p) && StageOk(own, t, key, p)
    requires p.StartWrite? ==> Genuine(t.server, t.inf.heap[p.obj], own)
    ensures Conserves(t.server, SyncStep(own, t, key, p, c).1.server, k, own)
    ensures k != key ==> SameObject(t.server, SyncStep(own, t, key, p, c).1.server, k)
  {
    StatementWrites(own, t, key, p, c);
    OwnWriteConserves(t.server, SyncStep(own, t, key, p, c).1.server, key, p, k, own);
  }

  lemma StepConserves(s: State, w: nat, c: Choice, k: Key)
    requires Traced(s)
    ensures Conserves(s.world.server, Step(s, Work(w, c)).world.server, k, s.own)
    ensures !M.Holds(s, w, k) ==> SameObject(s.world.server, Step(s, Work(w, c)).world.server, k)
  {
    if w < |s.workers| && s.workers[w].Busy? {
      var Busy(key, p) := s.workers[w];
      if !p.Finish? && !p.Release? && InBounds(s.world, p) {
        StatementConserves(s.own, s.world, key, p, c, k);
        assert Step(s, Work(w, c)).world == SyncStep(s.own, s.world, key, p, c).1;
      } else {
        assert Step(s, Work(w, c)).world == s.world;
      }
    }
  }

  /**
   Whatever else is written to the server meanwhile, a step of a worker conserves the finalizers of others on the
   object of its key, and changes no other object.
   */
  lemma OthersConserved(own: string, workers: nat, run: seq<Action>, w: nat, c: Choice, k: Key)
    ensures var s := Exec(Init(own, workers), run);
            && Conserves(s.world.server, Step(s, Work(w, c)).world.server, k, own)
            && (!M.Holds(s, w, k) ==> SameObject(s.world.server, Step(s, Work(w, c)).world.server, k))
  {
    Reachable(own, workers, run);
    OwnFixed(Init(own, workers), run);
    StepConserves(Exec(Init(own, workers), run), w, c, k);
  }

  lemma {:induction false} OwnFixed(s: State, run: seq<Action>)
    ensures Exec(s, run).own == s.own
    decreases |run|
  {
    if run != [] {
      OwnFixed(s, run[..|run| - 1]);
    }
  }

  // ---- theorem: exactly when no controller runs without its finalizer ----

  /** While a channel of `k` is open, the server has the object and it lists the finalizer: deletion waits. */
  ghost predicate Secured(s: State) {
    forall k :: C.Open(s.world.reg, k) != {} ==> S.Carries(s.world.server, k, s.own)
  }

  /** The other writers leave the manager's finalizer as it is, and create objects without it. */
  predicate Respectful(s: State, a: Action) {
    match a
    case Create(o) => o.name in s.world.server.objects || s.own !in o.finalizers
    case Modify(k, finalizers) =>
      k in s.world.server.objects ==> (s.own in finalizers <==> s.own in s.world.server.objects[k].finalizers)
    case _ => true
  }

  /**
   A start that succeeds after the guard let it through on a snapshot that lists the finalizer although the server's
   object did not.
   */
  predicate BlindStart(s: State, a: Action) {
    && a.Work? && a.w < |s.workers| && s.workers[a.w].Busy?
    && s.workers[a.w].stage.StartCall? && s.workers[a.w].stage.blind && a.choice.start.Channel?
  }

  /** `blind` still says that the server lacks the finalizer when the starter is called. */
  ghost predicate Truthful(own: string, t: World, k: Key, p: Stage) {
    p.StartCall? ==> (p.blind <==> !S.Carries(t.server, k, own))
  }

  ghost predicate Sighted(s: State) {
    forall w :: 0 <= w < |s.workers| && s.workers[w].Busy? ==>
      Truthful(s.own, s.world, s.workers[w].key, s.workers[w].stage)
  }

  ghost predicate SameCarriers(a: S.Server, b: S.Server, own: string) {
    forall k :: S.Carries(a, k, own) <==> S.Carries(b, k, own)
  }

  lemma OutsideSameCarriers(s: State, a: Action)
    requires S.Valid(s.world.server) && !a.Work? && Respectful(s, a)
    ensures SameCarriers(s.world.server, Step(s, a).world.server, s.own)
  {
  }

  /** Between the guard and the starter call, the finalizer of the key is put on, if at all, by this sync. */
  lemma StatementSees(own: string, t: World, k: Key, p: Stage, c: Choice)
    requires S.Valid(t.server) && InBounds(t, p) && StageOk(own, t, k, p) && AllGenuine(t, own)
    ensures var (p', t') := SyncStep(own, t, k, p, c); Truthful(own, t', k, p')
  {
    if p.StartWrite? {
      WriteSees(own, t, k, p, c);
    } else if !p.StartEnsure? {
      assert !SyncStep(own, t, k, p, c).0.StartCall?;
    }
  }

  lemma WriteSees(own: string, t: World, k: Key, p: Stage, c: Choice)
    requires S.Valid(t.server) && InBounds(t, p) && StageOk(own, t, k, p) && AllGenuine(t, own) && p.StartWrite?
    ensures var (p', t') := SyncStep(own, t, k, p, c); Truthful(own, t', k, p')
  {
    StartWrites(own, t, k, p, c.reply);
  }

  /** A statement moves the finalizer of its own key only, and takes it off only when nothing is open. */
  lemma StatementSecures(own: string, t: World, k: Key, p: Stage, c: Choice)
    requires S.Valid(t.server) && InBounds(t, p) && StageOk(own, t, k, p) && AllGenuine(t, own)
    requires C.KeyOk(t.reg, k, Some(p))
    ensures var t' := SyncStep(own, t, k, p, c).1;
            && (forall x :: x != k ==> (S.Carries(t'.server, x, own) <==> S.Carries(t.server, x, own)))
            && (C.Open(t.reg, k) != {} && S.Carries(t.server, k, own) ==> S.Carries(t'.server, k, own))
  {
    StatementWrites(own, t, k, p, c);
    if p.RollbackWrite? || p.StopWrite? {
      assert C.Open(t.reg, k) == {};
    }
  }

  /** What the steps below need of the registry. */
  ghost predicate Held(s: State, w: nat) {
    && w < |s.workers| && s.workers[w].Busy? && InBounds(s.world, s.workers[w].stage)
    && C.Owned(s.world.reg) && C.KeyOk(s.world.reg, s.workers[w].key, Some(s.workers[w].stage))
    && M.Exclusive(s)
  }

  lemma InvHolds(s: State, w: nat)
    requires V.Inv(s) && w < |s.workers| && s.workers[w].Busy?
    ensures Held(s, w)
  {
    Shutdown.StageInBounds(s, w);
  }

  lemma WorkSecures(s: State, w: nat, c: Choice)
    requires Traced(s) && Held(s, w) && Sighted(s) && Secured(s)
    ensures Secured(BusyStep(s, w, c)) <==> !BlindStart(s, Work(w, c))
  {
    var Busy(k, p) := s.workers[w];
    var s' := BusyStep(s, w, c);
    if !p.Finish? && !p.Release? {
      StatementSecures(s.own, s.world, k, p, c);
      C.StatementFollows(s.own, s.world, k, p, c);
      var e := C.StatementEvent(s.world.reg, k, p, c.start);
      if e.Started? {
        assert e.c in C.Open(s'.world.reg, k);
        assert s'.world.server == s.world.server;
      }
      assert forall x :: x != k ==> C.Open(s'.world.reg, x) == C.Open(s.world.reg, x);
    } else {
      assert s'.world == s.world;
    }
  }

  lemma SightedWork(s: State, w: nat, c: Choice)
    requires Traced(s) && Held(s, w) && Sighted(s)
    ensures Sighted(BusyStep(s, w, c))
  {
    var Busy(k, p) := s.workers[w];
    var s' := BusyStep(s, w, c);
    assert M.Holds(s, w, k);
    if !p.Finish? && !p.Release? {
      StatementSees(s.own, s.world, k, p, c);
      StatementSecures(s.own, s.world, k, p, c);
      forall v | 0 <= v < |s.workers| && v != w && s.workers[v].Busy?
        ensures Truthful(s.own, s'.world, s.workers[v].key, s.workers[v].stage)
      {
        assert M.Holds(s, v, s.workers[v].key);
        assert s.workers[v].key != k;
      }
    }
  }

  lemma SightedKept(s: State, a: Action)
    requires Inv(s) && Sighted(s) && Respectful(s, a)
    ensures Sighted(Step(s, a))
  {
    if !a.Work? {
      OutsideSameCarriers(s, a);
    } else if a.w < |s.workers| && s.workers[a.w].Busy? {
      InvHolds(s, a.w);
      SightedWork(s, a.w, a.choice);
    }
  }

  /** One step breaks the guarantee exactly if it is a blind start. */
  lemma StepSecures(s: State, a: Action)
    requires Inv(s) && Sighted(s) && Secured(s) && Respectful(s, a)
    ensures Secured(Step(s, a)) <==> !BlindStart(s, a)
  {
    if !a.Work? {
      OutsideSameCarriers(s, a);
      assert Step(s, a).world.reg == s.world.reg;
    } else if a.w < |s.workers| && s.workers[a.w].Busy? {
      InvHolds(s, a.w);
      WorkSecures(s, a.w, a.choice);
    } else {
      assert Step(s, a).world == s.world;
    }
  }

  ghost predicate RespectfulRun(s: State, run: seq<Action>)
    decreases |run|
  {
    run == [] || (RespectfulRun(s, run[..|run| - 1]) && Respectful(Exec(s, run[..|run| - 1]), run[|run| - 1]))
  }

  /** Every state on the way, the last one included, is secured. */
  ghost predicate AlwaysSecured(s: State, run: seq<Action>)
    decreases |run|
  {
    Secured(Exec(s, run)) && (run == [] || AlwaysSecured(s, run[..|run| - 1]))
  }

  ghost predicate NeverBlind(s: State, run: seq<Action>)
    decreases |run|
  {
    run == [] || (NeverBlind(s, run[..|run| - 1]) && !BlindStart(Exec(s, run[..|run| - 1]), run[|run| - 1]))
  }

  lemma {:induction false} RespectfulPrefixes(s: State, run: seq<Action>)
    requires forall i :: 0 <= i < |run| ==> Respectful(Exec(s, run[..i]), run[i])
    ensures RespectfulRun(s, run)
    decreases |run|
  {
    if run != [] {
      var before := run[..|run| - 1];
      assert forall i :: 0 <= i < |before| ==> run[..i] == before[..i];
      RespectfulPrefixes(s, before);
    }
  }

  lemma {:induction false} SightedRun(own: string, workers: nat, run: seq<Action>)
    requires RespectfulRun(Init(own, workers), run)
    ensures Sighted(Exec(Init(own, workers), run))
    decreases |run|
  {
    if run != [] {
      SightedRun(own, workers, run[..|run| - 1]);
      Reachable(own, workers, run[..|run| - 1]);
      SightedKept(Exec(Init(own, workers), run[..|run| - 1]), run[|run| - 1]);
    }
  }

  lemma LastStepSecures(own: string, workers: nat, before: seq<Action>, a: Action)
    requires RespectfulRun(Init(own, workers), before) && Respectful(Exec(Init(own, workers), before), a)
    requires Secured(Exec(Init(own, workers), before))
    ensures Secured(Step(Exec(Init(own, workers), before), a)) <==> !BlindStart(Exec(Init(own, workers), before), a)
  {
    Reachable(own, workers, before);
    SightedRun(own, workers, before);
    StepSecures(Exec(Init(own, workers), before), a);
  }

  /**
   Among writers that respect the finalizer, no controller is ever open without the server's object listing it, in any
   state of a run, if and only if no start of the run was blind.
   */
  lemma {:induction false} SecuredIffNeverBlind(own: string, workers: nat, run: seq<Action>)
    requires RespectfulRun(Init(own, workers), run)
    ensures AlwaysSecured(Init(own, workers), run) <==> NeverBlind(Init(own, workers), run)
    decreases |run|
  {
    var s0 := Init(own, workers);
    if run == [] {
      assert forall k :: C.Open(s0.world.reg, k) == {};
    } else {
      var before := run[..|run| - 1];
      SecuredIffNeverBlind(own, workers, before);
      if AlwaysSecured(s0, before) {
        LastStepSecures(own, workers, before, run[|run| - 1]);
      }
    }
  }

  // ---- what makes a guard blind ----

  /** The snapshot was taken from what the server stores now. */
  predicate Current(server: S.Server, k: Key, cell: Snapshot) {
    k in server.objects && server.objects[k].version == cell.original.version
  }

  /**
   The guard is about to let worker `w` through on its snapshot, and the server's object does not list the finalizer.
   */
  predicate BlindGuard(s: State, w: nat) {
    && w < |s.workers| && s.workers[w].Busy? && s.workers[w].stage.StartEnsure? &&
         s.workers[w].stage.obj < |s.world.inf.heap|
    && s.own in s.world.inf.heap[s.workers[w].stage.obj].pc.finalizers
    && !S.Carries(s.world.server, s.workers[w].key, s.own)
  }

  /**
   On a current snapshot a guard is blind if and only if the finalizer on it is a mark made in memory, and then the
   update that should have followed the mark has not been applied: the server still stores the version that was marked.
   Any other blind guard has a snapshot that is out of date.
   */
  lemma BlindGuardHasCause(own: string, workers: nat, run: seq<Action>, w: nat)
    requires var s := Exec(Init(own, workers), run);
             w < |s.workers| && s.workers[w].Busy? && s.workers[w].stage.StartEnsure?
    ensures var s := Exec(Init(own, workers), run);
            var Busy(k, p) := s.workers[w];
            p.obj < |s.world.inf.heap| &&
            var cell := s.world.inf.heap[p.obj];
            Current(s.world.server, k, cell) ==>
              (BlindGuard(s, w) <==> MarkedHere(cell, own)) && s.world.server.objects[k] == cell.original
  {
    Reachable(own, workers, run);
    OwnFixed(Init(own, workers), run);
    var s := Exec(Init(own, workers), run);
    var Busy(k, p) := s.workers[w];
    assert StageOk(own, s.world, k, p);
    var cell := s.world.inf.heap[p.obj];
    assert Genuine(s.world.server, cell, own);
    if Current(s.world.server, k, cell) {
      assert s.world.server.objects[k] == cell.original;
    }
  }

  /** The flag on which a blind start is recognised is set exactly by a blind guard. */
  lemma GuardSetsFlag(s: State, w: nat, c: Choice)
    requires w < |s.workers| && s.workers[w].Busy? && s.workers[w].stage.StartEnsure? &&
      InBounds(s.world, s.workers[w].stage)
    ensures var p := Step(s, Work(w, c)).workers[w].stage;
            p.StartCall? && p.blind <==> BlindGuard(s, w)
  {
  }
}
