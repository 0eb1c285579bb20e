/** Where every stop channel is, at every point of every run, and what the controller map holds for a key. */
module StopChannels {
  import opened Domain
  import opened Lifecycle
  import M = MutualExclusion
  import Q = WorkQueue

  // ---- one key ----

  /** The channels returned for `k`, without an error, that nobody has closed. */
  ghost function Open(r: Registry, k: Key): set<Chan> {
    set c: Chan | 0 <= c < |r.owner| && r.owner[c] == k && c !in r.closed && c !in r.dropped
  }

  ghost function Content(r: Registry, cs: SetId): set<Chan> {
    if cs < |r.sets| && r.sets[cs].stopCh.Some? then {r.sets[cs].stopCh.value} else {}
  }

  /** The channel the map holds for `k`. */
  ghost function Mapped(r: Registry, k: Key): set<Chan> {
    if k in r.controllers then Content(r, r.controllers[k]) else {}
  }

  /** The channel a worker has in hand: not stored yet, or taken out of the map and not closed yet. */
  ghost function InHand(r: Registry, p: Option<Stage>): set<Chan> {
    match p
    case Some(StartStore(_, _, ch)) => {ch}
    case Some(StopClose(_, cs)) => Content(r, cs)
    case _ => {}
  }

  /** `cs` is the map's entry for `k`. */
  ghost predicate Entered(r: Registry, k: Key, cs: SetId) {
    k in r.controllers && r.controllers[k] == cs
  }

  /** The entry of `k` holds no channel. */
  ghost predicate Hollow(r: Registry, k: Key) {
    k in r.controllers && Mapped(r, k) == {}
  }

  /** What a worker between two statements of a sync of `k` may rely on. */
  ghost predicate StageOk(r: Registry, k: Key, p: Stage) {
    match p
    case StartCheck(_, cs, existed) => Entered(r, k, cs) && (Hollow(r, k) && existed ==> k in r.panicked)
    case StartEnsure(_, cs, existed) => Entered(r, k, cs) && Hollow(r, k) && (existed ==> k in r.panicked)
    case StartWrite(_, cs, existed) => Entered(r, k, cs) && Hollow(r, k) && (existed ==> k in r.panicked)
    case StartCall(_, cs, existed, _, _) => Entered(r, k, cs) && Hollow(r, k) && (existed ==> k in r.panicked)
    case StartStore(_, cs, ch) => Entered(r, k, cs) && Hollow(r, k)
    case StartUndo(_, cs, existed, _) => Entered(r, k, cs) && Hollow(r, k) && (existed ==> k in r.panicked)
    case RollbackGet(_) => !Runs(r, k)
    case RollbackWrite(_, _) => !Runs(r, k)
    case StopDelete(_, cs) => Entered(r, k, cs)
    case StopClose(_, cs) => k !in r.controllers && cs < |r.sets| && r.sets[cs].key == k
    case StopGet(_) => k !in r.controllers
    case StopWrite(_, _) => k !in r.controllers
    case _ => true
  }

  ghost predicate Starting(p: Option<Stage>) {
    p.Some? && (p.value.StartCheck? || p.value.StartEnsure? || p.value.StartWrite? || p.value.StartCall? ||
                p.value.StartStore? || p.value.StartUndo?)
  }

  /** The open channels of `k` are the one in the map and the one in hand, and an empty entry has a reason. */
  ghost predicate KeyOk(r: Registry, k: Key, p: Option<Stage>) {
    && (p.Some? ==> StageOk(r, k, p.value))
    && Open(r, k) == Mapped(r, k) + InHand(r, p)
    && (Hollow(r, k) && !Starting(p) ==> k in r.panicked)
  }

  // ---- the whole registry ----

  /** Sets and channels belong to one key each. */
  ghost predicate Owned(r: Registry) {
    && (forall k :: k in r.controllers ==> r.controllers[k] < |r.sets| && r.sets[r.controllers[k]].key == k)
    && (forall i: SetId, c: Chan :: i < |r.sets| && r.sets[i].stopCh == Some(c) ==>
          c < |r.owner| && r.owner[c] == r.sets[i].key)
    && (forall c :: c in r.closed || c in r.dropped ==> c < |r.owner|)
    && r.closed !! r.dropped
    && !r.doubleClose
  }

  ghost predicate Accounted(s: State) {
    && Owned(s.world.reg)
    && (forall w :: 0 <= w < |s.workers| && s.workers[w].Busy? ==>
          KeyOk(s.world.reg, s.workers[w].key, Some(s.workers[w].stage)))
    && (forall k :: k !in s.queue.processing ==> KeyOk(s.world.reg, k, None))
  }

  ghost predicate Inv(s: State) {
    M.Inv(s) && Accounted(s)
  }

  // ---- a step stays within its key ----

  /**
   `r'` differs from `r` in the entry, the sets and the channels of `k` at most, and no set or channel is forgotten.
   */
  ghost predicate OnlyKey(r: Registry, r': Registry, k: Key) {
    && (forall x :: x != k ==> (x in r.controllers <==> x in r'.controllers) && (x in r.panicked <==> x in r'.panicked))
    && (forall x :: x != k && x in r.controllers && x in r'.controllers ==> r.controllers[x] == r'.controllers[x])
    && |r.sets| <= |r'.sets|
    && (forall i: SetId :: i < |r.sets| ==> r'.sets[i].key == r.sets[i].key)
    && (forall i: SetId :: i < |r.sets| && r.sets[i].key != k ==> r'.sets[i] == r.sets[i])
    && |r.owner| <= |r'.owner|
    && (forall c: Chan :: c < |r.owner| ==> r'.owner[c] == r.owner[c])
    && (forall c: Chan :: |r.owner| <= c < |r'.owner| ==> r'.owner[c] == k)
    && r.closed <= r'.closed
    && (forall c: Chan :: c in r'.closed && c !in r.closed ==> c < |r'.owner| && r'.owner[c] == k)
    && r.dropped <= r'.dropped
    && (forall c: Chan :: c in r'.dropped && c !in r.dropped ==> |r.owner| <= c < |r'.owner|)
  }

  /**
   What a step of a sync of `k` achieves: the registry changes for `k` at most, and the next stage finds it as
   expected.
   */
  ghost predicate Kept(r: Registry, r': Registry, k: Key, p': Stage) {
    Owned(r') && OnlyKey(r, r', k) && KeyOk(r', k, Some(p'))
  }

  lemma OtherKeys(r: Registry, r': Registry, k: Key, x: Key, p: Option<Stage>)
    requires Owned(r) && OnlyKey(r, r', k) && x != k && KeyOk(r, x, p)
    ensures KeyOk(r', x, p)
    ensures Mapped(r', x) == Mapped(r, x) && Open(r', x) == Open(r, x)
  {
    assert Open(r', x) == Open(r, x);
    if x in r.controllers {
      assert r.sets[r.controllers[x]].key == x;
    }
  }

  lemma OtherRuns(r: Registry, r': Registry, k: Key, x: Key)
    requires Owned(r) && OnlyKey(r, r', k) && x != k
    ensures Runs(r', x) <==> Runs(r, x)
  {
    if x in r.controllers {
      assert r.sets[r.controllers[x]].key == x;
    }
  }

  /** A new entry, or the existing one. */
  lemma StartEntryKeeps(t: World, k: Key, o: ObjId)
    requires Owned(t.reg) && KeyOk(t.reg, k, Some(StartEntry(o))) && o < |t.inf.heap|
    ensures var (p', t') := StartEntryStep(t, k, o); Kept(t.reg, t'.reg, k, p')
  {
    var r' := StartEntryStep(t, k, o).1.reg;
    assert Open(r', k) == Open(t.reg, k);
    assert Mapped(r', k) == Mapped(t.reg, k);
  }

  /** The starter hands over a channel nobody has seen. */
  lemma StartCallKeeps(t: World, k: Key, p: Stage, result: StartResult)
    requires p.StartCall? && Owned(t.reg) && KeyOk(t.reg, k, Some(p))
    ensures var (p', t') := StartCallStep(t, k, p, result); Kept(t.reg, t'.reg, k, p')
  {
    var r, r' := t.reg, StartCallStep(t, k, p, result).1.reg;
    assert Mapped(r', k) == Mapped(r, k);
    assert Open(r', k) == if result.Channel? then Open(r, k) + {|r.owner|} else Open(r, k);
  }

  lemma StoreKeeps(r: Registry, k: Key, o: ObjId, cs: SetId, ch: Chan)
    requires Owned(r) && KeyOk(r, k, Some(StartStore(o, cs, ch))) && cs < |r.sets|
    ensures Kept(r, Stored(r, cs, ch), k, Finish(Some(o), true))
  {
    var r' := Stored(r, cs, ch);
    assert ch in Open(r, k);
    assert Mapped(r', k) == {ch};
    assert Open(r', k) == Open(r, k);
  }

  /** Deleting an entry moves its channel, if it holds one, into the hands of the deleting worker. */
  lemma DeleteKeeps(r: Registry, k: Key, p: Option<Stage>, p': Stage)
    requires Owned(r) && KeyOk(r, k, p) && k in r.controllers && InHand(r, p) == {}
    requires match p'
             case StopClose(_, cs) => Entered(r, k, cs)
             case RollbackGet(_) => Hollow(r, k)
             case Finish(_, _) => Hollow(r, k)
             case _ => false
    ensures Kept(r, Deleted(r, k), k, p')
  {
    assert Open(Deleted(r, k), k) == Open(r, k);
  }

  lemma StopCloseKeeps(t: World, k: Key, o: ObjId, cs: SetId)
    requires Owned(t.reg) && KeyOk(t.reg, k, Some(StopClose(o, cs)))
    ensures var (p', t') := StopCloseStep(t, o, cs); Kept(t.reg, t'.reg, k, p')
  {
    var r, r' := t.reg, StopCloseStep(t, o, cs).1.reg;
    assert Mapped(r', k) == {};
    assert Open(r, k) == Content(r, cs);
    if r.sets[cs].stopCh.Some? {
      assert r.sets[cs].stopCh.value in Open(r, k);
      assert Open(r', k) == {};
    } else {
      assert r' == r;
    }
  }

  predicate Touches(p: Stage) {
    || p.StartEntry? || p.StartCall? || p.StartStore? || p.StopDelete? || p.StopClose?
    || (p.StartUndo? && !p.existed)
  }

  /** Every other statement leaves the map and the channels alone. */
  lemma QuietStep(own: string, t: World, k: Key, p: Stage, c: Choice)
    requires Owned(t.reg) && KeyOk(t.reg, k, Some(p)) && InBounds(t, p) && !Touches(p)
    ensures var (p', t') := SyncStep(own, t, k, p, c);
            t'.reg == t.reg && StageOk(t.reg, k, p') && InHand(t.reg, Some(p')) == {} &&
            (Starting(Some(p')) || !Starting(Some(p)) || !Hollow(t.reg, k) || k in t.reg.panicked)
  {
  }

  lemma SyncStepKeeps(own: string, t: World, k: Key, p: Stage, c: Choice)
    requires Owned(t.reg) && KeyOk(t.reg, k, Some(p)) && InBounds(t, p)
    ensures var (p', t') := SyncStep(own, t, k, p, c); Kept(t.reg, t'.reg, k, p')
  {
    if !Touches(p) {
      QuietStep(own, t, k, p, c);
      var p' := SyncStep(own, t, k, p, c).0;
      assert KeyOk(t.reg, k, Some(p'));
    } else {
      match p
      case StartEntry(o) => StartEntryKeeps(t, k, o);
      case StartCall(_, _, _, _, _) => StartCallKeeps(t, k, p, c.start);
      case StartStore(o, cs, ch) => StoreKeeps(t.reg, k, o, cs, ch);
      case StartUndo(_, _, _, _) => DeleteKeeps(t.reg, k, Some(p), StartUndoStep(t, k, p).0);
      case StopDelete(o, cs) => DeleteKeeps(t.reg, k, Some(p), StopClose(o, cs));
      case StopClose(o, cs) => StopCloseKeeps(t, k, o, cs);
    }
  }

  // ---- every step ----

  lemma InitHolds(own: string, workers: nat)
    ensures Inv(Init(own, workers))
  {
    M.InitHolds(own, workers);
  }

  /** A worker's step, given what it does to its own key. */
  lemma WorkerMoves(s: State, s': State, w: nat, k: Key, p: Option<Stage>)
    requires Accounted(s) && M.Exclusive(s) && M.Holds(s, w, k)
    requires |s'.workers| == |s.workers|
    requires forall v :: 0 <= v < |s.workers| && v != w ==> s'.workers[v] == s.workers[v]
    requires Owned(s'.world.reg) && OnlyKey(s.world.reg, s'.world.reg, k) && KeyOk(s'.world.reg, k, p)
    requires if p.Some? then s'.workers[w] == Busy(k, p.value) && s'.queue.processing == s.queue.processing
             else s'.workers[w].Idle? && s'.queue.processing == s.queue.processing - {k}
    ensures Accounted(s')
  {
    forall v | 0 <= v < |s'.workers| && v != w && s'.workers[v].Busy?
      ensures KeyOk(s'.world.reg, s'.workers[v].key, Some(s'.workers[v].stage))
    {
      assert M.Holds(s, v, s.workers[v].key);
      OtherKeys(s.world.reg, s'.world.reg, k, s.workers[v].key, Some(s.workers[v].stage));
    }
    forall x | x !in s'.queue.processing ensures KeyOk(s'.world.reg, x, None) {
      if x != k {
        OtherKeys(s.world.reg, s'.world.reg, k, x, None);
      }
    }
  }

  lemma BusyStepKeeps(s: State, w: nat, c: Choice)
    requires Accounted(s) && M.Exclusive(s) && w < |s.workers| && s.workers[w].Busy?
    ensures Accounted(BusyStep(s, w, c))
  {
    var Busy(k, p) := s.workers[w];
    if p.Finish? || p.Release? {
      ReportMoves(s, w, c);
    } else if InBounds(s.world, p) {
      SyncStepKeeps(s.own, s.world, k, p, c);
      var (p', t') := SyncStep(s.own, s.world, k, p, c);
      StatementMoves(s, w, p', t');
    }
  }

  lemma ReportMoves(s: State, w: nat, c: Choice)
    requires Accounted(s) && M.Exclusive(s) && w < |s.workers| && s.workers[w].Busy?
    requires s.workers[w].stage.Finish? || s.workers[w].stage.Release?
    ensures Accounted(BusyStep(s, w, c))
  {
    var Busy(k, p) := s.workers[w];
    assert M.Holds(s, w, k);
    WorkerMoves(s, BusyStep(s, w, c), w, k, if p.Finish? then Some(Release(p.seen, p.ok)) else None);
  }

  lemma StatementMoves(s: State, w: nat, p': Stage, t': World)
    requires Accounted(s) && M.Exclusive(s) && w < |s.workers| && s.workers[w].Busy?
    requires Kept(s.world.reg, t'.reg, s.workers[w].key, p')
    ensures Accounted(At(s, w, Busy(s.workers[w].key, p')).(world := t'))
  {
    var k := s.workers[w].key;
    assert M.Holds(s, w, k);
    WorkerMoves(s, At(s, w, Busy(k, p')).(world := t'), w, k, Some(p'));
  }

  lemma GetStepKeeps(s: State, w: nat)
    requires Accounted(s) && Q.Valid(s.queue) && w < |s.workers| && s.workers[w].Idle?
    ensures Accounted(GetStep(s, w))
  {
    if s.queue.order != [] {
      assert s.queue.order[0] in s.queue.order;
    }
  }

  lemma OutsideKeeps(s: State, a: Action)
    requires Accounted(s) && !a.Work?
    ensures Accounted(Step(s, a)) && Step(s, a).world.reg == s.world.reg
  {
  }

  lemma StepKeeps(s: State, a: Action)
    requires Inv(s)
    ensures Inv(Step(s, a))
  {
    M.StepKeeps(s, a);
    if !a.Work? {
      OutsideKeeps(s, a);
    } else if a.w < |s.workers| {
      if s.workers[a.w].Busy? {
        BusyStepKeeps(s, a.w, a.choice);
      } else if s.workers[a.w].Idle? {
        GetStepKeeps(s, a.w);
      }
    }
  }

  lemma {:induction false} Reachable(own: string, workers: nat, run: seq<Action>)
    ensures Inv(Exec(Init(own, workers), run))
    decreases |run|
  {
    if run == [] {
      InitHolds(own, workers);
    } else {
      Reachable(own, workers, run[..|run| - 1]);
      StepKeeps(Exec(Init(own, workers), run[..|run| - 1]), run[|run| - 1]);
    }
  }

  // ---- theorems about every run ----

  /**
   The places a channel can be: in the map under its key, with the worker of its key, closed, or dropped on arrival.
   */
  datatype Place = InMap | WithWorker(w: nat) | Closed | Dropped

  ghost predicate IsAt(s: State, c: Chan, at: Place)
    requires c < |s.world.reg.owner|
  {
    var k := s.world.reg.owner[c];
    match at
    case InMap => c in Mapped(s.world.reg, k)
    case WithWorker(w) => M.Holds(s, w, k) && c in InHand(s.world.reg, Some(s.workers[w].stage))
    case Closed => c in s.world.reg.closed
    case Dropped => c in s.world.reg.dropped
  }

  lemma PlaceExists(s: State, c: Chan) returns (at: Place)
    requires Inv(s) && c < |s.world.reg.owner|
    ensures IsAt(s, c, at)
  {
    var r := s.world.reg;
    var k := r.owner[c];
    if c in r.closed {
      at := Closed;
    } else if c in r.dropped {
      at := Dropped;
    } else {
      assert c in Open(r, k);
      if c in Mapped(r, k) {
        at := InMap;
      } else {
        assert k in s.queue.processing;
        var w :| M.Holds(s, w, k);
        at := WithWorker(w);
      }
    }
  }

  lemma MappedIsOpen(s: State, k: Key)
    requires Inv(s)
    ensures Mapped(s.world.reg, k) <= Open(s.world.reg, k)
  {
    if k in s.queue.processing {
      var w :| M.Holds(s, w, k);
      assert KeyOk(s.world.reg, k, Some(s.workers[w].stage));
    } else {
      assert KeyOk(s.world.reg, k, None);
    }
  }

  lemma PlaceUnique(s: State, c: Chan, a: Place, b: Place)
    requires Inv(s) && c < |s.world.reg.owner| && IsAt(s, c, a) && IsAt(s, c, b)
    ensures a == b
  {
    var r := s.world.reg;
    var k := r.owner[c];
    MappedIsOpen(s, k);
    assert forall w :: M.Holds(s, w, k) ==> KeyOk(r, k, Some(s.workers[w].stage));
    assert c in Open(r, k) || c in r.closed || c in r.dropped;
  }

  predicate AtStarter(s: State, a: Action) {
    && a.Work? && a.w < |s.workers| && s.workers[a.w].Busy? && s.workers[a.w].stage.StartCall?
    && InBounds(s.world, s.workers[a.w].stage)
  }

  /** The results of the starter calls that returned a channel, one for each channel, oldest first. */
  function Issued(s: State, run: seq<Action>): seq<StartResult>
    decreases |run|
  {
    if run == [] then []
    else
      var before, a := run[..|run| - 1], run[|run| - 1];
      Issued(s, before) +
      if AtStarter(Exec(s, before), a) && (a.choice.start.Channel? || a.choice.start.ChannelAndError?)
          then [a.choice.start] else []
  }

  /** One step issues at most one channel, and drops it exactly if it came with an error. */
  lemma StepIssues(s: State, a: Action)
    ensures var r, r' := s.world.reg, Step(s, a).world.reg;
            var issues := AtStarter(s, a) && (a.choice.start.Channel? || a.choice.start.ChannelAndError?);
            && |r'.owner| == |r.owner| + (if issues then 1 else 0)
            && r'.dropped == if issues && a.choice.start.ChannelAndError? then r.dropped + {|r.owner|} else r.dropped
  {
  }

  lemma {:induction false} IssuedChannels(own: string, workers: nat, run: seq<Action>)
    ensures var r, issued := Exec(Init(own, workers), run).world.reg, Issued(Init(own, workers), run);
            && |issued| == |r.owner|
            && (forall c: Chan :: c in r.dropped <==> c < |issued| && issued[c].ChannelAndError?)
    decreases |run|
  {
    if run != [] {
      IssuedChannels(own, workers, run[..|run| - 1]);
      StepIssues(Exec(Init(own, workers), run[..|run| - 1]), run[|run| - 1]);
    }
  }

  /**
   Every channel the starter ever returned is in exactly one place, dropped if and only if it came with an error, and
   none is ever closed twice.
   */
  lemma ExactlyOnePlace(own: string, workers: nat, run: seq<Action>, c: Chan)
    requires c < |Exec(Init(own, workers), run).world.reg.owner|
    ensures var s, issued := Exec(Init(own, workers), run), Issued(Init(own, workers), run);
            && !s.world.reg.doubleClose
            && (exists at :: IsAt(s, c, at) && forall other :: IsAt(s, c, other) ==> other == at)
            && |issued| == |s.world.reg.owner|
            && (IsAt(s, c, Dropped) <==> issued[c].ChannelAndError?)
  {
    Reachable(own, workers, run);
    IssuedChannels(own, workers, run);
    var s := Exec(Init(own, workers), run);
    var at := PlaceExists(s, c);
    forall other | IsAt(s, c, other) ensures other == at {
      PlaceUnique(s, c, other, at);
    }
  }

  /**
   An entry without a channel has one of two reasons: a worker is starting that key, or a start of that key
   panicked. A worker that finds such an entry at the beginning of a start finds it because of a panic.
   */
  lemma EntriesHaveReasons(own: string, workers: nat, run: seq<Action>, k: Key)
    ensures var s := Exec(Init(own, workers), run);
            && (k in s.world.reg.controllers && k !in s.queue.processing && k !in s.world.reg.panicked ==>
                  exists c :: Mapped(s.world.reg, k) == {c} && c in Open(s.world.reg, k))
            && (forall w :: M.Holds(s, w, k) && s.workers[w].stage.StartEnsure? && s.workers[w].stage.existed ==>
                  k in s.world.reg.panicked)
  {
    Reachable(own, workers, run);
    var s := Exec(Init(own, workers), run);
    var r := s.world.reg;
    if k in r.controllers && k !in s.queue.processing && k !in r.panicked {
      assert KeyOk(r, k, None);
      var c := r.sets[r.controllers[k]].stopCh.value;
      assert Mapped(r, k) == {c} && c in Open(r, k);
    }
  }

  // ---- refinement: a machine that only starts and stops keys ----

  datatype Event = Started(k: Key, c: Chan) | Stopped(k: Key, c: Chan) | Silent

  function Apply(live: map<Key, Chan>, e: Event): map<Key, Chan> {
    match e
    case Started(k, c) => live[k := c]
    case Stopped(k, _) => live - {k}
    case Silent => live
  }

  /** The abstract state: the running keys, each with its channel. */
  function After(trace: seq<Event>): map<Key, Chan> {
    if trace == [] then map[] else Apply(After(trace[..|trace| - 1]), trace[|trace| - 1])
  }

  ghost predicate Unused(trace: seq<Event>, c: Chan) {
    forall i :: 0 <= i < |trace| && trace[i].Started? ==> trace[i].c != c
  }

  /** A key starts only while it is stopped, on a channel never used before, and stops only on that channel. */
  ghost predicate Admits(trace: seq<Event>, e: Event) {
    match e
    case Started(k, c) => k !in After(trace) && Unused(trace, c)
    case Stopped(k, c) => k in After(trace) && After(trace)[k] == c
    case Silent => true
  }

  ghost predicate Legal(trace: seq<Event>) {
    trace == [] || (Legal(trace[..|trace| - 1]) && Admits(trace[..|trace| - 1], trace[|trace| - 1]))
  }

  function StatementEvent(r: Registry, k: Key, p: Stage, result: StartResult): Event {
    if p.StartCall? && result.Channel? then Started(k, |r.owner|)
    else if p.StopClose? && p.cs < |r.sets| && r.sets[p.cs].stopCh.Some? then Stopped(k, r.sets[p.cs].stopCh.value)
    else Silent
  }

  /** What a step means to the abstract machine: a successful starter call, a close, or nothing. */
  function EventOf(s: State, a: Action): Event {
    if a.Work? && a.w < |s.workers| && s.workers[a.w].Busy? && InBounds(s.world, s.workers[a.w].stage) then
      StatementEvent(s.world.reg, s.workers[a.w].key, s.workers[a.w].stage, a.choice.start)
    else Silent
  }

  function Trace(s: State, run: seq<Action>): seq<Event>
    decreases |run|
  {
    if run == [] then []
    else
      var before := run[..|run| - 1];
      Trace(s, before) + [EventOf(Exec(s, before), run[|run| - 1])]
  }

  /** The open channels are the ones the abstract machine has running. */
  ghost predicate Refines(r: Registry, live: map<Key, Chan>) {
    forall k :: Open(r, k) == if k in live then {live[k]} else {}
  }

  /** What a statement does to the open channels of its key. */
  lemma StatementChannels(own: string, t: World, k: Key, p: Stage, c: Choice)
    requires Owned(t.reg) && KeyOk(t.reg, k, Some(p)) && InBounds(t, p)
    ensures var r, r', e := t.reg, SyncStep(own, t, k, p, c).1.reg, StatementEvent(t.reg, k, p, c.start);
            && |r.owner| + (if e.Started? then 1 else 0) <= |r'.owner|
            && (e.Started? ==> Open(r, k) == {} && Open(r', k) == {e.c})
            && (e.Stopped? ==> Open(r, k) == {e.c} && Open(r', k) == {})
            && (e.Silent? ==> Open(r', k) == Open(r, k))
  {
    var r, r' := t.reg, SyncStep(own, t, k, p, c).1.reg;
    if p.StartCall? {
      assert Open(r, k) == {};
      assert Open(r', k) == if c.start.Channel? then {|r.owner|} else {};
    } else if p.StopClose? {
      assert Open(r, k) == Content(r, p.cs);
      assert Open(r', k) == {};
    } else if !Touches(p) {
      QuietStep(own, t, k, p, c);
    } else {
      assert Open(r', k) == Open(r, k);
    }
  }

  /** The open channels of one key follow an event, and those of the others stay. */
  ghost predicate Follows(r: Registry, r': Registry, k: Key, e: Event) {
    && |r.owner| + (if e.Started? then 1 else 0) <= |r'.owner|
    && (forall x :: x != k ==> Open(r', x) == Open(r, x))
    && (e.Started? ==> e.k == k && e.c == |r.owner| && Open(r, k) == {} && Open(r', k) == {e.c})
    && (e.Stopped? ==> e.k == k && Open(r, k) == {e.c} && Open(r', k) == {})
    && (e.Silent? ==> Open(r', k) == Open(r, k))
  }

  lemma StatementFollows(own: string, t: World, k: Key, p: Stage, c: Choice)
    requires Owned(t.reg) && KeyOk(t.reg, k, Some(p)) && InBounds(t, p)
    ensures Follows(t.reg, SyncStep(own, t, k, p, c).1.reg, k, StatementEvent(t.reg, k, p, c.start))
  {
    var r, r' := t.reg, SyncStep(own, t, k, p, c).1.reg;
    StatementChannels(own, t, k, p, c);
    SyncStepKeeps(own, t, k, p, c);
    forall x | x != k ensures Open(r', x) == Open(r, x) {
      OtherOpen(r, r', k, x);
    }
  }

  lemma OtherOpen(r: Registry, r': Registry, k: Key, x: Key)
    requires OnlyKey(r, r', k) && x != k
    ensures Open(r', x) == Open(r, x)
  {
  }

  lemma FollowedRefines(r: Registry, r': Registry, k: Key, e: Event, live: map<Key, Chan>)
    requires Refines(r, live) && Follows(r, r', k, e)
    ensures Refines(r', Apply(live, e))
    ensures (e.Started? ==> e.k !in live) && (e.Stopped? ==> e.k in live && live[e.k] == e.c)
  {
    assert Open(r, k) == if k in live then {live[k]} else {};
    if e.Stopped? {
      assert e.c in Open(r, k);
    }
  }

  lemma StepRefines(s: State, a: Action, live: map<Key, Chan>)
    requires Accounted(s) && Refines(s.world.reg, live)
    ensures var r', e := Step(s, a).world.reg, EventOf(s, a);
            && Refines(r', Apply(live, e))
            && |s.world.reg.owner| + (if e.Started? then 1 else 0) <= |r'.owner|
            && (e.Started? ==> e.k !in live && e.c == |s.world.reg.owner|)
            && (e.Stopped? ==> e.k in live && live[e.k] == e.c)
  {
    if a.Work? && a.w < |s.workers| && s.workers[a.w].Busy? {
      var Busy(k, p) := s.workers[a.w];
      if !p.Finish? && !p.Release? && InBounds(s.world, p) {
        StatementFollows(s.own, s.world, k, p, a.choice);
        assert Step(s, a).world == SyncStep(s.own, s.world, k, p, a.choice).1;
        FollowedRefines(s.world.reg, Step(s, a).world.reg, k, EventOf(s, a), live);
      } else {
        assert Step(s, a).world == s.world;
      }
    } else if !a.Work? {
      OutsideKeeps(s, a);
    }
  }

  /** `trace` is a run of the abstract machine, and it has led to the channels open in `s`. */
  ghost predicate Simulates(s: State, trace: seq<Event>) {
    && Legal(trace)
    && Refines(s.world.reg, After(trace))
    && (forall c: Chan :: |s.world.reg.owner| <= c ==> Unused(trace, c))
  }

  lemma StepSimulates(s: State, a: Action, trace: seq<Event>)
    requires Inv(s) && Simulates(s, trace)
    ensures Simulates(Step(s, a), trace + [EventOf(s, a)])
  {
    var trace' := trace + [EventOf(s, a)];
    StepRefines(s, a, After(trace));
    assert trace'[..|trace'| - 1] == trace;
    forall c: Chan | |Step(s, a).world.reg.owner| <= c ensures Unused(trace', c) {
      assert Unused(trace, c);
    }
  }

  /** Every run of the controller is a run of the abstract machine, whatever the outcomes and the interleaving. */
  lemma {:induction false} RunsRefine(own: string, workers: nat, run: seq<Action>)
    ensures Simulates(Exec(Init(own, workers), run), Trace(Init(own, workers), run))
    decreases |run|
  {
    var s0 := Init(own, workers);
    if run != [] {
      var before := run[..|run| - 1];
      RunsRefine(own, workers, before);
      Reachable(own, workers, before);
      StepSimulates(Exec(s0, before), run[|run| - 1], Trace(s0, before));
    }
  }

  function Starts(trace: seq<Event>, k: Key): nat {
    if trace == [] then 0
    else
      var e := trace[|trace| - 1];
      Starts(trace[..|trace| - 1], k) + if e.Started? && e.k == k then 1 else 0
  }

  function Stops(trace: seq<Event>, k: Key): nat {
    if trace == [] then 0
    else
      var e := trace[|trace| - 1];
      Stops(trace[..|trace| - 1], k) + if e.Stopped? && e.k == k then 1 else 0
  }

  lemma {:induction false} LegalCounts(trace: seq<Event>, k: Key)
    requires Legal(trace)
    ensures Starts(trace, k) == Stops(trace, k) + if k in After(trace) then 1 else 0
    decreases |trace|
  {
    if trace != [] {
      LegalCounts(trace[..|trace| - 1], k);
    }
  }

  /**
   In every reachable state a key has been started as often as stopped, or once more, and then a channel of it is open.
   */
  lemma StartsAreStopped(own: string, workers: nat, run: seq<Action>, k: Key)
    ensures var trace := Trace(Init(own, workers), run);
            Starts(trace, k) == Stops(trace, k) + |Open(Exec(Init(own, workers), run).world.reg, k)|
    ensures |Open(Exec(Init(own, workers), run).world.reg, k)| <= 1
  {
    RunsRefine(own, workers, run);
    LegalCounts(Trace(Init(own, workers), run), k);
  }
}
