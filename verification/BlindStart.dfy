/**
 A run in which a controller outlives its ProviderConfig. The first attempt to add the finalizer never reaches the
 server, but it has already marked the cached object; the retry trusts the mark and starts the controller. The object
 can then be deleted at once, and nothing will ever close the channel.
 */
module BlindStart {
  import opened Domain
  import opened Lifecycle
  import S = ApiServer
  import C = StopChannels
  import V = Convergence
  import F = Finalizers

  const OWN := "finalizer"
  const NAME := "pc"
  const FRESH := Object(NAME, PROVIDER_CONFIG_GVK, false, [], 0)
  const LOST := Choice(false, S.RequestLost, Channel)
  const FINE := Choice(false, S.Answered, Channel)

  /** The object is created, cached, queued, and its finalizer update is lost. */
  const FIRST_ATTEMPT: seq<Action> := [
    CacheSynced, Create(FRESH), CacheSet(NAME, FRESH), Notify(NAME),
    Work(0, FINE), Work(0, FINE), Work(0, FINE), Work(0, FINE), Work(0, FINE),
    Work(0, LOST), Work(0, FINE), Work(0, FINE), Work(0, FINE)]

  /** The retry starts the controller, and every call succeeds. */
  const RETRY: seq<Action> := [
    Expire(NAME), Work(0, FINE), Work(0, FINE), Work(0, FINE), Work(0, FINE), Work(0, FINE),
    Work(0, FINE), Work(0, FINE), Work(0, FINE), Work(0, FINE)]

  const DELETION: seq<Action> := [Delete(NAME), CacheDrop(NAME)]

  const EMPTY_MAP := Registry(map[], [], [], {}, {}, false, {})
  const ENTERED := Registry(map[NAME := 0], [ControllerSet(NAME, None)], [], {}, {}, false, {})
  const LEFT := Registry(map[], [ControllerSet(NAME, None)], [], {}, {}, false, {})
  const REENTERED := Registry(map[NAME := 1], [ControllerSet(NAME, None), ControllerSet(NAME, None)], [], {}, {}, false,
      {})
  const STARTED := Registry(map[NAME := 1], [ControllerSet(NAME, None), ControllerSet(NAME, Some(0))], [NAME], {}, {},
      false, {})

  const CACHED := Informer([Snapshot(FRESH, FRESH)], map[NAME := ProviderConfig(0)], multiset{})
  const MARKED := Informer([Snapshot(FRESH.(finalizers := [OWN]), FRESH)], map[NAME := ProviderConfig(0)], multiset{})
  const STORED := S.Server(map[NAME := FRESH], 1, {FRESH})

  /** What a run has led to, apart from the queue's history. */
  ghost predicate Is(s: State, worker: Worker, queued: bool, waiting: set<Key>, t: World) {
    && s.own == OWN && s.control == Running && s.workers == [worker] && !s.queue.shuttingDown
    && s.queue.order == (if queued then [NAME] else [])
    && s.queue.dirty == (if queued then {NAME} else {})
    && s.queue.processing == (if worker.Busy? then {NAME} else {})
    && s.queue.waiting == waiting
    && s.world == t
  }

  ghost predicate Reaches(run: seq<Action>, worker: Worker, queued: bool, waiting: set<Key>, t: World) {
    Is(Exec(Init(OWN, 1), run), worker, queued, waiting, t)
  }

  lemma Extend(run: seq<Action>, a: Action)
    ensures Exec(Init(OWN, 1), run + [a]) == Step(Exec(Init(OWN, 1), run), a)
  {
    assert (run + [a])[..|run|] == run;
  }

  /** One statement of the worker's sync. */
  lemma Statement(run: seq<Action>, p: Stage, t: World, c: Choice, p': Stage, t': World)
    requires Reaches(run, Busy(NAME, p), false, {}, t) && !p.Finish? && !p.Release?
    requires InBounds(t, p) && SyncStep(OWN, t, NAME, p, c) == (p', t')
    ensures Reaches(run + [Work(0, c)], Busy(NAME, p'), false, {}, t')
  {
    Extend(run, Work(0, c));
  }

  lemma Pick(run: seq<Action>, t: World)
    requires Reaches(run, Idle, true, {}, t)
    ensures Reaches(run + [Work(0, FINE)], Busy(NAME, Lookup), false, {}, t)
  {
    Extend(run, Work(0, FINE));
  }

  lemma Report(run: seq<Action>, t: World, seen: Option<ObjId>, ok: bool)
    requires Reaches(run, Busy(NAME, Finish(seen, ok)), false, {}, t)
    ensures Reaches(run + [Work(0, FINE)] + [Work(0, FINE)], Idle, false, if ok then {} else {NAME}, t)
  {
    Extend(run, Work(0, FINE));
    Extend(run + [Work(0, FINE)], Work(0, FINE));
  }

  lemma Arrival()
    ensures Reaches([CacheSynced] + [Create(FRESH)] + [CacheSet(NAME, FRESH)] + [Notify(NAME)], Idle, true, {},
                    World(EMPTY_MAP, CACHED, STORED))
  {
    var s0 := Init(OWN, 1);
    Extend([], CacheSynced);
    assert [] + [CacheSynced] == [CacheSynced];
    var s1 := Step(s0, CacheSynced);
    assert s1.workers == [Idle];
    Extend([CacheSynced], Create(FRESH));
    var s2 := Step(s1, Create(FRESH));
    assert s2.world.server == STORED;
    Extend([CacheSynced] + [Create(FRESH)], CacheSet(NAME, FRESH));
    Extend([CacheSynced] + [Create(FRESH)] + [CacheSet(NAME, FRESH)], Notify(NAME));
  }

  lemma Marking()
    ensures Marked(CACHED, 0, OWN) == MARKED
  {
    assert [] + [OWN] == [OWN];
    assert Marked(CACHED, 0, OWN).heap == MARKED.heap;
  }

  lemma FirstAttemptEnters()
    ensures Reaches(FIRST_ATTEMPT[..7], Busy(NAME, StartCheck(0, 0, false)), false, {}, World(ENTERED, CACHED, STORED))
  {
    Arrival();
    var t := World(EMPTY_MAP, CACHED, STORED);
    var run := [CacheSynced] + [Create(FRESH)] + [CacheSet(NAME, FRESH)] + [Notify(NAME)];
    Pick(run, t);
    run := run + [Work(0, FINE)];
    Statement(run, Lookup, t, FINE, StartEntry(0), t);
    run := run + [Work(0, FINE)];
    assert Created(EMPTY_MAP, NAME) == ENTERED;
    Statement(run, StartEntry(0), t, FINE, StartCheck(0, 0, false), t.(reg := ENTERED));
    run := run + [Work(0, FINE)];
    assert run == FIRST_ATTEMPT[..7];
  }

  /** The object is marked in memory, and the update that should follow is about to be sent. */
  lemma FirstAttemptMarks()
    ensures Reaches(FIRST_ATTEMPT[..9], Busy(NAME, StartWrite(0, 0, false)), false, {}, World(ENTERED, MARKED, STORED))
  {
    FirstAttemptEnters();
    var run := FIRST_ATTEMPT[..7];
    var t := World(ENTERED, CACHED, STORED);
    Statement(run, StartCheck(0, 0, false), t, FINE, StartEnsure(0, 0, false), t);
    run := run + [Work(0, FINE)];
    Marking();
    Statement(run, StartEnsure(0, 0, false), t, FINE, StartWrite(0, 0, false), t.(inf := MARKED));
    run := run + [Work(0, FINE)];
    assert run == FIRST_ATTEMPT[..9];
  }

  lemma FirstAttempt()
    ensures Reaches(FIRST_ATTEMPT, Idle, false, {NAME}, World(LEFT, MARKED, STORED))
  {
    FirstAttemptMarks();
    var run := FIRST_ATTEMPT[..9];
    var t := World(ENTERED, MARKED, STORED);
    Statement(run, StartWrite(0, 0, false), t, LOST, StartUndo(0, 0, false, false), t);
    run := run + [Work(0, LOST)];
    assert Deleted(ENTERED, NAME) == LEFT;
    Statement(run, StartUndo(0, 0, false, false), t, FINE, Finish(Some(0), false), t.(reg := LEFT));
    run := run + [Work(0, FINE)];
    Report(run, t.(reg := LEFT), Some(0), false);
    assert run + [Work(0, FINE)] + [Work(0, FINE)] == FIRST_ATTEMPT;
  }

  lemma RetryBegins()
    ensures Reaches(FIRST_ATTEMPT + RETRY[..2], Busy(NAME, Lookup), false, {}, World(LEFT, MARKED, STORED))
  {
    FirstAttempt();
    Extend(FIRST_ATTEMPT, Expire(NAME));
    Pick(FIRST_ATTEMPT + [Expire(NAME)], World(LEFT, MARKED, STORED));
    assert FIRST_ATTEMPT + [Expire(NAME)] + [Work(0, FINE)] == FIRST_ATTEMPT + RETRY[..2];
  }

  lemma RetryEnters()
    ensures Reaches(FIRST_ATTEMPT + RETRY[..4], Busy(NAME, StartCheck(0, 1, false)), false, {},
      World(REENTERED, MARKED, STORED))
  {
    RetryBegins();
    var t := World(LEFT, MARKED, STORED);
    var run := FIRST_ATTEMPT + RETRY[..2];
    Statement(run, Lookup, t, FINE, StartEntry(0), t);
    run := run + [Work(0, FINE)];
    assert Created(LEFT, NAME) == REENTERED;
    Statement(run, StartEntry(0), t, FINE, StartCheck(0, 1, false), t.(reg := REENTERED));
    run := run + [Work(0, FINE)];
    assert run == FIRST_ATTEMPT + RETRY[..4];
  }

  /** The retry gets past the guard on the strength of the mark alone. */
  lemma RetryPassesGuard()
    ensures Reaches(FIRST_ATTEMPT + RETRY[..6], Busy(NAME, StartCall(0, 1, false, true, true)), false, {},
                    World(REENTERED, MARKED, STORED))
  {
    RetryEnters();
    var run := FIRST_ATTEMPT + RETRY[..4];
    var t := World(REENTERED, MARKED, STORED);
    Statement(run, StartCheck(0, 1, false), t, FINE, StartEnsure(0, 1, false), t);
    run := run + [Work(0, FINE)];
    Statement(run, StartEnsure(0, 1, false), t, FINE, StartCall(0, 1, false, true, true), t);
    run := run + [Work(0, FINE)];
    assert run == FIRST_ATTEMPT + RETRY[..6];
  }

  lemma SecondAttempt()
    ensures Reaches(FIRST_ATTEMPT + RETRY, Idle, false, {}, World(STARTED, MARKED, STORED))
  {
    RetryPassesGuard();
    var run := FIRST_ATTEMPT + RETRY[..6];
    var t := World(REENTERED, MARKED, STORED);
    var open := t.(reg := Opened(REENTERED, NAME));
    Statement(run, StartCall(0, 1, false, true, true), t, FINE, StartStore(0, 1, 0), open);
    run := run + [Work(0, FINE)];
    assert Stored(open.reg, 1, 0) == STARTED;
    Statement(run, StartStore(0, 1, 0), open, FINE, Finish(Some(0), true), open.(reg := STARTED));
    run := run + [Work(0, FINE)];
    Report(run, open.(reg := STARTED), Some(0), true);
    assert run + [Work(0, FINE)] + [Work(0, FINE)] == FIRST_ATTEMPT + RETRY;
  }

  lemma IdleStops(s: State, t: World)
    requires Is(s, Idle, false, {}, t)
    ensures var s' := Step(Step(Step(s, Stop), Work(0, FINE)), ShutdownReturns);
            s'.control == Returned && s'.world == t
  {
    assert Step(Step(s, Stop), Work(0, FINE)).workers == [Exited];
  }

  /** Run is stopped, the worker leaves, and Shutdown returns; the controller that was started goes on. */
  lemma StoppedButRunning()
    ensures var s := Exec(Init(OWN, 1), FIRST_ATTEMPT + RETRY + [Stop] + [Work(0, FINE)] + [ShutdownReturns]);
            s.control == Returned && C.Open(s.world.reg, NAME) == {0} && NAME in s.world.server.objects
  {
    var run := FIRST_ATTEMPT + RETRY;
    SecondAttempt();
    Extend(run, Stop);
    Extend(run + [Stop], Work(0, FINE));
    Extend(run + [Stop] + [Work(0, FINE)], ShutdownReturns);
    IdleStops(Exec(Init(OWN, 1), run), World(STARTED, MARKED, STORED));
    assert 0 in C.Open(STARTED, NAME);
    assert C.Open(STARTED, NAME) == {0};
  }

  const RUN: seq<Action> := FIRST_ATTEMPT + RETRY + DELETION

  /** The only object created has no finalizer, and nobody else writes. */
  lemma EverybodyIsRespectful()
    ensures F.RespectfulRun(Init(OWN, 1), RUN)
  {
    var s0 := Init(OWN, 1);
    forall i | 0 <= i < |RUN| ensures F.Respectful(Exec(s0, RUN[..i]), RUN[i]) {
      F.OwnFixed(s0, RUN[..i]);
      assert !RUN[i].Modify?;
      assert RUN[i].Create? ==> RUN[i] == Create(FRESH);
    }
    F.RespectfulPrefixes(s0, RUN);
  }

  lemma Ending()
    ensures var s := Exec(Init(OWN, 1), RUN);
            && V.Quiescent(s) && s.world.reg == STARTED && s.own == OWN
            && NAME !in s.world.server.objects && NAME !in s.world.inf.cache
  {
    var run := FIRST_ATTEMPT + RETRY;
    SecondAttempt();
    Extend(run, Delete(NAME));
    Extend(run + [Delete(NAME)], CacheDrop(NAME));
    assert RUN == run + [Delete(NAME)] + [CacheDrop(NAME)];
  }

  /**
   Every writer respects the finalizer, one update is lost, and in the end the controller's channel is open, the server
   has no such object, and the controller has nothing left to do.
   */
  lemma ControllerOutlivesItsObject()
    ensures var s := Exec(Init(OWN, 1), RUN);
            && F.RespectfulRun(Init(OWN, 1), RUN)
            && !F.AlwaysSecured(Init(OWN, 1), RUN)
            && V.Quiescent(s)
            && C.Open(s.world.reg, NAME) == {0}
            && NAME !in s.world.server.objects && NAME !in s.world.inf.cache
  {
    EverybodyIsRespectful();
    Ending();
    var s := Exec(Init(OWN, 1), RUN);
    assert C.Open(s.world.reg, NAME) == {0};
    assert 0 in C.Open(s.world.reg, NAME);
    assert !S.Carries(s.world.server, NAME, s.own);
  }
}
