/**
 The loop of one worker is a run of the step machine: the worker takes all its steps, and whatever else happens, happens
 between its turns.
 */
module SoloWorker {
  import opened Domain
  import opened Lifecycle
  import opened Solo
  import Q = WorkQueue
  import T = TaskQueue
  import V = Convergence
  import Shutdown

  /** What the environment answers during a sync. */
  datatype Answers = Answers(lookupFails: bool, calls: Calls)

  /** The whole sync of `k`. */
  function Synced(own: string, t: World, k: Key, answers: Answers): (Stage, World) {
    if answers.lookupFails then (Finish(None, false), t) else Complete(own, t, k, Lookup, answers.calls)
  }

  ghost predicate OnlyWorker(run: seq<Action>, w: nat) {
    forall i :: 0 <= i < |run| ==> run[i].Work? && run[i].w == w
  }

  /** The statements of a sync, one step each. */
  lemma Statements(s: State, w: nat, calls: Calls) returns (run: seq<Action>)
    requires V.Inv(s) && w < |s.workers| && s.workers[w].Busy? && !s.workers[w].stage.Release?
    ensures OnlyWorker(run, w)
    ensures var Busy(k, p) := s.workers[w];
            var (p', t') := Complete(s.own, s.world, k, p, calls);
            p'.Finish? && Exec(s, run) == At(s, w, Busy(k, p')).(world := t')
    decreases Shutdown.StageRank(s.workers[w].stage)
  {
    var Busy(k, p) := s.workers[w];
    if p.Finish? {
      run := [];
      assert s.workers[w := Busy(k, p)] == s.workers;
    } else {
      Shutdown.StageInBounds(s, w);
      var a := Work(w, ChoiceAt(calls, p));
      var (p1, t1) := SyncStep(s.own, s.world, k, p, a.choice);
      var s1 := Step(s, a);
      assert s1 == At(s, w, Busy(k, p1)).(world := t1);
      Advance(s.own, s.world, k, p, calls, p1, t1);
      Shutdown.StatementCounts(s.own, s.world, k, p, a.choice);
      NotRelease(s.own, s.world, k, p, a.choice);
      V.StepKeeps(s, a);
      var rest := Statements(s1, w, calls);
      Shutdown.ExecFirst(s, a, rest);
      run := [a] + rest;
    }
  }

  lemma NotRelease(own: string, t: World, k: Key, p: Stage, c: Choice)
    requires InBounds(t, p) && !p.Release?
    ensures !SyncStep(own, t, k, p, c).0.Release?
  {
  }

  /** The sync as the machine does it, from the lookup on. */
  lemma Syncing(s: State, w: nat, answers: Answers) returns (run: seq<Action>)
    requires V.Inv(s) && w < |s.workers| && s.workers[w].Busy? && s.workers[w].stage.Lookup?
    ensures OnlyWorker(run, w)
    ensures var k := s.workers[w].key;
            var (p', t') := Synced(s.own, s.world, k, answers);
            p'.Finish? && Exec(s, run) == At(s, w, Busy(k, p')).(world := t')
  {
    if answers.lookupFails {
      run := [Work(w, Choice(true, answers.calls.fetch, answers.calls.start))];
      assert run[..0] == [];
    } else {
      run := Statements(s, w, answers.calls);
    }
  }

  lemma {:induction false} StaysReachable(s: State, run: seq<Action>)
    requires V.Inv(s)
    ensures V.Inv(Exec(s, run))
    decreases |run|
  {
    if run != [] {
      StaysReachable(s, run[..|run| - 1]);
      V.StepKeeps(Exec(s, run[..|run| - 1]), run[|run| - 1]);
    }
  }

  lemma One(s: State, a: Action)
    ensures Exec(s, [a]) == Step(s, a)
  {
    assert [a][..0] == [];
  }

  /** Reporting the result and giving the key back. */
  lemma Reporting(s: State, w: nat, c: Choice) returns (run: seq<Action>)
    requires w < |s.workers| && s.workers[w].Busy? && s.workers[w].stage.Finish?
    ensures OnlyWorker(run, w)
    ensures var Busy(k, p) := s.workers[w];
            Exec(s, run) == At(s, w, Idle).(queue := Q.Done(Q.End(s.queue, k, p.ok), k))
  {
    var a := Work(w, c);
    run := [a] + [a];
    One(s, a);
    One(Step(s, a), a);
    Shutdown.Concat(s, [a], [a]);
    var t := Step(Step(s, a), a);
    assert t.workers == s.workers[w := Idle];
  }

  /**
   `turn` is a turn of worker `w` in state `s`, all steps its own: the queue goes where the loop's turn takes it, the
   world goes where the whole sync of the oldest key takes it, `ok` is the result of that sync, and the worker leaves
   exactly if the loop's turn makes it leave.
   */
  ghost predicate IsTurn(s: State, w: nat, answers: Answers, turn: seq<Action>, ok: bool)
    requires w < |s.workers|
  {
    && OnlyWorker(turn, w)
    && (if s.queue.order == [] then
          Exec(s, turn) == At(s, w, if s.queue.shuttingDown then Exited else Idle)
        else
          var (p', t') := Synced(s.own, s.world, s.queue.order[0], answers);
          && p'.Finish? && ok == p'.ok
          && Exec(s, turn) == At(s, w, Idle).(queue := T.Turn(s.queue, ok).0, world := t'))
  }

  /** One turn of the loop in `TaskQueue` is a run of the machine's worker. */
  lemma TurnIsARun(s: State, w: nat, answers: Answers) returns (run: seq<Action>, ok: bool)
    requires V.Inv(s) && w < |s.workers| && s.workers[w].Idle?
    ensures IsTurn(s, w, answers, run, ok)
  {
    var c := Choice(false, answers.calls.fetch, answers.calls.start);
    if s.queue.order == [] {
      run, ok := [Work(w, c)], false;
      One(s, Work(w, c));
      Blocks(s, w, c);
    } else {
      run, ok := SyncTurn(s, w, answers, c);
    }
  }

  lemma SyncTurn(s: State, w: nat, answers: Answers, c: Choice) returns (run: seq<Action>, ok: bool)
    requires V.Inv(s) && w < |s.workers| && s.workers[w].Idle? && s.queue.order != []
    ensures OnlyWorker(run, w)
    ensures var (g, k) := Q.Get(s.queue);
            var (p', t') := Synced(s.own, s.world, k, answers);
            && p'.Finish? && ok == p'.ok
            && Exec(s, run) == At(s, w, Idle).(queue := Q.Done(Q.End(g, k, ok), k), world := t')
  {
    var get := Work(w, c);
    var s1 := Step(s, get);
    V.StepKeeps(s, get);
    Picks(s, w, c);
    var rest;
    rest, ok := SyncAndReport(s1, w, answers, c);
    Shutdown.ExecFirst(s, get, rest);
    run := [get] + rest;
    var (g, k) := Q.Get(s.queue);
    Twice(s, w, Busy(k, Lookup), g, Q.Done(Q.End(g, k, ok), k), Synced(s.own, s.world, k, answers).1);
  }

  lemma Twice(s: State, w: nat, p: Worker, g: Q.Queue, q: Q.Queue, t: World)
    requires w < |s.workers|
    ensures At(At(s, w, p).(queue := g), w, Idle).(queue := q, world := t) == At(s, w, Idle).(queue := q, world := t)
  {
    assert s.workers[w := p][w := Idle] == s.workers[w := Idle];
  }

  lemma Blocks(s: State, w: nat, c: Choice)
    requires w < |s.workers| && s.workers[w].Idle? && s.queue.order == []
    ensures Step(s, Work(w, c)) == At(s, w, if s.queue.shuttingDown then Exited else Idle)
  {
    assert s.workers[w := Idle] == s.workers;
  }

  lemma Picks(s: State, w: nat, c: Choice)
    requires w < |s.workers| && s.workers[w].Idle? && s.queue.order != []
    ensures var (g, k) := Q.Get(s.queue);
            Step(s, Work(w, c)) == At(s, w, Busy(k, Lookup)).(queue := g)
  {
  }

  lemma SyncAndReport(s: State, w: nat, answers: Answers, c: Choice) returns (run: seq<Action>, ok: bool)
    requires V.Inv(s) && w < |s.workers| && s.workers[w].Busy? && s.workers[w].stage.Lookup?
    ensures OnlyWorker(run, w)
    ensures var k := s.workers[w].key;
            var (p', t') := Synced(s.own, s.world, k, answers);
            && p'.Finish? && ok == p'.ok
            && Exec(s, run) == At(s, w, Idle).(queue := Q.Done(Q.End(s.queue, k, ok), k), world := t')
  {
    var syncing := Syncing(s, w, answers);
    var s2 := Exec(s, syncing);
    ok := s2.workers[w].stage.ok;
    var reporting := Reporting(s2, w, c);
    Shutdown.Concat(s, syncing, reporting);
    run := syncing + reporting;
    assert s2.workers[w := Idle] == s.workers[w := Idle];
  }

  // ---- the whole loop ----

  /** What a step of anybody but a worker does to the queue. */
  function ChangesOf(s: State, a: Action): seq<T.Change> {
    match a
    case Notify(k) => if k in s.world.inf.events then [T.Arrives(k)] else []
    case Expire(k) => [T.Expires(k)]
    case Stop => if s.control == WaitingForSync || s.control == Running then [T.ShutsDown] else []
    case _ => []
  }

  function AllChanges(s: State, others: seq<Action>): seq<T.Change>
    decreases |others|
  {
    if others == [] then []
    else
      var before := others[..|others| - 1];
      AllChanges(s, before) + ChangesOf(Exec(s, before), others[|others| - 1])
  }

  lemma ChangedOneMore(q: Q.Queue, changes: seq<T.Change>, more: seq<T.Change>)
    requires |more| <= 1
    ensures T.Changed(q, changes + more) == T.Changed(T.Changed(q, changes), more)
  {
    if more == [] {
      assert changes + more == changes;
    } else {
      assert (changes + more)[..|changes|] == changes;
      assert more[..0] == [];
    }
  }

  ghost predicate NoWorker(others: seq<Action>) {
    forall i :: 0 <= i < |others| ==> !others[i].Work?
  }

  lemma OtherStep(s: State, a: Action, w: nat)
    requires !a.Work? && w < |s.workers| && s.workers[w].Idle? && s.control != WaitingForSync
    ensures var t := Step(s, a);
            && t.queue == T.Changed(s.queue, ChangesOf(s, a))
            && t.workers == s.workers && t.control != WaitingForSync
  {
    var changes := ChangesOf(s, a);
    assert changes != [] ==> changes[..0] == [];
  }

  lemma OneMoreOther(s: State, t: State, a: Action, changes: seq<T.Change>, w: nat)
    requires !a.Work? && w < |t.workers| && t.workers[w].Idle? && t.control != WaitingForSync
    requires t.queue == T.Changed(s.queue, changes)
    ensures Step(t, a).queue == T.Changed(s.queue, changes + ChangesOf(t, a))
    ensures Step(t, a).workers == t.workers && Step(t, a).control != WaitingForSync
  {
    OtherStep(t, a, w);
    ChangedOneMore(s.queue, changes, ChangesOf(t, a));
  }

  lemma {:induction false} OthersChange(s: State, others: seq<Action>, w: nat)
    requires NoWorker(others) && w < |s.workers| && s.workers[w].Idle? && s.control != WaitingForSync
    ensures var t := Exec(s, others);
            && t.queue == T.Changed(s.queue, AllChanges(s, others))
            && t.workers == s.workers && t.control != WaitingForSync
    decreases |others|
  {
    if others != [] {
      var before, a := others[..|others| - 1], others[|others| - 1];
      OthersChange(s, before, w);
      OneMoreOther(s, Exec(s, before), a, AllChanges(s, before), w);
    }
  }

  /** What happens before a turn, and what the sync in it is answered. */
  datatype Script = Script(others: seq<Action>, answers: Answers)

  /** A worker that has left, or is not there, takes no more turns. */
  predicate Left(s: State, w: nat) {
    |s.workers| <= w || s.workers[w].Exited?
  }

  /** The run that `scripts` and `turns` make: before each turn the others act, until the worker has left. */
  function Played(s: State, w: nat, scripts: seq<Script>, turns: seq<seq<Action>>): seq<Action>
    requires |turns| == |scripts|
  {
    if scripts == [] then []
    else
      var n := |scripts| - 1;
      var before := Played(s, w, scripts[..n], turns[..n]);
      if Left(Exec(s, before), w) then before else before + scripts[n].others + turns[n]
  }

  /**
   In state `s` the others act as the script says, and then the worker takes its turn; the round says what happened.
   */
  ghost predicate IsRound(s: State, w: nat, script: Script, turn: seq<Action>, round: T.Round) {
    var m := Exec(s, script.others);
    && w < |m.workers|
    && round.changes == AllChanges(s, script.others)
    && IsTurn(m, w, script.answers, turn, round.ok)
  }

  /** Every turn and every round is what the scripts make of it. */
  ghost predicate Follows(s: State, w: nat, scripts: seq<Script>, turns: seq<seq<Action>>, rounds: seq<T.Round>)
    requires |turns| == |rounds| == |scripts|
  {
    scripts == [] ||
    (var n := |scripts| - 1;
     var now := Exec(s, Played(s, w, scripts[..n], turns[..n]));
     Follows(s, w, scripts[..n], turns[..n], rounds[..n]) &&
     (Left(now, w) || IsRound(now, w, scripts[n], turns[n], rounds[n])))
  }

  lemma RoundIsARun(s: State, w: nat, script: Script) returns (turn: seq<Action>, round: T.Round)
    requires V.Inv(s) && s.control != WaitingForSync && w < |s.workers| && s.workers[w].Idle? && NoWorker(script.others)
    ensures IsRound(s, w, script, turn, round)
    ensures var t, (q, quit) := Exec(s, script.others + turn), T.Turn(T.Changed(s.queue, round.changes), round.ok);
            && V.Inv(t) && t.control != WaitingForSync
            && t.queue == q && t.workers == s.workers[w := if quit then Exited else Idle]
  {
    OthersChange(s, script.others, w);
    StaysReachable(s, script.others);
    var m := Exec(s, script.others);
    var ok;
    turn, ok := TurnIsARun(m, w, script.answers);
    StaysReachable(m, turn);
    Shutdown.Concat(s, script.others, turn);
    round := T.Round(AllChanges(s, script.others), ok);
  }

  /** `t` has the queue and the worker with which the loop ends. */
  ghost predicate Ends(s: State, t: State, w: nat, rounds: seq<T.Round>)
    requires w < |s.workers|
  {
    var (q, quit) := T.Loop(s.queue, rounds);
    && V.Inv(t) && t.control != WaitingForSync
    && t.queue == q && t.workers == s.workers[w := if quit then Exited else Idle]
  }

  lemma OneMoreTurn(s: State, w: nat, scripts: seq<Script>, turns: seq<seq<Action>>)
    requires |turns| == |scripts| > 0
    requires !Left(Exec(s, Played(s, w, scripts[..|scripts| - 1], turns[..|scripts| - 1])), w)
    ensures var n := |scripts| - 1;
            Exec(s, Played(s, w, scripts, turns)) ==
            Exec(Exec(s, Played(s, w, scripts[..n], turns[..n])), scripts[n].others + turns[n])
  {
    var n := |scripts| - 1;
    var before := Played(s, w, scripts[..n], turns[..n]);
    Shutdown.Concat(s, before, scripts[n].others + turns[n]);
    assert before + scripts[n].others + turns[n] == before + (scripts[n].others + turns[n]);
  }

  /** Once the worker has left, the rest of the scripts is not played. */
  lemma EndsLeft(s: State, w: nat, scripts: seq<Script>, turns: seq<seq<Action>>, rounds: seq<T.Round>)
    requires |turns| == |rounds| == |scripts| > 0 && w < |s.workers|
    requires var n := |scripts| - 1;
             var now := Exec(s, Played(s, w, scripts[..n], turns[..n]));
             Left(now, w) && Ends(s, now, w, rounds[..n])
    ensures Ends(s, Exec(s, Played(s, w, scripts, turns)), w, rounds)
  {
  }

  lemma EndsRound(s: State, now: State, t: State, w: nat, rounds: seq<T.Round>)
    requires w < |s.workers| && rounds != [] && Ends(s, now, w, rounds[..|rounds| - 1]) && !Left(now, w)
    requires V.Inv(t) && t.control != WaitingForSync
    requires var round := rounds[|rounds| - 1];
             var (q, quit) := T.Turn(T.Changed(now.queue, round.changes), round.ok);
             t.queue == q && t.workers == now.workers[w := if quit then Exited else Idle]
    ensures Ends(s, t, w, rounds)
  {
    var next := t.workers[w];
    assert now.workers[w := next] == s.workers[w := next];
  }

  /**
   The loop of `TaskQueue` is a run of the machine. For all scripts there are turns of the worker such that the run
   made of the scripts and these turns ends with the queue and the worker of the loop; the rounds of the loop are what
   the others do to the queue in the scripts, and the results of the syncs under the answers of the scripts.
   */
  lemma {:induction false} LoopIsARun(s: State, w: nat, scripts: seq<Script>)
    returns (turns: seq<seq<Action>>, rounds: seq<T.Round>)
    requires V.Inv(s) && s.control != WaitingForSync && w < |s.workers| && s.workers[w].Idle?
    requires forall i :: 0 <= i < |scripts| ==> NoWorker(scripts[i].others)
    ensures |turns| == |rounds| == |scripts|
    ensures Follows(s, w, scripts, turns, rounds)
    ensures Ends(s, Exec(s, Played(s, w, scripts, turns)), w, rounds)
    decreases |scripts|
  {
    if scripts == [] {
      turns, rounds := [], [];
      assert s.workers[w := Idle] == s.workers;
    } else {
      var n := |scripts| - 1;
      var earlier, before := LoopIsARun(s, w, scripts[..n]);
      turns, rounds := OneMoreScript(s, w, scripts, earlier, before);
    }
  }

  lemma OneMoreScript(s: State, w: nat, scripts: seq<Script>, earlier: seq<seq<Action>>, before: seq<T.Round>)
    returns (turns: seq<seq<Action>>, rounds: seq<T.Round>)
    requires w < |s.workers| && |earlier| + 1 == |before| + 1 == |scripts| && NoWorker(scripts[|before|].others)
    requires Follows(s, w, scripts[..|before|], earlier, before)
    requires Ends(s, Exec(s, Played(s, w, scripts[..|before|], earlier)), w, before)
    ensures |turns| == |rounds| == |scripts|
    ensures Follows(s, w, scripts, turns, rounds)
    ensures Ends(s, Exec(s, Played(s, w, scripts, turns)), w, rounds)
  {
    var n := |before|;
    var now := Exec(s, Played(s, w, scripts[..n], earlier));
    var turn, round := [], T.Round([], false);
    if !Left(now, w) {
      turn, round := RoundIsARun(now, w, scripts[n]);
    }
    turns, rounds := earlier + [turn], before + [round];
    assert turns[..n] == earlier && rounds[..n] == before;
    if Left(now, w) {
      EndsLeft(s, w, scripts, turns, rounds);
    } else {
      OneMoreTurn(s, w, scripts, turns);
      EndsRound(s, now, Exec(now, scripts[n].others + turn), w, rounds);
    }
  }
}
