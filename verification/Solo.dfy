/** A sync that nobody interleaves with: all its statements, one after the other. */
module Solo {
  import opened Domain
  import opened Lifecycle
  import S = ApiServer
  import Shutdown

  /** What the environment answers to the calls of one Start or Stop. */
  datatype Calls = Calls(update: S.Reply, start: StartResult, fetch: S.Reply, release: S.Reply)

  function ChoiceAt(calls: Calls, p: Stage): Choice {
    Choice(false,
           if p.StartWrite? then calls.update else if p.RollbackWrite? || p.StopWrite? then calls.release
               else calls.fetch,
           calls.start)
  }

  /** The statements from stage `p` to the end of the sync. */
  function Complete(own: string, t: World, k: Key, p: Stage, calls: Calls): (Stage, World)
    decreases Shutdown.StageRank(p)
  {
    if p.Finish? || p.Release? || !InBounds(t, p) then (p, t)
    else
      Shutdown.StatementCounts(own, t, k, p, ChoiceAt(calls, p));
      var (p', t') := SyncStep(own, t, k, p, ChoiceAt(calls, p));
      Complete(own, t', k, p', calls)
  }

  lemma Advance(own: string, t: World, k: Key, p: Stage, calls: Calls, p': Stage, t': World)
    requires InBounds(t, p) && !p.Finish? && !p.Release?
    requires SyncStep(own, t, k, p, ChoiceAt(calls, p)) == (p', t')
    ensures Complete(own, t, k, p, calls) == Complete(own, t', k, p', calls)
  {
  }
}
