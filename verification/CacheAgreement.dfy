/** What the placement cache holds at any point of a process's life. */
module CacheAgreement {
  import opened Wrappers
  import opened Commands
  import opened Protocol
  import opened Placement

  /** Only a finished handler and the end of the process touch the cache. */
  lemma CacheChanges(s: State, step: Step)
    requires Enabled(s, step)
    ensures var t := Apply(s, step);
            if step.FinishHandler? && step.outcome.Returned? then
              t.cache == Update(s.cache, s.phase.cmd) && t.log.completed == s.log.completed + [s.phase.cmd]
            else if step.Interrupt? then t.cache == map[] && t.log.completed == []
            else t.cache == s.cache && t.log.completed == s.log.completed
  {
  }

  lemma FoldOneMore(completed: seq<Command>, cmd: Command)
    ensures Fold(completed + [cmd]) == Update(Fold(completed), cmd)
  {
    assert (completed + [cmd])[..|completed|] == completed;
  }

  lemma {:induction false} RunKeepsCache(s: State, steps: seq<Step>)
    requires s.cache == Fold(s.log.completed) && Legal(s, steps)
    ensures Exec(s, steps).cache == Fold(Exec(s, steps).log.completed)
    decreases steps
  {
    if steps != [] {
      CacheChanges(s, steps[0]);
      if steps[0].FinishHandler? && steps[0].outcome.Returned? {
        FoldOneMore(s.log.completed, s.phase.cmd);
      }
      RunKeepsCache(Apply(s, steps[0]), steps[1..]);
    }
  }

  /**
    Cache agreement: at every point of every run, a lookup gives the device and generation of this
    process's last successful Create or Resume for the container that no later successful command
    has overridden or undone, and nothing if there is none.
   */
  lemma CacheAgrees(steps: seq<Step>, container: string, spot: Spot)
    requires Legal(INIT, steps)
    ensures var s := Exec(INIT, steps);
            Lookup(s.cache, container) == Some(spot) <==>
            exists i :: LastPlacing(s.log.completed, container, i) &&
                        spot == Spot(s.log.completed[i].device, s.log.completed[i].generation)
  {
    RunKeepsCache(INIT, steps);
    LookupExactly(Exec(INIT, steps).log.completed, container, spot);
  }
}
