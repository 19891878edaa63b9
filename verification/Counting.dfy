/** How often things happen to one command: handler starts, container creations, verdicts and reports. */
module Counting {
  import opened Wrappers
  import opened Commands
  import opened Journal
  import opened Protocol
  import opened Invariants
  import Placement
  import Retry
  import Clients

  /** The handler of this command is in flight. */
  predicate InFlight(s: State, id: string) { s.phase.Handling? && s.phase.cmd.id == id }

  predicate BeingReported(s: State, id: string) { s.phase.Reporting? && s.phase.cmd.id == id }

  /** Creations the handler in flight has caused so far. */
  function Caused(s: State): nat
    requires s.phase.Handling?
  {
    Retry.Reached(s.phase.made, Clients.Processed)
  }

  ghost predicate StartsCounted(s: State, id: string) {
    && s.log.starts[id] <= s.log.interruptions[id] + (if HasTerminalResult(s.journal, id) || InFlight(s, id) then 1 else 0)
    && s.log.creations[id] + (if InFlight(s, id) then 1 else 0) <= s.log.starts[id] + (if InFlight(s, id) then Caused(s) else 0)
  }

  ghost predicate VerdictsCounted(s: State, id: string) {
    && (!HasTerminalResult(s.journal, id) ==> s.log.verdicts[id] == 0)
    && (HasTerminalResult(s.journal, id) ==> 1 <= s.log.verdicts[id] <= 2)
    && (BeingReported(s, id) && s.phase.guarded ==> s.log.verdicts[id] == 1)
  }

  /** Five reports for each verdict, of which the current one may not have been used up. */
  ghost predicate PostsCounted(s: State, id: string) {
    s.log.posts[id] + (if BeingReported(s, id) then Clients.REPORT_ATTEMPTS - s.phase.posts else 0)
    <= Clients.REPORT_ATTEMPTS * s.log.verdicts[id]
  }

  ghost predicate Counted(s: State) {
    forall id :: StartsCounted(s, id) && VerdictsCounted(s, id) && PostsCounted(s, id)
  }

  lemma {:induction false} CallKeepsStarts(s: State, reply: Clients.MakerReply, id: string)
    requires Inv(s) && Enabled(s, CallMaker(reply)) && StartsCounted(s, id)
    ensures StartsCounted(Apply(s, CallMaker(reply)), id)
  {
    var made := s.phase.made;
    assert (made + [reply])[..|made|] == made;
    MakerReachesAtMostOnce(made);
    MakerReachesAtMostOnce(made + [reply]);
  }

  lemma {:induction false} StepKeepsStarts(s: State, step: Step, id: string)
    requires Inv(s) && Enabled(s, step) && StartsCounted(s, id)
    ensures StartsCounted(Apply(s, step), id)
  {
    if step.CallMaker? {
      CallKeepsStarts(s, step.reply, id);
    } else {
      StepKeepsRows(s, step);
      if s.phase.Handling? {
        MakerReachesAtMostOnce(s.phase.made);
      }
    }
  }

  /** A call to Container Maker is processed at most once, its retries included. */
  lemma MakerReachesAtMostOnce(made: seq<Clients.MakerReply>)
    requires Retry.Transcript(made, Clients.MakerRetryable, Clients.MAKER_ATTEMPTS)
    ensures Retry.Reached(made, Clients.Processed) <= 1
    ensures Retry.MayAttempt(made, Clients.MakerRetryable, Clients.MAKER_ATTEMPTS) ==> Retry.Reached(made, Clients.Processed) == 0
  {
    Retry.ReachesAtMostOnce(made, Clients.MakerRetryable, Clients.MAKER_ATTEMPTS, Clients.Processed);
  }

  /**
    When a handler may call Container Maker to create: only for Create and Resume, first of all, and
    again after each answer that the channel is unavailable, three times at most.
   */
  lemma MayCreateExactly(s: State, reply: Clients.MakerReply)
    requires s.phase.Handling?
    ensures Enabled(s, CallMaker(reply)) <==>
            && (s.phase.cmd.operation.Create? || s.phase.cmd.operation.Resume?) && |s.phase.made| < 3
            && forall i :: 0 <= i < |s.phase.made| ==> s.phase.made[i] == Retry.Threw(Clients.RpcError(Some(Clients.UNAVAILABLE)))
  {
    if forall i :: 0 <= i < |s.phase.made| ==> s.phase.made[i] == Retry.Threw(Clients.RpcError(Some(Clients.UNAVAILABLE))) {
      assert forall i :: 0 <= i < |s.phase.made| ==> Retry.Retried(s.phase.made[i], Clients.MakerRetryable);
    }
    if Enabled(s, CallMaker(reply)) {
      forall i | 0 <= i < |s.phase.made| ensures s.phase.made[i] == Retry.Threw(Clients.RpcError(Some(Clients.UNAVAILABLE))) {
        assert Retry.Retried(s.phase.made[i], Clients.MakerRetryable);
      }
    }
  }

  /** The step is one of this command's, which the dispatch loop is at. */
  predicate Its(s: State, id: string) { !s.phase.Idle? && !s.phase.Acknowledging? && s.phase.cmd.id == id }

  /** What is counted: each of these events once, when it happens to the command, and nothing else. */
  lemma EventsAreCounted(s: State, step: Step, id: string)
    requires Enabled(s, step)
    ensures var a, b := s.log, Apply(s, step).log;
            && b.starts[id] == a.starts[id] + (if step.StartHandler? && Its(s, id) then 1 else 0)
            && b.creations[id] == a.creations[id] +
                 (if step.CallMaker? && Its(s, id) && step.reply != Retry.Threw(Clients.RpcError(Some(Clients.UNAVAILABLE))) then 1 else 0)
            && b.interruptions[id] == a.interruptions[id] +
                 (if step.Interrupt? && Its(s, id) && !s.phase.Reporting? then 1 else 0)
            && b.verdicts[id] == a.verdicts[id] +
                 (if (step.RejectUnhandled? || step.FinishHandler? || (step.ReportRaised? && s.phase.guarded)) && Its(s, id) then 1 else 0)
            && b.posts[id] == a.posts[id] + (if step.PostResult? && Its(s, id) then 1 else 0)
  {
  }

  /** The steps that journal a verdict. */
  predicate Settles(s: State, step: Step) {
    step.RejectUnhandled? || step.FinishHandler? || Overwrites(s, step)
  }

  lemma SettlingKeepsVerdicts(s: State, cmd: Command, verdict: Verdict, guarded: bool, now: int, id: string)
    requires cmd.id in s.journal && IsTerminal(verdict.status) && VerdictsCounted(s, id)
    requires cmd.id == id ==> s.log.verdicts[id] == 0 || (s.log.verdicts[id] == 1 && !guarded)
    ensures VerdictsCounted(Settle(s, cmd, verdict, guarded, now), id)
    ensures Settle(s, cmd, verdict, guarded, now).log.verdicts[id] == s.log.verdicts[id] + if cmd.id == id then 1 else 0
  {
  }

  lemma OthersKeepVerdicts(s: State, step: Step, id: string)
    requires Inv(s) && Enabled(s, step) && VerdictsCounted(s, id) && !Settles(s, step)
    ensures VerdictsCounted(Apply(s, step), id) && Apply(s, step).log.verdicts == s.log.verdicts
  {
    StepRefines(s, step, id);
  }

  lemma {:induction false} StepKeepsVerdicts(s: State, step: Step, id: string)
    requires Inv(s) && Enabled(s, step) && VerdictsCounted(s, id)
    ensures VerdictsCounted(Apply(s, step), id)
    ensures Apply(s, step).log.verdicts[id] == s.log.verdicts[id] + if Settles(s, step) && s.phase.cmd.id == id then 1 else 0
    ensures Settles(s, step) && s.phase.cmd.id == id ==> s.log.verdicts[id] == if Overwrites(s, step) then 1 else 0
  {
    if step.RejectUnhandled? {
      SettlingKeepsVerdicts(s, s.phase.cmd, NoHandlerVerdict(s.phase.cmd.operation), false, step.now, id);
    } else if step.FinishHandler? {
      var cmd := s.phase.cmd;
      var placed := if step.outcome.Returned? then s.(cache := Placement.Update(s.cache, cmd), log := s.log.(completed := s.log.completed + [cmd])) else s;
      SettlingKeepsVerdicts(placed, cmd, HandlerVerdict(step.outcome), !step.outcome.Raised?, step.now, id);
    } else if Overwrites(s, step) {
      SettlingKeepsVerdicts(s, s.phase.cmd, RaisedVerdict(step.message), false, step.now, id);
    } else {
      OthersKeepVerdicts(s, step, id);
    }
  }

  lemma {:induction false} StepKeepsPosts(s: State, step: Step, id: string)
    requires Inv(s) && Enabled(s, step) && PostsCounted(s, id)
    ensures PostsCounted(Apply(s, step), id)
  {
    if step.FinishHandler? || step.RejectUnhandled? || step.ReportRaised? {
    } else {
      assert Apply(s, step).log.verdicts == s.log.verdicts;
    }
  }

  lemma {:induction false} RunKeepsCounts(s: State, steps: seq<Step>)
    requires Inv(s) && Counted(s) && Legal(s, steps)
    ensures Counted(Exec(s, steps))
    ensures forall id :: s.log.verdicts[id] <= Exec(s, steps).log.verdicts[id]
    decreases steps
  {
    if steps != [] {
      var next := Apply(s, steps[0]);
      StepKeepsInv(s, steps[0]);
      forall id ensures StartsCounted(next, id) && VerdictsCounted(next, id) && PostsCounted(next, id) && s.log.verdicts[id] <= next.log.verdicts[id] {
        StepKeepsStarts(s, steps[0], id);
        StepKeepsVerdicts(s, steps[0], id);
        StepKeepsPosts(s, steps[0], id);
      }
      RunKeepsCounts(next, steps[1..]);
    }
  }

  /**
    Over every run from the first start: a handler starts for a command at most once more than it was
    interrupted before it had a result, and Container Maker processes at most as many creations for
    it as handlers started, whatever the redeliveries, reconnects and retries; while a command
    without a result and without a handler in flight has not even had that extra start.
   */
  lemma EffectsBoundedByInterruptions(steps: seq<Step>, id: string)
    requires Legal(INIT, steps)
    ensures var s := Exec(INIT, steps);
            && s.log.creations[id] <= s.log.starts[id] <= s.log.interruptions[id] + 1
            && (!HasTerminalResult(s.journal, id) && !InFlight(s, id) ==> s.log.starts[id] <= s.log.interruptions[id])
            && (s.log.interruptions[id] == 0 ==> s.log.creations[id] <= 1)
  {
    RunKeepsInv(INIT, steps);
    RunKeepsCounts(INIT, steps);
    var s := Exec(INIT, steps);
    assert StartsCounted(s, id);
    if InFlight(s, id) {
      MakerReachesAtMostOnce(s.phase.made);
    }
  }

  /** No handler ever starts for a command that has a result: starting one requires that it has none. */
  lemma NoStartAfterResult(steps: seq<Step>, now: int)
    requires Legal(INIT, steps) && Enabled(Exec(INIT, steps), StartHandler(now))
    ensures !HasTerminalResult(Exec(INIT, steps).journal, Exec(INIT, steps).phase.cmd.id)
  {
    RunKeepsInv(INIT, steps);
  }

  /** On any run at all: at most two verdicts and ten HTTP reports per command, and at least one verdict if it is terminal. */
  lemma VerdictsBounded(steps: seq<Step>, id: string)
    requires Legal(INIT, steps)
    ensures var s := Exec(INIT, steps);
            && s.log.verdicts[id] <= 2 && s.log.posts[id] <= 10
            && (HasTerminalResult(s.journal, id) <==> s.log.verdicts[id] >= 1)
  {
    RunKeepsInv(INIT, steps);
    RunKeepsCounts(INIT, steps);
    assert VerdictsCounted(Exec(INIT, steps), id);
  }

  ghost predicate OneVerdictEach(s: State) {
    forall id :: s.log.verdicts[id] <= 1
  }

  /** "Exactly one outcome" holds on exactly the runs on which no report raises into `execute`'s handler. */
  lemma {:induction false} OneVerdictExactly(s: State, steps: seq<Step>)
    requires Inv(s) && Counted(s) && OneVerdictEach(s) && Legal(s, steps)
    ensures OneVerdictEach(Exec(s, steps)) <==> Clean(s, steps)
    decreases steps
  {
    if steps != [] {
      var next := Apply(s, steps[0]);
      StepKeepsInv(s, steps[0]);
      forall id ensures StartsCounted(next, id) && VerdictsCounted(next, id) && PostsCounted(next, id) && (!Overwrites(s, steps[0]) ==> next.log.verdicts[id] <= 1) {
        StepKeepsStarts(s, steps[0], id);
        StepKeepsVerdicts(s, steps[0], id);
        StepKeepsPosts(s, steps[0], id);
      }
      if Overwrites(s, steps[0]) {
        StepKeepsVerdicts(s, steps[0], s.phase.cmd.id);
        RunKeepsCounts(next, steps[1..]);
        assert Exec(s, steps).log.verdicts[s.phase.cmd.id] >= 2;
      } else {
        OneVerdictExactly(next, steps[1..]);
      }
    }
  }

  /** So from the first start: one verdict and at most five HTTP reports per command, on clean runs and only there. */
  lemma ExactlyOneOutcome(steps: seq<Step>)
    requires Legal(INIT, steps)
    ensures OneVerdictEach(Exec(INIT, steps)) <==> Clean(INIT, steps)
    ensures Clean(INIT, steps) ==> forall id :: Exec(INIT, steps).log.posts[id] <= Clients.REPORT_ATTEMPTS
  {
    OneVerdictExactly(INIT, steps);
    RunKeepsCounts(INIT, steps);
    var s := Exec(INIT, steps);
    forall id | Clean(INIT, steps) ensures s.log.posts[id] <= Clients.REPORT_ATTEMPTS {
      RunKeepsInv(INIT, steps);
      assert PostsCounted(s, id) && VerdictsCounted(s, id);
    }
  }
}
