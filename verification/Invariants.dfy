/** What every reachable state satisfies, and the per-command machine the protocol refines. */
module Invariants {
  import opened Commands
  import opened Wrappers
  import opened Journal
  import opened Protocol
  import Retry
  import Clients

  ghost predicate ReportedIsTerminal(s: State) {
    forall id :: id in s.journal && s.journal[id].reported ==> IsTerminal(s.journal[id].status)
  }

  ghost predicate AllTerminal(rows: Rows, ids: seq<string>) {
    forall i :: 0 <= i < |ids| ==> HasTerminalResult(rows, ids[i])
  }

  ghost predicate PhaseMatchesJournal(s: State) {
    match s.phase
    case Idle => true
    case Dispatching(cmd) => cmd.id in s.journal && !HasTerminalResult(s.journal, cmd.id)
    case Handling(cmd, made) =>
      && cmd.id in s.journal && !HasTerminalResult(s.journal, cmd.id)
      && Retry.Transcript(made, Clients.MakerRetryable, Clients.MAKER_ATTEMPTS)
    case Reporting(cmd, verdict, _, posts, _) =>
      && HasTerminalResult(s.journal, cmd.id) && VerdictOf(s.journal[cmd.id]) == verdict && !s.journal[cmd.id].reported
      && posts <= Clients.REPORT_ATTEMPTS
    case Acknowledging(rest) => AllTerminal(s.journal, rest)
  }

  /**
    The joint invariant: a reported row is terminal, the pending ids name terminal rows, and the
    dispatch loop is where the journal says it is.
   */
  ghost predicate Inv(s: State) {
    && ReportedIsTerminal(s)
    && AllTerminal(s.journal, s.pending)
    && PhaseMatchesJournal(s)
  }

  lemma StepKeepsReported(s: State, step: Step)
    requires Inv(s) && Enabled(s, step)
    ensures ReportedIsTerminal(Apply(s, step))
  {
  }

  lemma StepKeepsTerminal(s: State, step: Step, id: string)
    requires PhaseMatchesJournal(s) && Enabled(s, step) && HasTerminalResult(s.journal, id)
    ensures HasTerminalResult(Apply(s, step).journal, id)
  {
  }

  lemma {:induction false} StepKeepsRows(s: State, step: Step)
    requires Inv(s) && Enabled(s, step)
    ensures ReportedIsTerminal(Apply(s, step))
    ensures forall id :: HasTerminalResult(s.journal, id) ==> HasTerminalResult(Apply(s, step).journal, id)
  {
    StepKeepsReported(s, step);
    forall id | HasTerminalResult(s.journal, id) ensures HasTerminalResult(Apply(s, step).journal, id) {
      StepKeepsTerminal(s, step, id);
    }
  }

  lemma {:induction false} StepKeepsPhase(s: State, step: Step)
    requires Inv(s) && Enabled(s, step)
    ensures PhaseMatchesJournal(Apply(s, step))
  {
    if step.CallMaker? {
      var made := s.phase.made;
      assert (made + [step.reply])[..|made|] == made;
    }
  }

  lemma {:induction false} StepKeepsInv(s: State, step: Step)
    requires Inv(s) && Enabled(s, step)
    ensures Inv(Apply(s, step))
  {
    StepKeepsRows(s, step);
    StepKeepsPhase(s, step);
    if step.TakeSnapshot? {
      assert forall i :: 0 <= i < |step.entries| ==> Unreportedly(s.journal, step.entries[i].id);
    }
  }

  lemma {:induction false} RunKeepsInv(s: State, steps: seq<Step>)
    requires Inv(s) && Legal(s, steps)
    ensures Inv(Exec(s, steps))
    decreases steps
  {
    if steps != [] {
      StepKeepsInv(s, steps[0]);
      RunKeepsInv(Apply(s, steps[0]), steps[1..]);
    }
  }

  /** Every state the agent can reach, however it is delivered to, reconnected and restarted. */
  lemma ReachableInv(steps: seq<Step>)
    requires Legal(INIT, steps)
    ensures Inv(Exec(INIT, steps))
  {
    RunKeepsInv(INIT, steps);
  }

  /** What a command's row says: terminal rows are told apart by what they would be resent as. */
  datatype Stage = Absent | AcceptedOnly | RunningNow | Finished(result: Message) | Reported(result: Message)

  function StageOf(rows: Rows, id: string): Stage {
    if id !in rows then Absent
    else if rows[id].status.Accepted? then AcceptedOnly
    else if rows[id].status.Running? then RunningNow
    else if rows[id].reported then Reported(Resend(id, rows[id]))
    else Finished(Resend(id, rows[id]))
  }

  /** The per-command machine. */
  predicate Edge(a: Stage, b: Stage) {
    || (a.Absent? && b.AcceptedOnly?)
    || (a.AcceptedOnly? && (b.RunningNow? || b.Finished?))
    || (a.RunningNow? && b.Finished?)
    || (a.Finished? && b == Reported(a.result))
  }

  /** The step that may take a command's row into a stage. */
  predicate Enters(s: State, step: Step, id: string, to: Stage) {
    match to
    case Absent => false
    case AcceptedOnly => step.Deliver? && step.cmd.id == id
    case RunningNow => step.StartHandler? && s.phase.Dispatching? && s.phase.cmd.id == id
    case Finished(_) =>
      || (step.RejectUnhandled? && s.phase.Dispatching? && s.phase.cmd.id == id)
      || (step.FinishHandler? && s.phase.Handling? && s.phase.cmd.id == id)
    case Reported(_) =>
      || (step.ReportConfirmed? && s.phase.Reporting? && s.phase.cmd.id == id)
      || (step.MarkNext? && s.phase.Acknowledging? && s.phase.rest != [] && s.phase.rest[0] == id)
  }

  lemma DeliverRefines(s: State, cmd: Command, now: int, id: string)
    requires Enabled(s, Deliver(cmd, now))
    ensures HasTerminalResult(s.journal, cmd.id) ==> Apply(s, Deliver(cmd, now)) == s
    ensures var a, b := StageOf(s.journal, id), StageOf(Apply(s, Deliver(cmd, now)).journal, id);
            a == b || (Edge(a, b) && b.AcceptedOnly? && cmd.id == id)
  {
  }

  lemma StartRefines(s: State, now: int, id: string)
    requires Inv(s) && Enabled(s, StartHandler(now))
    ensures var a, b := StageOf(s.journal, id), StageOf(Apply(s, StartHandler(now)).journal, id);
            a == b || (Edge(a, b) && b.RunningNow? && s.phase.cmd.id == id)
  {
  }

  lemma SettlingRefines(s: State, cmd: Command, verdict: Verdict, guarded: bool, now: int, id: string)
    requires cmd.id in s.journal && !HasTerminalResult(s.journal, cmd.id) && IsTerminal(verdict.status)
    ensures var a, b := StageOf(s.journal, id), StageOf(Settle(s, cmd, verdict, guarded, now).journal, id);
            a == b || (Edge(a, b) && b.Finished? && cmd.id == id)
  {
  }

  lemma MarkingRefines(rows: Rows, marked: string, now: int, id: string)
    requires HasTerminalResult(rows, marked)
    ensures var a, b := StageOf(rows, id), StageOf(MarkReported(rows, marked, now), id);
            a == b || (Edge(a, b) && b.Reported? && marked == id)
  {
  }

  lemma OthersWriteNothing(s: State, step: Step)
    requires Enabled(s, step) && !Overwrites(s, step)
    requires !step.Deliver? && !step.StartHandler? && !step.RejectUnhandled? && !step.FinishHandler? && !step.ReportConfirmed? && !step.MarkNext?
    ensures Apply(s, step).journal == s.journal
  {
  }

  /** A step that changes no row but this command's, and that one by finishing or marking it. */
  lemma ClosingRefines(s: State, step: Step, id: string)
    requires Inv(s) && Enabled(s, step)
    requires step.RejectUnhandled? || step.FinishHandler? || step.ReportConfirmed? || step.MarkNext?
    ensures var a, b := StageOf(s.journal, id), StageOf(Apply(s, step).journal, id);
            a == b || (Edge(a, b) && Enters(s, step, id, b))
  {
    match step
    case RejectUnhandled(now) => SettlingRefines(s, s.phase.cmd, NoHandlerVerdict(s.phase.cmd.operation), false, now, id);
    case FinishHandler(outcome, now) => SettlingRefines(s, s.phase.cmd, HandlerVerdict(outcome), !outcome.Raised?, now, id);
    case ReportConfirmed(now) => MarkingRefines(s.journal, s.phase.cmd.id, now, id);
    case MarkNext(now) =>
      assert HasTerminalResult(s.journal, s.phase.rest[0]);
      MarkingRefines(s.journal, s.phase.rest[0], now, id);
  }

  /**
    Refinement, one step: every row moves along an edge of the machine or stays where it is, moves
    only by its own command's step, and redelivering a finished command changes nothing at all;
    stopping the process changes no row.
   */
  lemma {:induction false} StepRefines(s: State, step: Step, id: string)
    requires Inv(s) && Enabled(s, step) && !Overwrites(s, step)
    ensures var a, b := StageOf(s.journal, id), StageOf(Apply(s, step).journal, id);
            a == b || (Edge(a, b) && Enters(s, step, id, b))
    ensures step.Deliver? && HasTerminalResult(s.journal, step.cmd.id) ==> Apply(s, step) == s
    ensures step.Interrupt? ==> Apply(s, step).journal == s.journal
  {
    if step.Deliver? {
      DeliverRefines(s, step.cmd, step.now, id);
    } else if step.StartHandler? {
      StartRefines(s, step.now, id);
    } else if step.RejectUnhandled? || step.FinishHandler? || step.ReportConfirmed? || step.MarkNext? {
      ClosingRefines(s, step, id);
    } else {
      OthersWriteNothing(s, step);
    }
  }

  /** Where the machine can get to from a stage. */
  predicate Leads(a: Stage, b: Stage) {
    match a
    case Absent => true
    case AcceptedOnly => !b.Absent?
    case RunningNow => !b.Absent? && !b.AcceptedOnly?
    case Finished(m) => b == Finished(m) || b == Reported(m)
    case Reported(m) => b == Reported(m)
  }

  ghost predicate Path(stages: seq<Stage>) {
    stages != [] && forall i, j :: 0 <= i && j == i + 1 && j < |stages| ==> Edge(stages[i], stages[j])
  }

  /** `Leads` is the reflexive, transitive closure of the edges, no more and no less. */
  lemma {:induction false} LeadsExactly(a: Stage, b: Stage)
    ensures Leads(a, b) <==> exists p: seq<Stage> :: Path(p) && p[0] == a && p[|p| - 1] == b
  {
    if Leads(a, b) {
      var p := PathBetween(a, b);
      assert Path(p) && p[0] == a && p[|p| - 1] == b;
    }
    forall p: seq<Stage> | Path(p) && p[0] == a && p[|p| - 1] == b ensures Leads(a, b) {
      PathLeads(p);
    }
  }

  function PathBetween(a: Stage, b: Stage): (p: seq<Stage>)
    requires Leads(a, b)
    ensures Path(p) && p[0] == a && p[|p| - 1] == b
  {
    if a == b then [a]
    else match b
         case AcceptedOnly => [a, b]
         case RunningNow => if a.Absent? then [a, AcceptedOnly, b] else [a, b]
         case Finished(_) => if a.Absent? then [a, AcceptedOnly, b] else [a, b]
         case Reported(m) => if a.Absent? then [a, AcceptedOnly, Finished(m), b] else if a.Finished? then [a, b] else [a, Finished(m), b]
         case Absent => [a]
  }

  lemma {:induction false} PathLeads(p: seq<Stage>)
    requires Path(p)
    ensures Leads(p[0], p[|p| - 1])
  {
    if |p| > 1 {
      var init := p[..|p| - 1];
      assert Path(init);
      PathLeads(init);
      assert Edge(p[|p| - 2], p[|p| - 1]);
    }
  }

  /** Refinement over whole runs, restarts included: finished results and reported marks are never lost or changed. */
  lemma {:induction false} RunRefines(s: State, steps: seq<Step>, id: string)
    requires Inv(s) && Legal(s, steps) && Clean(s, steps)
    ensures Leads(StageOf(s.journal, id), StageOf(Exec(s, steps).journal, id))
    decreases steps
  {
    if steps != [] {
      StepKeepsInv(s, steps[0]);
      StepRefines(s, steps[0], id);
      RunRefines(Apply(s, steps[0]), steps[1..], id);
    }
  }

  /** What is never written again after the first acceptance: operation, generation and time. */
  predicate SameCommand(before: Row, after: Row) {
    after.operation == before.operation && after.generation == before.generation && after.createdAt == before.createdAt
  }

  /**
    Even on runs where a report raises, a reported row is frozen in its stage and a terminal row
    stays terminal: only an unreported verdict can be overwritten.
   */
  lemma {:induction false} ReportedIsFrozen(s: State, steps: seq<Step>, id: string)
    requires Inv(s) && Legal(s, steps)
    ensures StageOf(s.journal, id).Reported? ==> StageOf(Exec(s, steps).journal, id) == StageOf(s.journal, id)
    ensures HasTerminalResult(s.journal, id) ==> HasTerminalResult(Exec(s, steps).journal, id)
    ensures id in s.journal ==> id in Exec(s, steps).journal && SameCommand(s.journal[id], Exec(s, steps).journal[id])
    decreases steps
  {
    if steps != [] {
      StepKeepsInv(s, steps[0]);
      StepFreezes(s, steps[0], id);
      ReportedIsFrozen(Apply(s, steps[0]), steps[1..], id);
    }
  }

  lemma {:induction false} StepFreezes(s: State, step: Step, id: string)
    requires Inv(s) && Enabled(s, step)
    ensures StageOf(s.journal, id).Reported? ==> StageOf(Apply(s, step).journal, id) == StageOf(s.journal, id)
    ensures HasTerminalResult(s.journal, id) ==> HasTerminalResult(Apply(s, step).journal, id)
    ensures id in s.journal ==> id in Apply(s, step).journal && SameCommand(s.journal[id], Apply(s, step).journal[id])
  {
    if id in s.journal {
      StepKeepsRow(s, step, id);
    }
    if Overwrites(s, step) {
      OverwritingFreezes(s, step, id);
    } else {
      StepRefines(s, step, id);
    }
  }

  lemma OverwritingFreezes(s: State, step: Step, id: string)
    requires Inv(s) && Enabled(s, step) && Overwrites(s, step)
    ensures StageOf(s.journal, id).Reported? ==> StageOf(Apply(s, step).journal, id) == StageOf(s.journal, id)
    ensures HasTerminalResult(s.journal, id) ==> HasTerminalResult(Apply(s, step).journal, id)
  {
  }

  lemma StepKeepsRow(s: State, step: Step, id: string)
    requires Enabled(s, step) && id in s.journal
    ensures id in Apply(s, step).journal && SameCommand(s.journal[id], Apply(s, step).journal[id])
  {
  }

  /** Only a delivery makes a row, from what was delivered, and with nothing known of its result. */
  lemma RowIsBorn(s: State, step: Step, id: string)
    requires Enabled(s, step) && id !in s.journal && id in Apply(s, step).journal
    ensures step.Deliver? && step.cmd.id == id
    ensures Apply(s, step).journal[id] ==
            Row(OperationName(step.cmd.operation), Accepted, step.cmd.generation, None, None, None, false, createdAt := step.now, updatedAt := step.now)
  {
  }

  /** Step `k` of the run is the delivery that the row was made for. */
  ghost predicate BornAt(s: State, steps: seq<Step>, k: nat, id: string, row: Row)
    requires Legal(s, steps) && k < |steps|
  {
    && Legal(s, steps[..k]) && id !in Exec(s, steps[..k]).journal
    && steps[k].Deliver? && steps[k].cmd.id == id
    && row.operation == OperationName(steps[k].cmd.operation) && row.generation == steps[k].cmd.generation && row.createdAt == steps[k].now
  }

  /**
    The order of resending is that of first acceptance: a row keeps the operation, the generation and
    the time of the first delivery of its command, whatever is delivered, run or reported later.
   */
  lemma {:induction false} RowsKeepTheirFirstDelivery(s: State, steps: seq<Step>, id: string)
    requires Inv(s) && Legal(s, steps) && id !in s.journal && id in Exec(s, steps).journal
    ensures exists k: nat :: k < |steps| && BornAt(s, steps, k, id, Exec(s, steps).journal[id])
    decreases steps
  {
    var next := Apply(s, steps[0]);
    StepKeepsInv(s, steps[0]);
    var row := Exec(s, steps).journal[id];
    if id in next.journal {
      RowIsBorn(s, steps[0], id);
      ReportedIsFrozen(next, steps[1..], id);
      assert BornAt(s, steps, 0, id, row);
    } else {
      RowsKeepTheirFirstDelivery(next, steps[1..], id);
      var k: nat :| k < |steps| - 1 && BornAt(next, steps[1..], k, id, row);
      assert steps[..k + 1][1..] == steps[1..][..k];
      assert BornAt(s, steps, k + 1, id, row);
    }
  }

  /** Where each journal write takes its command's row, with the verdict it writes. */
  lemma StepArrives(s: State, step: Step)
    requires Inv(s) && Enabled(s, step)
    ensures step.Deliver? && step.cmd.id !in s.journal ==> StageOf(Apply(s, step).journal, step.cmd.id) == AcceptedOnly
    ensures step.StartHandler? ==> StageOf(Apply(s, step).journal, s.phase.cmd.id) == RunningNow
    ensures step.RejectUnhandled? || step.FinishHandler? || Overwrites(s, step) ==> StageOf(Apply(s, step).journal, s.phase.cmd.id).Finished?
    ensures step.ReportConfirmed? ==> StageOf(Apply(s, step).journal, s.phase.cmd.id) == Reported(Resend(s.phase.cmd.id, s.journal[s.phase.cmd.id]))
    ensures step.MarkNext? ==> StageOf(Apply(s, step).journal, s.phase.rest[0]) == Reported(Resend(s.phase.rest[0], s.journal[s.phase.rest[0]]))
  {
  }
}
