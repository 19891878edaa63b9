/**
  The command protocol as a step system: the dispatch loop, outbound generator and executor of
  control/grpc_client.py, commands/executor.py and main.py, interleaved with the network and with
  the process being stopped at any point.
 */
module Protocol {
  import opened Wrappers
  import opened Commands
  import opened Journal
  import opened Placement
  import Retry
  import Clients

  /** A CommandResult as Cloud reads it, over HTTP or over the stream: missing texts arrive empty. */
  datatype Message = Message(id: string, succeeded: bool, resultJson: string, errorCode: string, errorMessage: string, generation: int)

  /** `_messages_for_entries`, for one entry. */
  function Resend(id: string, row: Row): Message {
    Message(id, row.status.Succeeded?, OrEmpty(row.resultJson), OrEmpty(row.errorCode), OrEmpty(row.errorMessage), row.generation)
  }

  function Batch(entries: seq<Entry>): (batch: seq<Message>)
    ensures |batch| == |entries| && forall i :: 0 <= i < |entries| ==> batch[i] == Resend(entries[i].id, entries[i].row)
  {
    seq(|entries|, i requires 0 <= i < |entries| => Resend(entries[i].id, entries[i].row))
  }

  function Ids(entries: seq<Entry>): (ids: seq<string>)
    ensures |ids| == |entries| && forall i :: 0 <= i < |entries| ==> ids[i] == entries[i].id
  {
    seq(|entries|, i requires 0 <= i < |entries| => entries[i].id)
  }

  /** The body of the HTTP report: the generation is the delivered command's, not the journal's. */
  function Post(cmd: Command, verdict: Verdict): Message {
    Message(cmd.id, verdict.status.Succeeded?, OrEmpty(verdict.resultJson), OrEmpty(verdict.errorCode), OrEmpty(verdict.errorMessage),
            cmd.generation)
  }

  /** The message says this about the command: a text that is there arrives as it is, a missing one arrives empty. */
  predicate Says(m: Message, id: string, verdict: Verdict, generation: int) {
    && m.id == id && m.generation == generation && (m.succeeded <==> verdict.status == Succeeded)
    && (match verdict.resultJson case Some(text) => m.resultJson == text case None => m.resultJson == "")
    && (match verdict.errorCode case Some(text) => m.errorCode == text case None => m.errorCode == "")
    && (match verdict.errorMessage case Some(text) => m.errorMessage == text case None => m.errorMessage == "")
  }

  /** A report says what has been journaled, with the generation that was delivered. */
  lemma PostSays(cmd: Command, verdict: Verdict)
    ensures Says(Post(cmd, verdict), cmd.id, verdict, cmd.generation)
  {
  }

  /** A resent result says what is journaled, with the generation that is stored. */
  lemma ResendSays(id: string, row: Row)
    ensures Says(Resend(id, row), id, VerdictOf(row), row.generation)
  {
  }

  /** The same text, as far as Cloud can tell. */
  predicate ReadsTheSame(a: Option<string>, b: Option<string>) {
    a == b || ((a == None || a == Some("")) && (b == None || b == Some("")))
  }

  /** Nothing of a result is lost on the way: what reads differently in the journal is a different message. */
  lemma MessagesTellApart(id: string, a: Row, b: Row)
    requires IsTerminal(a.status) && IsTerminal(b.status)
    ensures Resend(id, a) == Resend(id, b) <==>
            && a.status == b.status && a.generation == b.generation && ReadsTheSame(a.resultJson, b.resultJson)
            && ReadsTheSame(a.errorCode, b.errorCode) && ReadsTheSame(a.errorMessage, b.errorMessage)
  {
  }

  type HandlerOutcome = Outcome<Option<string>>

  function RaisedVerdict(message: string): Verdict {
    Verdict(Failed, None, Some("HANDLER_EXCEPTION"), Some(message))
  }

  /** What `execute` journals for a handler's outcome. */
  function HandlerVerdict(outcome: HandlerOutcome): Verdict {
    match outcome
    case Returned(json) => Verdict(Succeeded, json, None, None)
    case Rejected(code, message) => Verdict(Failed, None, Some(code), Some(message))
    case Raised(message) => RaisedVerdict(message)
  }

  function NoHandlerVerdict(operation: Operation): Verdict {
    Verdict(Failed, None, Some("NO_HANDLER"), Some("No handler registered for operation " + OperationName(operation)))
  }

  /** Where the serial dispatch loop is: it awaits each message's handling before it reads the next. */
  datatype Phase =
    | Idle
    | Dispatching(cmd: Command)
    | Handling(cmd: Command, made: seq<Clients.MakerReply>)
    | Reporting(cmd: Command, verdict: Verdict, guarded: bool, posts: nat, delivered: bool)
    | Acknowledging(rest: seq<string>)

  /** One run of `_connect_once`. `batch` is still to be written, `wire` is written and not yet received. */
  datatype Connection = Connection(live: bool, snapshotTaken: bool, batch: seq<Message>, wire: seq<Message>)

  /** What has happened so far; nothing in the agent depends on it. */
  datatype Log = Log(
    sent: set<Message>, received: set<Message>, completed: seq<Command>,
    starts: multiset<string>, creations: multiset<string>, interruptions: multiset<string>,
    verdicts: multiset<string>, posts: multiset<string>)

  /** The journal is durable; the pending ids, the connection, the phase and the cache die with the process. */
  datatype State = State(
    journal: Rows, pending: seq<string>, conn: Option<Connection>, phase: Phase, cache: Spots, log: Log)

  const NO_LOG := Log({}, {}, [], multiset{}, multiset{}, multiset{}, multiset{}, multiset{})

  /** The first start, on an empty journal. */
  const INIT := State(map[], [], None, Idle, map[], NO_LOG)

  datatype Step =
    | Connect
    | LinkLost
    | Disconnect
    | TakeSnapshot(entries: seq<Entry>)
    | WriteResend
    | CloudReceives
    | Deliver(cmd: Command, now: int)
    | RejectUnhandled(now: int)
    | StartHandler(now: int)
    | CallMaker(reply: Clients.MakerReply)
    | FinishHandler(outcome: HandlerOutcome, now: int)
    | PostResult(reached: bool)
    | ReportConfirmed(now: int)
    | ReportGivenUp
    | ReportRaised(message: string, now: int)
    | HelloAccepted
    | MarkNext(now: int)
    | AcknowledgedAll
    | Interrupt

  /**
    When a step can happen. A connection is left only between messages, since the loop that reads it
    awaits each handling; the link itself may be lost at any time. Marking the pending ids awaits
    nothing, so no snapshot falls into it; but the process may be stopped between two marks.
   */
  ghost predicate Enabled(s: State, step: Step) {
    match step
    case Connect => s.conn.None? && s.phase.Idle?
    case LinkLost => s.conn.Some? && s.conn.value.live
    case Disconnect => s.conn.Some? && s.phase.Idle?
    case TakeSnapshot(entries) =>
      s.conn.Some? && !s.conn.value.snapshotTaken && !s.phase.Acknowledging? && IsListing(s.journal, entries)
    case WriteResend => s.conn.Some? && s.conn.value.batch != []
    case CloudReceives => s.conn.Some? && s.conn.value.wire != []
    case Deliver(cmd, _) => s.conn.Some? && s.phase.Idle?
    case RejectUnhandled(_) => s.phase.Dispatching? && s.phase.cmd.operation !in HANDLED
    case StartHandler(_) => s.phase.Dispatching? && s.phase.cmd.operation in HANDLED
    case CallMaker(_) =>
      s.phase.Handling? && s.phase.cmd.operation in CREATING &&
      Retry.MayAttempt(s.phase.made, Clients.MakerRetryable, Clients.MAKER_ATTEMPTS)
    case FinishHandler(_, _) => s.phase.Handling?
    case PostResult(_) => s.phase.Reporting? && s.phase.posts < Clients.REPORT_ATTEMPTS
    case ReportConfirmed(_) => s.phase.Reporting? && s.phase.delivered
    case ReportGivenUp => s.phase.Reporting?
    case ReportRaised(_, _) => s.phase.Reporting?
    case HelloAccepted => s.conn.Some? && s.phase.Idle?
    case MarkNext(_) => s.phase.Acknowledging? && s.phase.rest != []
    case AcknowledgedAll => s.phase.Acknowledging? && s.phase.rest == []
    case Interrupt => true
  }

  /** Journal a verdict and go on to report it. */
  function Settle(s: State, cmd: Command, verdict: Verdict, guarded: bool, now: int): State {
    s.(journal := RecordResult(s.journal, cmd.id, verdict, now),
       phase := Reporting(cmd, verdict, guarded, 0, false),
       log := s.log.(verdicts := s.log.verdicts + multiset{cmd.id}))
  }

  /** A stopped process loses everything but the journal. */
  function Stopped(s: State): State {
    var log := s.log.(
      completed := [],
      interruptions := if s.phase.Dispatching? || s.phase.Handling? then s.log.interruptions + multiset{s.phase.cmd.id}
                       else s.log.interruptions);
    State(s.journal, [], None, Idle, map[], log)
  }

  /** What a step does. */
  function Apply(s: State, step: Step): State
    requires Enabled(s, step)
  {
    match step
    case Connect => s.(conn := Some(Connection(true, false, [], [])))
    case LinkLost => s.(conn := Some(s.conn.value.(live := false, wire := [])))
    case Disconnect => s.(conn := None)
    case TakeSnapshot(entries) =>
      s.(pending := Ids(entries), conn := Some(s.conn.value.(snapshotTaken := true, batch := Batch(entries))))
    case WriteResend =>
      var c := s.conn.value;
      s.(conn := Some(c.(batch := c.batch[1..], wire := if c.live then c.wire + [c.batch[0]] else c.wire)),
         log := s.log.(sent := s.log.sent + {c.batch[0]}))
    case CloudReceives =>
      var c := s.conn.value;
      s.(conn := Some(c.(wire := c.wire[1..])), log := s.log.(received := s.log.received + {c.wire[0]}))
    case Deliver(cmd, now) =>
      if HasTerminalResult(s.journal, cmd.id) then s
      else s.(journal := RecordAccepted(s.journal, cmd.id, OperationName(cmd.operation), cmd.generation, now), phase := Dispatching(cmd))
    case RejectUnhandled(now) => Settle(s, s.phase.cmd, NoHandlerVerdict(s.phase.cmd.operation), false, now)
    case StartHandler(now) =>
      s.(journal := RecordRunning(s.journal, s.phase.cmd.id, now), phase := Handling(s.phase.cmd, []),
         log := s.log.(starts := s.log.starts + multiset{s.phase.cmd.id}))
    case CallMaker(reply) =>
      s.(phase := s.phase.(made := s.phase.made + [reply]),
         log := if Clients.Processed(reply) then s.log.(creations := s.log.creations + multiset{s.phase.cmd.id}) else s.log)
    case FinishHandler(outcome, now) =>
      var cmd := s.phase.cmd;
      var placed := if outcome.Returned? then s.(cache := Update(s.cache, cmd), log := s.log.(completed := s.log.completed + [cmd])) else s;
      Settle(placed, cmd, HandlerVerdict(outcome), !outcome.Raised?, now)
    case PostResult(reached) =>
      var m := Post(s.phase.cmd, s.phase.verdict);
      s.(phase := s.phase.(posts := s.phase.posts + 1, delivered := s.phase.delivered || reached),
         log := s.log.(sent := s.log.sent + {m}, received := if reached then s.log.received + {m} else s.log.received,
                       posts := s.log.posts + multiset{s.phase.cmd.id}))
    case ReportConfirmed(now) => s.(journal := MarkReported(s.journal, s.phase.cmd.id, now), phase := Idle)
    case ReportGivenUp => s.(phase := Idle)
    case ReportRaised(message, now) =>
      if s.phase.guarded then Settle(s, s.phase.cmd, RaisedVerdict(message), false, now)
      else s.(phase := Idle, conn := None)
    case HelloAccepted => s.(phase := Acknowledging(s.pending))
    case MarkNext(now) =>
      s.(journal := MarkReported(s.journal, s.phase.rest[0], now), phase := Acknowledging(s.phase.rest[1..]))
    case AcknowledgedAll => s.(pending := [], phase := Idle)
    case Interrupt => Stopped(s)
  }

  /** The steps can happen one after the other, starting in `s`. */
  ghost predicate Legal(s: State, steps: seq<Step>)
    decreases steps
  {
    steps == [] || (Enabled(s, steps[0]) && Legal(Apply(s, steps[0]), steps[1..]))
  }

  /** The state after a run. */
  function Exec(s: State, steps: seq<Step>): State
    requires Legal(s, steps)
    decreases steps
  {
    if steps == [] then s else Exec(Apply(s, steps[0]), steps[1..])
  }

  /**
    The report raises while `execute` would still catch it: the one step that journals a second
    verdict, over the one being reported.
   */
  predicate Overwrites(s: State, step: Step) {
    step.ReportRaised? && s.phase.Reporting? && s.phase.guarded
  }

  /** A run on which `report_result` never raises into `execute`'s handler. */
  ghost predicate Clean(s: State, steps: seq<Step>)
    requires Legal(s, steps)
    decreases steps
  {
    steps == [] || (!Overwrites(s, steps[0]) && Clean(Apply(s, steps[0]), steps[1..]))
  }

  lemma {:induction false} RunTogether(s: State, a: seq<Step>, b: seq<Step>)
    requires Legal(s, a) && Legal(Exec(s, a), b)
    ensures Legal(s, a + b) && Exec(s, a + b) == Exec(Exec(s, a), b)
    ensures Clean(s, a + b) <==> Clean(s, a) && Clean(Exec(s, a), b)
    decreases a
  {
    if a == [] {
      assert a + b == b;
    } else {
      RunTogether(Apply(s, a[0]), a[1..], b);
      assert (a + b)[0] == a[0] && (a + b)[1..] == a[1..] + b;
    }
  }

  /** Any point of a run splits it in two: a stopped process leaves a prefix of what it was doing. */
  lemma {:induction false} RunApart(s: State, steps: seq<Step>, k: nat)
    requires Legal(s, steps) && k <= |steps|
    ensures Legal(s, steps[..k]) && Legal(Exec(s, steps[..k]), steps[k..])
    ensures Exec(Exec(s, steps[..k]), steps[k..]) == Exec(s, steps)
    ensures Clean(s, steps) <==> Clean(s, steps[..k]) && Clean(Exec(s, steps[..k]), steps[k..])
    decreases k
  {
    if k == 0 {
      assert steps[..0] == [] && steps[0..] == steps;
    } else {
      RunApart(Apply(s, steps[0]), steps[1..], k - 1);
      assert steps[1..][..k - 1] == steps[..k][1..] && steps[1..][k - 1..] == steps[k..];
    }
  }
}
