/** One uninterrupted handling of a delivered command, from delivery to the end of its report. */
module Progress {
  import opened Wrappers
  import opened Commands
  import opened Journal
  import opened Protocol
  import opened Invariants
  import opened Agreement
  import Retry
  import Clients

  /**
    What the world does while one command is handled: the attempts of the handler's creation call,
    the handler's outcome, and the report of it. `second` is the report of the exception, made only
    if the first report raises where `execute` catches it.
   */
  datatype Script = Script(replies: seq<Clients.MakerReply>, outcome: HandlerOutcome, first: Clients.Report, second: Clients.Report, now: int)

  ghost predicate Possible(cmd: Command, script: Script) {
    && (if cmd.operation in CREATING then Retry.Transcript(script.replies, Clients.MakerRetryable, Clients.MAKER_ATTEMPTS)
        else script.replies == [])
    && Clients.ValidReport(script.first) && Clients.ValidReport(script.second)
  }

  function PostSteps(posts: seq<bool>): (steps: seq<Step>)
    ensures |steps| == |posts| && forall i :: 0 <= i < |posts| ==> steps[i] == PostResult(posts[i])
  {
    seq(|posts|, i requires 0 <= i < |posts| => PostResult(posts[i]))
  }

  function CallSteps(replies: seq<Clients.MakerReply>): (steps: seq<Step>)
    ensures |steps| == |replies| && forall i :: 0 <= i < |replies| ==> steps[i] == CallMaker(replies[i])
  {
    seq(|replies|, i requires 0 <= i < |replies| => CallMaker(replies[i]))
  }

  function EndStep(end: Clients.ReportEnd, now: int): Step {
    match end
    case Confirmed => ReportConfirmed(now)
    case Unconfirmed => ReportGivenUp
    case ReportThrew(message) => ReportRaised(message, now)
  }

  function ReportSteps(report: Clients.Report, now: int): seq<Step> {
    PostSteps(report.posts) + [EndStep(report.end, now)]
  }

  /** The exception handler of `execute` reports a second time. */
  predicate Caught(cmd: Command, script: Script) {
    cmd.operation in HANDLED && !script.outcome.Raised? && script.first.end.ReportThrew?
  }

  function WorkSteps(cmd: Command, script: Script): seq<Step> {
    if cmd.operation in HANDLED then [StartHandler(script.now)] + CallSteps(script.replies) + [FinishHandler(script.outcome, script.now)]
    else [RejectUnhandled(script.now)]
  }

  /** The steps of `execute`. */
  function ExecuteSteps(cmd: Command, script: Script): seq<Step> {
    WorkSteps(cmd, script) + (ReportSteps(script.first, script.now) + SecondSteps(cmd, script))
  }

  /** The steps of handling one delivered ExecuteCommand. */
  function HandlingSteps(rows: Rows, cmd: Command, script: Script): seq<Step> {
    [Deliver(cmd, script.now)] + if HasTerminalResult(rows, cmd.id) then [] else ExecuteSteps(cmd, script)
  }

  function FinalVerdict(cmd: Command, script: Script): Verdict {
    if cmd.operation !in HANDLED then NoHandlerVerdict(cmd.operation)
    else if Caught(cmd, script) then RaisedVerdict(script.first.end.message)
    else HandlerVerdict(script.outcome)
  }

  function FinalReport(cmd: Command, script: Script): Clients.Report {
    if Caught(cmd, script) then script.second else script.first
  }

  lemma {:induction false} CallsRun(s: State, made: seq<Clients.MakerReply>, replies: seq<Clients.MakerReply>)
    requires s.phase.Handling? && s.phase.made == made && (replies != [] ==> s.phase.cmd.operation in CREATING)
    requires Retry.Transcript(made + replies, Clients.MakerRetryable, Clients.MAKER_ATTEMPTS)
    ensures var steps := CallSteps(replies);
            && Legal(s, steps) && Clean(s, steps)
            && var t := Exec(s, steps);
               t == s.(phase := Handling(s.phase.cmd, made + replies), log := t.log.(creations := t.log.creations))
               && t.log == s.log.(creations := t.log.creations)
    decreases replies
  {
    if replies == [] {
      assert made + replies == made;
      assert CallSteps(replies) == [];
    } else {
      var all := made + replies;
      assert Retry.MayAttempt(made, Clients.MakerRetryable, Clients.MAKER_ATTEMPTS) by {
        assert Retry.MayAttempt(all[..|all| - 1], Clients.MakerRetryable, Clients.MAKER_ATTEMPTS);
        forall i | 0 <= i < |made| ensures Retry.Retried(made[i], Clients.MakerRetryable) {
          assert all[..|all| - 1][i] == made[i];
        }
      }
      assert made + [replies[0]] + replies[1..] == all;
      CallsRun(Apply(s, CallMaker(replies[0])), made + [replies[0]], replies[1..]);
      assert CallSteps(replies)[1..] == CallSteps(replies[1..]);
    }
  }

  lemma PostFacts(s: State, reached: bool)
    requires s.phase.Reporting? && s.phase.posts < Clients.REPORT_ATTEMPTS
    ensures var m, t := Post(s.phase.cmd, s.phase.verdict), Apply(s, PostResult(reached));
            && t == s.(phase := s.phase.(posts := s.phase.posts + 1, delivered := s.phase.delivered || reached), log := t.log)
            && t.log.sent == s.log.sent + {m}
            && t.log.received == s.log.received + if reached then {m} else {}
  {
  }

  lemma {:induction false} PostsRun(s: State, posts: seq<bool>)
    requires s.phase.Reporting? && s.phase.posts + |posts| <= Clients.REPORT_ATTEMPTS
    ensures var steps := PostSteps(posts);
            && Legal(s, steps) && Clean(s, steps)
            && var t := Exec(s, steps);
               && t == s.(phase := s.phase.(posts := s.phase.posts + |posts|, delivered := s.phase.delivered || true in posts), log := t.log)
               && t.log.sent == s.log.sent + (if posts == [] then {} else {Post(s.phase.cmd, s.phase.verdict)})
               && t.log.received == s.log.received + if true in posts then {Post(s.phase.cmd, s.phase.verdict)} else {}
    decreases posts
  {
    if posts == [] {
      assert PostSteps(posts) == [];
    } else {
      var step := PostResult(posts[0]);
      PostFacts(s, posts[0]);
      PostsRun(Apply(s, step), posts[1..]);
      assert PostSteps(posts) == [step] + PostSteps(posts[1..]);
      FirstStep(s, step, PostSteps(posts[1..]));
      assert true in posts <==> posts[0] || true in posts[1..] by {
        assert posts == [posts[0]] + posts[1..];
      }
    }
  }

  lemma FirstStep(s: State, step: Step, rest: seq<Step>)
    requires Enabled(s, step) && Legal(Apply(s, step), rest)
    ensures Legal(s, [step] + rest) && Exec(s, [step] + rest) == Exec(Apply(s, step), rest)
    ensures Clean(s, [step] + rest) <==> !Overwrites(s, step) && Clean(Apply(s, step), rest)
  {
    assert ([step] + rest)[1..] == rest;
  }

  lemma {:induction false} OneStep(s: State, step: Step)
    requires Enabled(s, step)
    ensures Legal(s, [step]) && Exec(s, [step]) == Apply(s, step)
    ensures Clean(s, [step]) <==> !Overwrites(s, step)
  {
    assert [step][1..] == [];
    assert Legal(Apply(s, step), []);
  }

  /** What a report sends: its message, as often as it is posted. */
  function Posted(cmd: Command, verdict: Verdict, report: Clients.Report): set<Message> {
    if report.posts == [] then {} else {Post(cmd, verdict)}
  }

  /** And what of it reaches Cloud. */
  function Arrived(cmd: Command, verdict: Verdict, report: Clients.Report): set<Message> {
    if true in report.posts then {Post(cmd, verdict)} else {}
  }

  /** One report, whatever its end. */
  lemma {:induction false} ReportRuns(s: State, report: Clients.Report, now: int)
    requires s.phase.Reporting? && s.phase.posts == 0 && Clients.ValidReport(report)
    ensures var steps := ReportSteps(report, now);
            && Legal(s, steps)
            && (Clean(s, steps) <==> !(s.phase.guarded && report.end.ReportThrew?))
            && var t := Exec(s, steps);
               && t.log.sent == s.log.sent + Posted(s.phase.cmd, s.phase.verdict, report)
               && t.log.received == s.log.received + Arrived(s.phase.cmd, s.phase.verdict, report)
               && t.conn == (if report.end.ReportThrew? && !s.phase.guarded then None else s.conn)
               && (report.end.Confirmed? ==> t.phase.Idle? && t.journal == MarkReported(s.journal, s.phase.cmd.id, now))
               && (report.end.Unconfirmed? ==> t.phase.Idle? && t.journal == s.journal)
               && (report.end.ReportThrew? && !s.phase.guarded ==> t.phase.Idle? && t.journal == s.journal)
               && (report.end.ReportThrew? && s.phase.guarded ==>
                     && t.phase == Reporting(s.phase.cmd, RaisedVerdict(report.end.message), false, 0, false)
                     && t.journal == RecordResult(s.journal, s.phase.cmd.id, RaisedVerdict(report.end.message), now))
  {
    PostsRun(s, report.posts);
    var mid := Exec(s, PostSteps(report.posts));
    OneStep(mid, EndStep(report.end, now));
    RunTogether(s, PostSteps(report.posts), [EndStep(report.end, now)]);
  }

  /** Only this command's row differs, and it keeps its generation. */
  predicate OnlyRow(before: Rows, after: Rows, id: string) {
    && id in before && after.Keys == before.Keys
    && after[id].generation == before[id].generation
    && forall other :: other in before && other != id ==> after[other] == before[other]
  }

  /** In `t` this verdict has just been journaled, on top of `s`. */
  predicate JustSettled(s: State, t: State, cmd: Command, verdict: Verdict, guarded: bool) {
    && t.phase == Reporting(cmd, verdict, guarded, 0, false)
    && OnlyRow(s.journal, t.journal, cmd.id)
    && VerdictOf(t.journal[cmd.id]) == verdict && !t.journal[cmd.id].reported
    && t.log.sent == s.log.sent && t.log.received == s.log.received && t.conn == s.conn
  }

  lemma FinishFacts(s: State, cmd: Command, made: seq<Clients.MakerReply>, outcome: HandlerOutcome, now: int)
    requires s.phase == Handling(cmd, made) && cmd.id in s.journal
    ensures JustSettled(s, Apply(s, FinishHandler(outcome, now)), cmd, HandlerVerdict(outcome), !outcome.Raised?)
  {
  }

  function FirstVerdict(cmd: Command, script: Script): Verdict {
    if cmd.operation in HANDLED then HandlerVerdict(script.outcome) else NoHandlerVerdict(cmd.operation)
  }

  predicate Guarded(cmd: Command, script: Script) { cmd.operation in HANDLED && !script.outcome.Raised? }

  /** From dispatch to the first journaled verdict. */
  lemma {:induction false} WorkRuns(s: State, cmd: Command, script: Script)
    requires s.phase == Dispatching(cmd) && cmd.id in s.journal && Possible(cmd, script)
    ensures Legal(s, WorkSteps(cmd, script)) && Clean(s, WorkSteps(cmd, script))
    ensures JustSettled(s, Exec(s, WorkSteps(cmd, script)), cmd, FirstVerdict(cmd, script), Guarded(cmd, script))
  {
    if cmd.operation in HANDLED {
      HandlerRuns(s, cmd, script);
    } else {
      OneStep(s, RejectUnhandled(script.now));
    }
  }

  lemma {:induction false} HandlerRuns(s: State, cmd: Command, script: Script)
    requires s.phase == Dispatching(cmd) && cmd.id in s.journal && Possible(cmd, script) && cmd.operation in HANDLED
    ensures Legal(s, WorkSteps(cmd, script)) && Clean(s, WorkSteps(cmd, script))
    ensures JustSettled(s, Exec(s, WorkSteps(cmd, script)), cmd, HandlerVerdict(script.outcome), !script.outcome.Raised?)
  {
    var start, finish := StartHandler(script.now), FinishHandler(script.outcome, script.now);
    var calls := CallSteps(script.replies);
    OneStep(s, start);
    var s1 := Apply(s, start);
    assert OnlyRow(s.journal, s1.journal, cmd.id);
    assert [] + script.replies == script.replies;
    CallsRun(s1, [], script.replies);
    var s2 := Exec(s1, calls);
    assert s2.journal == s1.journal && s2.log.sent == s.log.sent && s2.log.received == s.log.received;
    FinishFacts(s2, cmd, script.replies, script.outcome, script.now);
    OneStep(s2, finish);
    RunTogether(s, [start], calls);
    RunTogether(s, [start] + calls, [finish]);
  }

  /** All that a handling sends. */
  function Spoke(cmd: Command, script: Script): set<Message> {
    Posted(cmd, FirstVerdict(cmd, script), script.first) +
    if Caught(cmd, script) then Posted(cmd, RaisedVerdict(script.first.end.message), script.second) else {}
  }

  /** All that Cloud gets of it. */
  function Learnt(cmd: Command, script: Script): set<Message> {
    Arrived(cmd, FirstVerdict(cmd, script), script.first) +
    if Caught(cmd, script) then Arrived(cmd, RaisedVerdict(script.first.end.message), script.second) else {}
  }

  /** After the reports: this verdict stands, reported exactly if its report was confirmed. */
  predicate Settled(s: State, t: State, cmd: Command, script: Script) {
    && t.phase.Idle? && t.conn == (if FinalReport(cmd, script).end.ReportThrew? then None else s.conn)
    && OnlyRow(s.journal, t.journal, cmd.id)
    && VerdictOf(t.journal[cmd.id]) == FinalVerdict(cmd, script) && IsTerminal(t.journal[cmd.id].status)
    && (t.journal[cmd.id].reported <==> FinalReport(cmd, script).end.Confirmed?)
    && t.log.sent == s.log.sent + Spoke(cmd, script)
    && t.log.received == s.log.received + Learnt(cmd, script)
  }

  function SecondSteps(cmd: Command, script: Script): seq<Step> {
    if Caught(cmd, script) then ReportSteps(script.second, script.now) else []
  }

  lemma {:induction false} ReportsRun(s: State, t: State, cmd: Command, script: Script)
    requires JustSettled(s, t, cmd, FirstVerdict(cmd, script), Guarded(cmd, script)) && Possible(cmd, script)
    ensures var steps := ReportSteps(script.first, script.now) + SecondSteps(cmd, script);
            Legal(t, steps) && (Clean(t, steps) <==> !Caught(cmd, script)) && Settled(s, Exec(t, steps), cmd, script)
  {
    if Caught(cmd, script) {
      BothReportsRun(s, t, cmd, script);
    } else {
      OnlyReportRuns(s, t, cmd, script);
    }
  }

  lemma {:induction false} OnlyReportRuns(s: State, t: State, cmd: Command, script: Script)
    requires JustSettled(s, t, cmd, FirstVerdict(cmd, script), Guarded(cmd, script)) && Possible(cmd, script) && !Caught(cmd, script)
    ensures var steps := ReportSteps(script.first, script.now) + SecondSteps(cmd, script);
            Legal(t, steps) && Clean(t, steps) && Settled(s, Exec(t, steps), cmd, script)
  {
    var first := ReportSteps(script.first, script.now);
    ReportRuns(t, script.first, script.now);
    assert first + SecondSteps(cmd, script) == first;
    ReportSettles(s, t, Exec(t, first), cmd, FirstVerdict(cmd, script), script.first);
  }

  lemma {:induction false} BothReportsRun(s: State, t: State, cmd: Command, script: Script)
    requires JustSettled(s, t, cmd, HandlerVerdict(script.outcome), true) && Possible(cmd, script) && Caught(cmd, script)
    ensures var steps := ReportSteps(script.first, script.now) + SecondSteps(cmd, script);
            Legal(t, steps) && !Clean(t, steps) && Settled(s, Exec(t, steps), cmd, script)
  {
    var first, second := ReportSteps(script.first, script.now), ReportSteps(script.second, script.now);
    var again := RaisedVerdict(script.first.end.message);
    ReportRuns(t, script.first, script.now);
    var u := Exec(t, first);
    CaughtReport(s, t, u, cmd, again);
    ReportRuns(u, script.second, script.now);
    ReportSettles(s, u, Exec(u, second), cmd, again, script.second);
    RunTogether(t, first, second);
  }

  lemma CaughtReport(s: State, t: State, u: State, cmd: Command, again: Verdict)
    requires OnlyRow(s.journal, t.journal, cmd.id)
    requires u.phase == Reporting(cmd, again, false, 0, false)
    requires exists now :: u.journal == RecordResult(t.journal, cmd.id, again, now)
    ensures OnlyRow(s.journal, u.journal, cmd.id) && VerdictOf(u.journal[cmd.id]) == again && !u.journal[cmd.id].reported
  {
  }

  /** A report that ends the handling leaves its verdict standing. */
  lemma ReportSettles(s: State, t: State, u: State, cmd: Command, verdict: Verdict, report: Clients.Report)
    requires OnlyRow(s.journal, t.journal, cmd.id) && VerdictOf(t.journal[cmd.id]) == verdict && !t.journal[cmd.id].reported
    requires if report.end.Confirmed? then exists now :: u.journal == MarkReported(t.journal, cmd.id, now) else u.journal == t.journal
    ensures OnlyRow(s.journal, u.journal, cmd.id) && VerdictOf(u.journal[cmd.id]) == verdict
    ensures u.journal[cmd.id].reported <==> report.end.Confirmed?
  {
  }

  /** The steps of `execute`, from dispatch to the end. */
  lemma {:induction false} ExecuteRuns(s: State, cmd: Command, script: Script)
    requires s.phase == Dispatching(cmd) && cmd.id in s.journal && Possible(cmd, script)
    ensures Legal(s, ExecuteSteps(cmd, script))
    ensures Clean(s, ExecuteSteps(cmd, script)) <==> !Caught(cmd, script)
    ensures Settled(s, Exec(s, ExecuteSteps(cmd, script)), cmd, script)
  {
    WorkRuns(s, cmd, script);
    var t := Exec(s, WorkSteps(cmd, script));
    ReportsRun(s, t, cmd, script);
    RunTogether(s, WorkSteps(cmd, script), ReportSteps(script.first, script.now) + SecondSteps(cmd, script));
  }

  lemma AcceptFacts(s: State, cmd: Command, now: int)
    requires s.conn.Some? && s.phase.Idle? && !HasTerminalResult(s.journal, cmd.id)
    ensures var t := Apply(s, Deliver(cmd, now));
            && t.phase == Dispatching(cmd) && t.conn == s.conn && t.log == s.log
            && cmd.id in t.journal && t.journal == s.journal[cmd.id := t.journal[cmd.id]]
            && t.journal[cmd.id].generation == if cmd.id in s.journal then s.journal[cmd.id].generation else cmd.generation
  {
  }

  lemma RowsAfter(before: Rows, accepted: Rows, after: Rows, id: string)
    requires id in accepted && accepted == before[id := accepted[id]] && OnlyRow(accepted, after, id)
    ensures after == before[id := after[id]]
  {
  }

  /**
    Progress: from any state with no handler in flight, one uninterrupted handling of a delivered
    command can always happen, and leaves the command with a result, whether it was new, accepted,
    running or already finished, and whatever its handler and its report do. A finished command
    keeps its row; otherwise the row gets the handling's last verdict and is marked reported exactly
    if that verdict's report was confirmed; the connection is given up exactly if that report raised.
    No other command's row changes. The run is clean unless the first report raised into `execute`.
   */
  lemma {:induction false} HandlingFinishes(s: State, cmd: Command, script: Script)
    requires Inv(s) && s.conn.Some? && s.phase.Idle? && Possible(cmd, script)
    ensures Legal(s, HandlingSteps(s.journal, cmd, script))
    ensures var t := Exec(s, HandlingSteps(s.journal, cmd, script));
            && t.phase.Idle? && HasTerminalResult(t.journal, cmd.id)
            && t.journal == s.journal[cmd.id := t.journal[cmd.id]]
            && (HasTerminalResult(s.journal, cmd.id) ==> t == s)
            && (!HasTerminalResult(s.journal, cmd.id) ==>
                 && VerdictOf(t.journal[cmd.id]) == FinalVerdict(cmd, script)
                 && (t.journal[cmd.id].reported <==> FinalReport(cmd, script).end.Confirmed?)
                 && t.conn == (if FinalReport(cmd, script).end.ReportThrew? then None else s.conn)
                 && t.journal[cmd.id].generation == (if cmd.id in s.journal then s.journal[cmd.id].generation else cmd.generation)
                 && t.log.sent == s.log.sent + Spoke(cmd, script)
                 && t.log.received == s.log.received + Learnt(cmd, script))
    ensures Clean(s, HandlingSteps(s.journal, cmd, script)) <==> HasTerminalResult(s.journal, cmd.id) || !Caught(cmd, script)
  {
    var deliver := Deliver(cmd, script.now);
    OneStep(s, deliver);
    if HasTerminalResult(s.journal, cmd.id) {
      assert HandlingSteps(s.journal, cmd, script) == [deliver];
    } else {
      var s1 := Apply(s, deliver);
      AcceptFacts(s, cmd, script.now);
      ExecuteRuns(s1, cmd, script);
      RunTogether(s, [deliver], ExecuteSteps(cmd, script));
      RowsAfter(s.journal, s1.journal, Exec(s1, ExecuteSteps(cmd, script)).journal, cmd.id);
    }
  }

  predicate Fails(row: Row, code: string, message: string) {
    row.status == Failed && row.resultJson == None && row.errorCode == Some(code) && row.errorMessage == Some(message)
  }

  predicate Succeeds(row: Row, json: Option<string>) {
    row.status == Succeeded && row.resultJson == json && row.errorCode == None && row.errorMessage == None
  }

  /**
    What a handled command's row says, for each way its handling can go: there is no handler; the
    handler raises; it answers, but the report of that raises and is taken for the handler's
    exception; it rejects the command; or it returns.
   */
  predicate RowTells(row: Row, cmd: Command, script: Script) {
    match cmd.operation
    case Reconcile => Fails(row, "NO_HANDLER", "No handler registered for operation Reconcile")
    case Unknown => Fails(row, "NO_HANDLER", "No handler registered for operation Unknown")
    case _ =>
      match script.outcome
      case Raised(message) => Fails(row, "HANDLER_EXCEPTION", message)
      case Rejected(code, message) =>
        if script.first.end.ReportThrew? then Fails(row, "HANDLER_EXCEPTION", script.first.end.message) else Fails(row, code, message)
      case Returned(json) =>
        if script.first.end.ReportThrew? then Fails(row, "HANDLER_EXCEPTION", script.first.end.message) else Succeeds(row, json)
  }

  /** The report that comes last is the exception's, if the result's raises and is caught, and the result's otherwise. */
  predicate MarkTells(row: Row, cmd: Command, script: Script) {
    row.reported <==>
    if cmd.operation.Reconcile? || cmd.operation.Unknown? || script.outcome.Raised? || !script.first.end.ReportThrew?
    then script.first.end.Confirmed? else script.second.end.Confirmed?
  }

  lemma FinalVerdictTells(row: Row, cmd: Command, script: Script)
    requires VerdictOf(row) == FinalVerdict(cmd, script) && (row.reported <==> FinalReport(cmd, script).end.Confirmed?)
    ensures RowTells(row, cmd, script) && MarkTells(row, cmd, script)
  {
    var prefix := "No handler registered for operation ";
    assert prefix + "Reconcile" == "No handler registered for operation Reconcile";
    assert prefix + "Unknown" == "No handler registered for operation Unknown";
  }

  /**
    What a handling journals and reports, told by what the world did alone: a success exactly if
    there is a handler for the operation, it returned, and the report of that did not raise; and
    what the last report posts says just that.
   */
  lemma HandlingTells(s: State, cmd: Command, script: Script)
    requires Inv(s) && s.conn.Some? && s.phase.Idle? && Possible(cmd, script) && !HasTerminalResult(s.journal, cmd.id)
    ensures Legal(s, HandlingSteps(s.journal, cmd, script))
    ensures var t := Exec(s, HandlingSteps(s.journal, cmd, script));
            && cmd.id in t.journal && RowTells(t.journal[cmd.id], cmd, script) && MarkTells(t.journal[cmd.id], cmd, script)
            && (t.journal[cmd.id].status == Succeeded <==>
                !cmd.operation.Reconcile? && !cmd.operation.Unknown? && script.outcome.Returned? && !script.first.end.ReportThrew?)
            && (FinalReport(cmd, script).posts != [] ==>
                  exists m :: m in t.log.sent && Says(m, cmd.id, VerdictOf(t.journal[cmd.id]), cmd.generation))
            && (true in FinalReport(cmd, script).posts ==>
                  exists m :: m in t.log.received && Says(m, cmd.id, VerdictOf(t.journal[cmd.id]), cmd.generation))
  {
    HandlingFinishes(s, cmd, script);
    var row := Exec(s, HandlingSteps(s.journal, cmd, script)).journal[cmd.id];
    FinalVerdictTells(row, cmd, script);
    PostSays(cmd, VerdictOf(row));
    var m := Post(cmd, VerdictOf(row));
    assert Says(m, cmd.id, VerdictOf(row), cmd.generation);
    assert FinalReport(cmd, script).posts != [] ==> m in Spoke(cmd, script);
    assert true in FinalReport(cmd, script).posts ==> m in Learnt(cmd, script);
  }

  /**
    Which deliveries keep the generations in step: handling a command that has no result yet posts
    exactly what a later resend would say if and only if the journal has no row for it yet, or one
    with the delivered generation.
   */
  lemma GenerationAgreesExactly(s: State, cmd: Command, script: Script)
    requires Inv(s) && s.conn.Some? && s.phase.Idle? && Possible(cmd, script)
    requires !HasTerminalResult(s.journal, cmd.id)
    ensures Legal(s, HandlingSteps(s.journal, cmd, script))
    ensures var t := Exec(s, HandlingSteps(s.journal, cmd, script));
            cmd.id in t.journal &&
            (Post(cmd, FinalVerdict(cmd, script)) == Resend(cmd.id, t.journal[cmd.id]) <==>
             cmd.id !in s.journal || s.journal[cmd.id].generation == cmd.generation)
  {
    HandlingFinishes(s, cmd, script);
  }

  /** Both reports of a caught handling say the same. */
  predicate Repeats(cmd: Command, script: Script)
    requires Caught(cmd, script)
  {
    SayTheSame(cmd, HandlerVerdict(script.outcome), RaisedVerdict(script.first.end.message))
  }

  /**
    Which handlings keep everything said in agreement with the journal: all of them, unless the
    report posted the result, then raised, and was caught, and the result does not read like the
    exception's.
   */
  lemma HandlingKeepsSpokenExactly(s: State, cmd: Command, script: Script)
    requires Inv(s) && Spoken(s) && s.conn.Some? && s.phase.Idle? && Possible(cmd, script)
    ensures Legal(s, HandlingSteps(s.journal, cmd, script))
    ensures Spoken(Exec(s, HandlingSteps(s.journal, cmd, script))) <==>
            HasTerminalResult(s.journal, cmd.id) || !Caught(cmd, script) || script.first.posts == [] || Repeats(cmd, script)
  {
    HandlingFinishes(s, cmd, script);
    if !HasTerminalResult(s.journal, cmd.id) {
      var t := Exec(s, HandlingSteps(s.journal, cmd, script));
      OldWordsStayFaithful(s, t, cmd);
      var row := t.journal[cmd.id];
      assert SameOutcome(Post(cmd, FinalVerdict(cmd, script)), Resend(cmd.id, row));
      if Caught(cmd, script) && script.first.posts != [] {
        var m := Post(cmd, HandlerVerdict(script.outcome));
        assert m in t.log.sent;
        assert Faithful(t.journal, m) <==> Repeats(cmd, script);
      }
    }
  }

  /** What was said before is about finished commands, whose rows have not changed. */
  lemma OldWordsStayFaithful(s: State, t: State, cmd: Command)
    requires Spoken(s) && !HasTerminalResult(s.journal, cmd.id)
    requires cmd.id in t.journal && t.journal == s.journal[cmd.id := t.journal[cmd.id]] && (t.conn == s.conn || t.conn.None?)
    ensures forall m :: m in s.log.sent ==> m.id != cmd.id && Faithful(t.journal, m)
    ensures t.conn.Some? ==> forall i :: 0 <= i < |t.conn.value.batch| ==> Exact(t.journal, t.conn.value.batch[i])
  {
    forall m | m in s.log.sent ensures m.id != cmd.id && Faithful(t.journal, m) {
      assert Faithful(s.journal, m);
    }
    if t.conn.Some? {
      forall i | 0 <= i < |t.conn.value.batch| ensures Exact(t.journal, t.conn.value.batch[i]) {
        assert Exact(s.journal, s.conn.value.batch[i]);
      }
    }
  }

  /** What one handling tells Cloud is one outcome unless a POST of both reports arrives and they differ. */
  lemma LearntAgrees(cmd: Command, script: Script)
    ensures (forall m, n :: m in Learnt(cmd, script) && n in Learnt(cmd, script) ==> SameOutcome(m, n)) <==>
            !Caught(cmd, script) || true !in script.first.posts || true !in script.second.posts || Repeats(cmd, script)
  {
    if Caught(cmd, script) && true in script.first.posts && true in script.second.posts {
      var m, n := Post(cmd, HandlerVerdict(script.outcome)), Post(cmd, RaisedVerdict(script.first.end.message));
      assert Learnt(cmd, script) == {m, n};
      assert SameOutcome(m, n) <==> Repeats(cmd, script);
    }
  }

  ghost predicate OneOutcomeHeard(s: State, id: string) {
    forall m, n :: m in s.log.received && n in s.log.received && m.id == n.id == id ==> SameOutcome(m, n)
  }

  /**
    What Cloud hears of one handling agrees unless a POST of both reports reached it, the report of
    the result before it raised and that of the exception, and they say different things.
   */
  lemma CloudHearsOneOutcomeExactly(s: State, cmd: Command, script: Script)
    requires Inv(s) && Spoken(s) && Heard(s) && s.conn.Some? && s.phase.Idle? && Possible(cmd, script)
    ensures Legal(s, HandlingSteps(s.journal, cmd, script))
    ensures OneOutcomeHeard(Exec(s, HandlingSteps(s.journal, cmd, script)), cmd.id) <==>
            || HasTerminalResult(s.journal, cmd.id) || !Caught(cmd, script)
            || true !in script.first.posts || true !in script.second.posts || Repeats(cmd, script)
  {
    HandlingFinishes(s, cmd, script);
    var t := Exec(s, HandlingSteps(s.journal, cmd, script));
    if HasTerminalResult(s.journal, cmd.id) {
      forall m, n | m in t.log.received && n in t.log.received && m.id == n.id ensures SameOutcome(m, n) {
        assert Faithful(s.journal, m) && Faithful(s.journal, n);
      }
    } else {
      LearntAgrees(cmd, script);
      NothingHeardBefore(s, t, cmd, script);
    }
  }

  lemma NothingHeardBefore(s: State, t: State, cmd: Command, script: Script)
    requires Spoken(s) && Heard(s) && !HasTerminalResult(s.journal, cmd.id)
    requires t.log.received == s.log.received + Learnt(cmd, script)
    ensures forall m :: m in t.log.received && m.id == cmd.id <==> m in Learnt(cmd, script)
  {
    forall m | m in s.log.received ensures m.id != cmd.id {
      assert Faithful(s.journal, m);
    }
  }
}
