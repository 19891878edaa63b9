/** Concrete runs: how far the guarantees go, and no further. */
module Witnesses {
  import opened Wrappers
  import opened Commands
  import opened Journal
  import opened Protocol
  import opened Invariants
  import opened Agreement
  import opened Delivery
  import Progress
  import Retry

  const CMD := Command("c", Create, 1, "box", "dev")

  lemma Append(s: State, steps: seq<Step>, step: Step)
    requires Legal(s, steps) && Enabled(Exec(s, steps), step)
    ensures Legal(s, steps + [step]) && Exec(s, steps + [step]) == Apply(Exec(s, steps), step)
    ensures Clean(s, steps + [step]) <==> Clean(s, steps) && !Overwrites(Exec(s, steps), step)
  {
    Progress.OneStep(Exec(s, steps), step);
    RunTogether(s, steps, [step]);
  }

  lemma AppendKeeps(s: State, steps: seq<Step>, step: Step)
    requires Legal(s, steps) && Enabled(Exec(s, steps), step)
    ensures Legal(s, steps + [step])
    ensures Agreeable(s, steps) && Harmless(Exec(s, steps), step) ==> Agreeable(s, steps + [step])
    ensures OrderedStream(s, steps) && (step.HelloAccepted? ==> InOrder(Exec(s, steps))) ==> OrderedStream(s, steps + [step])
  {
    Append(s, steps, step);
    AgreeableTogether(s, steps, [step]);
    OrderedTogether(s, steps, [step]);
    assert [step][1..] == [];
    assert Agreeable(Apply(Exec(s, steps), step), []) && OrderedStream(Apply(Exec(s, steps), step), []);
  }

  function ToHandler(cmd: Command): seq<Step> { [Connect, Deliver(cmd, 0), StartHandler(0)] }

  const TO_HANDLER := ToHandler(CMD)

  lemma ReachHandler(s: State, cmd: Command)
    requires s.conn.None? && s.phase.Idle? && !HasTerminalResult(s.journal, cmd.id) && cmd.operation in HANDLED
    ensures Legal(s, ToHandler(cmd)) && Clean(s, ToHandler(cmd))
    ensures var t := Exec(s, ToHandler(cmd));
            && t.phase == Handling(cmd, []) && t.conn == Some(Connection(true, false, [], []))
            && t.journal == RecordRunning(RecordAccepted(s.journal, cmd.id, OperationName(cmd.operation), cmd.generation, 0), cmd.id, 0)
            && t.pending == s.pending && t.log == s.log.(starts := s.log.starts + multiset{cmd.id})
  {
    Append(s, [], Connect);
    Append(s, [Connect], Deliver(cmd, 0));
    Append(s, [Connect, Deliver(cmd, 0)], StartHandler(0));
    assert [] + [Connect] == [Connect];
    assert [Connect] + [Deliver(cmd, 0)] == [Connect, Deliver(cmd, 0)];
    assert [Connect, Deliver(cmd, 0)] + [StartHandler(0)] == ToHandler(cmd);
  }

  /** One more creation for a command that has no result yet, cut short by the process being stopped. */
  lemma CreationInterrupted(s: State, cmd: Command)
    requires s.conn.None? && s.phase.Idle? && !HasTerminalResult(s.journal, cmd.id) && cmd.operation in CREATING && cmd.operation in HANDLED
    ensures var run := ToHandler(cmd) + [CallMaker(Retry.Returned("p"))] + [Interrupt];
            && Legal(s, run)
            && var t := Exec(s, run);
               && t.conn.None? && t.phase.Idle? && !HasTerminalResult(t.journal, cmd.id)
               && t.log.creations == s.log.creations + multiset{cmd.id}
               && t.log.interruptions == s.log.interruptions + multiset{cmd.id}
  {
    var call := CallMaker(Retry.Returned("p"));
    ReachHandler(s, cmd);
    Append(s, ToHandler(cmd), call);
    Append(s, ToHandler(cmd) + [call], Interrupt);
  }

  /** The creation bound is attained: interrupted after the container was made, the command makes another. */
  lemma TwoCreationsAfterInterruption()
    ensures var half := TO_HANDLER + [CallMaker(Retry.Returned("p"))];
            var run := half + [Interrupt] + half;
            && Legal(INIT, run)
            && Exec(INIT, run).log.creations["c"] == 2 && Exec(INIT, run).log.interruptions["c"] == 1
  {
    var call := CallMaker(Retry.Returned("p"));
    CreationInterrupted(INIT, CMD);
    var run := TO_HANDLER + [call] + [Interrupt];
    var s := Exec(INIT, run);
    ReachHandler(s, CMD);
    Append(s, TO_HANDLER, call);
    RunTogether(INIT, run, TO_HANDLER + [call]);
  }

  /** A report that raises after a POST went out makes the agent tell Cloud that a successful command failed. */
  lemma RaisingReportContradictsItself()
    ensures exists run, m, n ::
              && Legal(INIT, run) && !Clean(INIT, run) && !Agreeable(INIT, run)
              && m in Exec(INIT, run).log.received && n in Exec(INIT, run).log.received && m.id == n.id && m.succeeded && !n.succeeded
  {
    ReachReporting();
    PostRaisePost(REPORTING);
  }

  lemma ContradictionIsNotAgreeable(run: seq<Step>, m: Message, n: Message)
    requires Legal(INIT, run) && m in Exec(INIT, run).log.received && n in Exec(INIT, run).log.received
    requires m.id == n.id && m.succeeded != n.succeeded
    ensures !Agreeable(INIT, run)
  {
    RunKeepsHeard(INIT, run);
    if Agreeable(INIT, run) {
      OutcomesAgree(run, m, n);
    }
  }

  lemma PostRaisePost(run: seq<Step>)
    requires Legal(INIT, run)
    requires Exec(INIT, run).phase == Reporting(CMD, HandlerVerdict(Returned(None)), true, 0, false)
    ensures exists more, m, n ::
              && Legal(INIT, more) && !Clean(INIT, more) && !Agreeable(INIT, more)
              && m in Exec(INIT, more).log.received && n in Exec(INIT, more).log.received && m.id == n.id && m.succeeded && !n.succeeded
  {
    var raised := PostThenRaise(run);
    Append(INIT, raised, PostResult(true));
    var more := raised + [PostResult(true)];
    var m, n := Post(CMD, HandlerVerdict(Returned(None))), Post(CMD, RaisedVerdict("closed"));
    assert m in Exec(INIT, more).log.received && n in Exec(INIT, more).log.received;
    ContradictionIsNotAgreeable(more, m, n);
  }

  lemma PostThenRaise(run: seq<Step>) returns (more: seq<Step>)
    requires Legal(INIT, run)
    requires Exec(INIT, run).phase == Reporting(CMD, HandlerVerdict(Returned(None)), true, 0, false)
    ensures Legal(INIT, more) && !Clean(INIT, more)
    ensures Exec(INIT, more).phase == Reporting(CMD, RaisedVerdict("closed"), false, 0, false)
    ensures Post(CMD, HandlerVerdict(Returned(None))) in Exec(INIT, more).log.received
  {
    Append(INIT, run, PostResult(true));
    Append(INIT, run + [PostResult(true)], ReportRaised("closed", 0));
    more := run + [PostResult(true)] + [ReportRaised("closed", 0)];
  }

  /** One that raises before any POST went out takes nothing back: the run is not clean, and yet everything said agrees. */
  lemma RaisedBeforePostingAgrees()
    ensures exists run ::
              && Legal(INIT, run) && !Clean(INIT, run) && Agreeable(INIT, run)
              && Exec(INIT, run).log.received == {Post(CMD, RaisedVerdict("closed"))}
  {
    ReachReporting();
    CleanIsAgreeable(INIT, REPORTING);
    RaiseThenPost(REPORTING);
  }

  const REPORTING := TO_HANDLER + [FinishHandler(Returned(None), 0)]

  lemma ReachReporting()
    ensures Legal(INIT, REPORTING) && Clean(INIT, REPORTING)
    ensures var s := Exec(INIT, REPORTING);
            && s.phase == Reporting(CMD, HandlerVerdict(Returned(None)), true, 0, false)
            && s.conn == Some(Connection(true, false, [], [])) && s.pending == []
            && s.journal.Keys == {"c"} && Unreportedly(s.journal, "c") && s.journal["c"].status.Succeeded?
            && s.log.received == {} && s.log.sent == {}
  {
    ReachHandler(INIT, CMD);
    Append(INIT, TO_HANDLER, FinishHandler(Returned(None), 0));
  }

  lemma RaiseThenPost(run: seq<Step>)
    requires Legal(INIT, run) && Agreeable(INIT, run)
    requires var s := Exec(INIT, run);
             && s.phase == Reporting(CMD, HandlerVerdict(Returned(None)), true, 0, false)
             && s.conn == Some(Connection(true, false, [], [])) && s.log.received == {} && s.log.sent == {}
    ensures exists more ::
              && Legal(INIT, more) && !Clean(INIT, more) && Agreeable(INIT, more)
              && Exec(INIT, more).log.received == {Post(CMD, RaisedVerdict("closed"))}
  {
    var raised, post := ReportRaised("closed", 0), PostResult(true);
    assert !Said(Exec(INIT, run), "c");
    Append(INIT, run, raised);
    AppendKeeps(INIT, run, raised);
    Append(INIT, run + [raised], post);
    AppendKeeps(INIT, run + [raised], post);
    var more := run + [raised] + [post];
    assert Exec(INIT, more).log.received == {Post(CMD, RaisedVerdict("closed"))};
  }

  const UNREPORTED := REPORTING + [ReportGivenUp]

  lemma ReachUnreported()
    ensures Legal(INIT, UNREPORTED) && Clean(INIT, UNREPORTED)
    ensures var s := Exec(INIT, UNREPORTED);
            && s.phase.Idle? && s.conn == Some(Connection(true, false, [], [])) && s.pending == []
            && s.journal.Keys == {"c"} && Unreportedly(s.journal, "c") && s.log.received == {}
  {
    ReachReporting();
    Append(INIT, REPORTING, ReportGivenUp);
  }

  /**
    A HelloAccepted that overtakes the batch marks a result that Cloud never got. This is allowed: it
    answers the Hello, which is sent before the batch.
   */
  lemma EarlyHelloLosesResult()
    ensures exists run :: Legal(INIT, run) && Clean(INIT, run) && !Delivered(Exec(INIT, run))
  {
    ReachUnreported();
    var s := Exec(INIT, UNREPORTED);
    var entries := [Entry("c", s.journal["c"])];
    assert Lists(entries, "c") by { assert entries[0].id == "c"; }
    Append(INIT, UNREPORTED, TakeSnapshot(entries));
    HelloBreaksDelivery(UNREPORTED + [TakeSnapshot(entries)]);
  }

  /**
    And so does one on a later connection that has not taken its own snapshot: the ids left pending
    by a connection that dropped are still there.
   */
  lemma StalePendingLosesResult()
    ensures exists run :: Legal(INIT, run) && Clean(INIT, run) && !Delivered(Exec(INIT, run))
  {
    ReachUnreported();
    var s := Exec(INIT, UNREPORTED);
    var entries := [Entry("c", s.journal["c"])];
    assert Lists(entries, "c") by { assert entries[0].id == "c"; }
    var snapshot := UNREPORTED + [TakeSnapshot(entries)];
    Append(INIT, UNREPORTED, TakeSnapshot(entries));
    Append(INIT, snapshot, LinkLost);
    Append(INIT, snapshot + [LinkLost], Disconnect);
    Append(INIT, snapshot + [LinkLost] + [Disconnect], Connect);
    HelloBreaksDelivery(snapshot + [LinkLost] + [Disconnect] + [Connect]);
  }

  lemma HelloBreaksDelivery(run: seq<Step>)
    requires Legal(INIT, run) && Clean(INIT, run)
    requires var s := Exec(INIT, run); s.phase.Idle? && s.conn.Some? && s.pending != [] && s.log.received == {} && Delivered(s)
    ensures exists more :: Legal(INIT, more) && Clean(INIT, more) && !Delivered(Exec(INIT, more))
  {
    var s := Exec(INIT, run);
    RunKeepsInv(INIT, run);
    assert !CloudHas(s, s.pending[0]);
    HelloKeepsDeliveryExactly(s, 0);
    HelloRuns(s, 0);
    RunTogether(INIT, run, HelloSteps(s.pending, 0));
  }

  /** A redelivery with another generation makes the HTTP report and the resend disagree. */
  lemma ChangedGenerationDisagrees()
    ensures exists run, m, n ::
              && Legal(INIT, run) && Clean(INIT, run)
              && m in Exec(INIT, run).log.sent && n in Exec(INIT, run).log.sent && m.id == n.id && m.generation != n.generation
  {
    var again := CMD.(generation := 2);
    var done, post := FinishHandler(Returned(None), 0), PostResult(false);
    var half := ReachAccepted();
    var s := Exec(INIT, half);
    ReachHandler(s, again);
    RunTogether(INIT, half, ToHandler(again));
    var run := half + ToHandler(again);
    Append(INIT, run, done);
    Append(INIT, run + [done], post);
    ResendAfterPost(run + [done] + [post], again);
  }

  lemma ReachAccepted() returns (run: seq<Step>)
    ensures Legal(INIT, run) && Clean(INIT, run)
    ensures var s := Exec(INIT, run);
            && s.phase.Idle? && s.conn.None? && s.log.sent == {}
            && s.journal == map["c" := Row("Create", Accepted, 1, None, None, None, false, 0, 0)]
  {
    var deliver := Deliver(CMD, 0);
    Append(INIT, [], Connect);
    Append(INIT, [] + [Connect], deliver);
    Append(INIT, [] + [Connect] + [deliver], Interrupt);
    run := [] + [Connect] + [deliver] + [Interrupt];
  }

  /** Take the snapshot of a table with one unreported result, and write that result out. */
  lemma Written(run: seq<Step>, id: string, row: Row) returns (more: seq<Step>)
    requires Legal(INIT, run)
    requires var s := Exec(INIT, run);
             && s.journal == map[id := row] && Unreportedly(s.journal, id)
             && s.conn == Some(Connection(true, false, [], [])) && !s.phase.Acknowledging?
    ensures more == run + [TakeSnapshot([Entry(id, row)])] + [WriteResend]
    ensures Legal(INIT, more) && (Clean(INIT, run) ==> Clean(INIT, more))
    ensures var s, t, m := Exec(INIT, run), Exec(INIT, more), Resend(id, row);
            t == s.(pending := [id], conn := Some(Connection(true, true, [], [m])), log := s.log.(sent := s.log.sent + {m}))
  {
    var entries := [Entry(id, row)];
    assert Lists(entries, id) by { assert entries[0].id == id; }
    Append(INIT, run, TakeSnapshot(entries));
    assert Batch(entries) == [Resend(id, row)] && Ids(entries) == [id] && Batch(entries)[1..] == [];
    Append(INIT, run + [TakeSnapshot(entries)], WriteResend);
    more := run + [TakeSnapshot(entries)] + [WriteResend];
    assert [] + [Resend(id, row)] == [Resend(id, row)];
  }

  lemma ResendAfterPost(run: seq<Step>, cmd: Command)
    requires Legal(INIT, run) && Clean(INIT, run)
    requires var s := Exec(INIT, run);
             && s.phase.Reporting? && s.phase.cmd == cmd && s.conn == Some(Connection(true, false, [], []))
             && s.journal.Keys == {cmd.id} && Unreportedly(s.journal, cmd.id) && s.journal[cmd.id].generation != cmd.generation
             && Post(cmd, s.phase.verdict) in s.log.sent
    ensures exists more, m, n ::
              && Legal(INIT, more) && Clean(INIT, more)
              && m in Exec(INIT, more).log.sent && n in Exec(INIT, more).log.sent && m.id == n.id && m.generation != n.generation
  {
    var s := Exec(INIT, run);
    var row := s.journal[cmd.id];
    assert s.journal == map[cmd.id := row];
    var more := Written(run, cmd.id, row);
    var m, n := Post(cmd, s.phase.verdict), Resend(cmd.id, row);
    assert m in Exec(INIT, more).log.sent && n in Exec(INIT, more).log.sent;
  }

  /**
    An ordered stream alone does not deliver: the batch carries the success, the report raises and a
    failure is journaled over it, and the HelloAccepted marks that. Cloud has heard of every reported
    command, but not what the journal holds.
   */
  lemma OverwrittenResultIsNotDelivered()
    ensures exists run ::
              && Legal(INIT, run) && OrderedStream(INIT, run)
              && ReportedIsHeardOf(Exec(INIT, run)) && !Delivered(Exec(INIT, run))
  {
    var run := ReachOverwritten();
    var s := Exec(INIT, run);
    Append(INIT, run, HelloAccepted);
    AppendKeeps(INIT, run, HelloAccepted);
    Append(INIT, run + [HelloAccepted], MarkNext(0));
    AppendKeeps(INIT, run + [HelloAccepted], MarkNext(0));
    var marked := run + [HelloAccepted] + [MarkNext(0)];
    var t := Exec(INIT, marked);
    assert t.journal["c"].reported && t.log == s.log;
    assert HeardOf(t, "c");
    assert !CloudHas(t, "c");
  }

  lemma ReachResent() returns (run: seq<Step>)
    ensures Legal(INIT, run) && OrderedStream(INIT, run)
    ensures var s := Exec(INIT, run);
            && s.phase == Reporting(CMD, HandlerVerdict(Returned(None)), true, 0, false)
            && s.conn.Some? && CaughtUp(s.conn.value) && s.pending == ["c"] && s.journal.Keys == {"c"}
            && (exists m :: m in s.log.received && m.id == "c") && forall m :: m in s.log.received ==> m.succeeded
  {
    ReachReporting();
    var row := Exec(INIT, REPORTING).journal["c"];
    assert Exec(INIT, REPORTING).journal == map["c" := row];
    var written := Written(REPORTING, "c", row);
    Append(INIT, written, CloudReceives);
    run := written + [CloudReceives];
    assert Resend("c", row) in Exec(INIT, run).log.received;
    QuietIsOrdered(INIT, run);
  }

  lemma ReachOverwritten() returns (run: seq<Step>)
    ensures Legal(INIT, run) && OrderedStream(INIT, run)
    ensures var s := Exec(INIT, run);
            && s.phase.Idle? && s.conn.Some? && CaughtUp(s.conn.value) && s.pending == ["c"]
            && s.journal.Keys == {"c"} && s.journal["c"].status.Failed?
            && (exists m :: m in s.log.received && m.id == "c") && forall m :: m in s.log.received ==> m.succeeded
  {
    var raised := ReportRaised("closed", 0);
    run := ReachResent();
    Append(INIT, run, raised);
    AppendKeeps(INIT, run, raised);
    Append(INIT, run + [raised], ReportGivenUp);
    AppendKeeps(INIT, run + [raised], ReportGivenUp);
    run := run + [raised] + [ReportGivenUp];
  }
}
