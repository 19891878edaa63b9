/**
  The agent's objects: the executor of commands/executor.py with the report closure of main.py, and
  the connection manager of control/grpc_client.py. Every write they make is checked, as it is made,
  against a step of the protocol, so that stopping the process anywhere leaves a state of the protocol.
 */
module Agent {
  import opened Wrappers
  import opened Commands
  import opened Journal
  import opened Protocol
  import opened Invariants
  import opened Progress
  import Delivery
  import Placement
  import Retry
  import Clients

  ghost predicate Moves(states: seq<State>, steps: seq<Step>, i: nat)
    requires |states| == |steps| + 1 && i < |steps|
  {
    Enabled(states[i], steps[i]) && states[i + 1] == Apply(states[i], steps[i])
  }

  /** `states` are the states that a run goes through. */
  ghost predicate Visits(states: seq<State>, steps: seq<Step>) {
    |states| == |steps| + 1 && forall i: nat :: i < |steps| ==> Moves(states, steps, i)
  }

  ghost predicate Ran(start: State, steps: seq<Step>, end: State) {
    exists states :: Connects(states, start, steps, end)
  }

  ghost predicate Connects(states: seq<State>, start: State, steps: seq<Step>, end: State) {
    Visits(states, steps) && states[0] == start && states[|steps|] == end
  }

  /** Going through states step by step is running the protocol. */
  lemma {:induction false} RanIsRun(start: State, steps: seq<Step>, end: State)
    requires Ran(start, steps, end)
    ensures Legal(start, steps) && Exec(start, steps) == end
    decreases steps
  {
    var states :| Connects(states, start, steps, end);
    if steps != [] {
      assert Moves(states, steps, 0);
      forall i: nat | i < |steps| - 1 ensures Moves(states[1..], steps[1..], i) {
        assert Moves(states, steps, i + 1);
      }
      assert Connects(states[1..], states[1], steps[1..], end);
      RanIsRun(states[1], steps[1..], end);
    }
  }

  lemma RanFurther(start: State, steps: seq<Step>, end: State, step: Step)
    requires Ran(start, steps, end) && Enabled(end, step)
    ensures Ran(start, steps + [step], Apply(end, step))
  {
    var states :| Connects(states, start, steps, end);
    var longer := states + [Apply(end, step)];
    forall i: nat | i < |steps| + 1 ensures Moves(longer, steps + [step], i) {
      if i < |steps| {
        assert Moves(states, steps, i);
      }
    }
    assert Connects(longer, start, steps + [step], Apply(end, step));
  }

  /** The protocol's view of what the objects have done since the process started. */
  class Recorder {
    ghost const start: State
    ghost var state: State
    ghost var trace: seq<Step>

    ghost predicate Valid()
      reads this
    {
      Ran(start, trace, state)
    }

    constructor (ghost initial: State)
      ensures Valid() && start == state == initial && trace == []
    {
      start, state, trace := initial, initial, [];
      new;
      assert Connects([initial], initial, [], initial);
    }

    ghost method Take(step: Step)
      requires Valid() && Enabled(state, step)
      modifies this
      ensures Valid() && state == Apply(old(state), step) && trace == old(trace) + [step]
    {
      RanFurther(start, trace, state, step);
      state, trace := Apply(state, step), trace + [step];
    }

    /** From a point at which these steps could follow, they lead to where the recorder is. */
    lemma LedHere(before: seq<Step>, point: State, steps: seq<Step>)
      requires Valid() && Ran(start, before, point) && Legal(point, steps) && trace == before + steps
      ensures state == Exec(point, steps)
    {
      RanIsRun(start, before, point);
      RanIsRun(start, trace, state);
      RunTogether(start, before, steps);
    }

    /** What has been recorded is a run of the protocol. */
    lemma IsRun()
      requires Valid()
      ensures Legal(start, trace) && state == Exec(start, trace)
      ensures Inv(start) ==> Inv(state)
    {
      RanIsRun(start, trace, state);
      if Inv(start) {
        RunKeepsInv(start, trace);
      }
    }
  }

  /**
    A lifetime that starts on the journal of an earlier run continues that run: the earlier steps, the
    process being stopped, and what has been recorded since are one run from the very first start.
   */
  lemma LifetimesAreOneRun(earlier: seq<Step>, recorder: Recorder)
    requires Legal(INIT, earlier) && recorder.Valid() && recorder.start == Apply(Exec(INIT, earlier), Interrupt)
    ensures var run := earlier + [Interrupt] + recorder.trace;
            Legal(INIT, run) && Exec(INIT, run) == recorder.state && Inv(recorder.state)
  {
    recorder.IsRun();
    OneStep(Exec(INIT, earlier), Interrupt);
    RunTogether(INIT, earlier, [Interrupt]);
    RunTogether(INIT, earlier + [Interrupt], recorder.trace);
    ReachableInv(earlier + [Interrupt] + recorder.trace);
  }

  class CommandExecutor {
    const journal: CommandJournal
    const cache: Placement.PlacementCache
    const recorder: Recorder
    var handlers: set<Operation>

    constructor (journal: CommandJournal, cache: Placement.PlacementCache, recorder: Recorder)
      ensures this.journal == journal && this.cache == cache && this.recorder == recorder && handlers == {}
    {
      this.journal, this.cache, this.recorder := journal, cache, recorder;
      handlers := {};
    }

    method Register(operation: Operation)
      modifies this
      ensures handlers == old(handlers) + {operation}
    {
      handlers := handlers + {operation};
    }

    /** The durable table and the cache are the protocol's, and main.py has registered its handlers. */
    ghost predicate Coupled()
      reads this, journal, cache, recorder
    {
      recorder.Valid() && recorder.state.journal == journal.rows && recorder.state.cache == cache.entries && handlers == HANDLED
    }

    /** Record a step whose effect on the table and the cache has just been carried out. */
    ghost method Take(step: Step)
      requires recorder.Valid() && Enabled(recorder.state, step) && handlers == HANDLED
      requires journal.rows == Apply(recorder.state, step).journal && cache.entries == Apply(recorder.state, step).cache
      modifies recorder
      ensures Coupled()
      ensures recorder.state == Apply(old(recorder.state), step) && recorder.trace == old(recorder.trace) + [step]
    {
      recorder.Take(step);
    }

    ghost method TakePosts(posts: seq<bool>)
      requires Coupled() && recorder.state.phase.Reporting? && recorder.state.phase.posts + |posts| <= Clients.REPORT_ATTEMPTS
      modifies recorder
      ensures Coupled() && recorder.trace == old(recorder.trace) + PostSteps(posts)
      ensures var p := old(recorder.state.phase);
              recorder.state == old(recorder.state).(
                phase := p.(posts := p.posts + |posts|, delivered := p.delivered || true in posts), log := recorder.state.log)
    {
      var i := 0;
      var p := recorder.state.phase;
      while i < |posts|
        invariant 0 <= i <= |posts|
        invariant Coupled() && recorder.trace == old(recorder.trace) + PostSteps(posts[..i])
        invariant recorder.state == old(recorder.state).(
                    phase := p.(posts := p.posts + i, delivered := p.delivered || true in posts[..i]), log := recorder.state.log)
      {
        Take(PostResult(posts[i]));
        assert posts[..i + 1] == posts[..i] + [posts[i]];
        assert PostSteps(posts[..i + 1]) == PostSteps(posts[..i]) + [PostResult(posts[i])];
        i := i + 1;
      }
      assert posts[..i] == posts;
    }

    ghost method TakeCalls(cmd: Command, replies: seq<Clients.MakerReply>)
      requires Coupled() && recorder.state.phase == Handling(cmd, [])
      requires replies != [] ==> cmd.operation in CREATING && Retry.Transcript(replies, Clients.MakerRetryable, Clients.MAKER_ATTEMPTS)
      modifies recorder
      ensures Coupled() && recorder.trace == old(recorder.trace) + CallSteps(replies)
      ensures recorder.state == old(recorder.state).(phase := Handling(cmd, replies), log := recorder.state.log)
    {
      var i := 0;
      while i < |replies|
        invariant 0 <= i <= |replies|
        invariant Coupled() && recorder.trace == old(recorder.trace) + CallSteps(replies[..i])
        invariant recorder.state == old(recorder.state).(phase := Handling(cmd, replies[..i]), log := recorder.state.log)
      {
        MayGoOn(replies, i);
        Take(CallMaker(replies[i]));
        assert replies[..i + 1] == replies[..i] + [replies[i]];
        assert CallSteps(replies[..i + 1]) == CallSteps(replies[..i]) + [CallMaker(replies[i])];
        i := i + 1;
      }
      assert replies[..i] == replies;
    }

    /** main.py's `report_result`: marks the row on a confirmed report, and lets an exception through. */
    method ReportResult(cmd: Command, report: Clients.Report, now: int) returns (threw: bool)
      requires Coupled() && Clients.ValidReport(report)
      requires recorder.state.phase.Reporting? && recorder.state.phase.cmd == cmd && recorder.state.phase.posts == 0
      modifies journal, recorder
      ensures Coupled() && threw == report.end.ReportThrew?
      ensures recorder.state.pending == old(recorder.state.pending) && recorder.state.conn == old(recorder.state.conn)
      ensures HasTerminalResult(old(journal.rows), cmd.id) ==> HasTerminalResult(journal.rows, cmd.id)
      ensures !threw ==> recorder.trace == old(recorder.trace) + ReportSteps(report, now) && recorder.state.phase.Idle?
      ensures threw ==>
                && recorder.trace == old(recorder.trace) + PostSteps(report.posts)
                && recorder.state.phase.Reporting? && recorder.state.phase.cmd == cmd
                && recorder.state.phase.guarded == old(recorder.state.phase.guarded)
    {
      TakePosts(report.posts);
      threw := false;
      match report.end
      case Confirmed =>
        journal.Mark(cmd.id, now);
        Take(ReportConfirmed(now));
      case Unconfirmed =>
        Take(ReportGivenUp);
      case ReportThrew(_) =>
        threw := true;
    }

    /** The protocol has just settled this verdict; the table is still to be written. */
    ghost predicate AboutToJournal(cmd: Command, verdict: Verdict, guarded: bool, now: int)
      reads this, journal, cache, recorder
    {
      && recorder.Valid() && handlers == HANDLED && recorder.state.cache == cache.entries
      && recorder.state.journal == RecordResult(journal.rows, cmd.id, verdict, now)
      && recorder.state.phase == Reporting(cmd, verdict, guarded, 0, false)
      && cmd.id in journal.rows && IsTerminal(verdict.status)
    }

    /** `_finish`: journal first, then report. */
    method Finish(cmd: Command, verdict: Verdict, ghost guarded: bool, report: Clients.Report, now: int) returns (threw: bool)
      requires AboutToJournal(cmd, verdict, guarded, now) && Clients.ValidReport(report)
      modifies journal, recorder
      ensures Coupled() && threw == report.end.ReportThrew? && HasTerminalResult(journal.rows, cmd.id)
      ensures recorder.state.pending == old(recorder.state.pending)
      ensures !threw ==> recorder.trace == old(recorder.trace) + ReportSteps(report, now) && recorder.state.phase.Idle?
      ensures threw ==>
                && recorder.trace == old(recorder.trace) + PostSteps(report.posts)
                && recorder.state.phase.Reporting? && recorder.state.phase.cmd == cmd && recorder.state.phase.guarded == guarded
    {
      journal.Finish(cmd.id, verdict, now);
      threw := ReportResult(cmd, report, now);
    }

    /** `_finish` where nothing catches an exception from the report. */
    method FinishOutside(cmd: Command, verdict: Verdict, report: Clients.Report, now: int) returns (threw: bool)
      requires AboutToJournal(cmd, verdict, false, now) && Clients.ValidReport(report)
      modifies journal, recorder
      ensures Coupled() && threw == report.end.ReportThrew? && HasTerminalResult(journal.rows, cmd.id)
      ensures recorder.state.pending == old(recorder.state.pending) && recorder.state.phase.Idle?
      ensures recorder.trace == old(recorder.trace) + ReportSteps(report, now)
    {
      threw := Finish(cmd, verdict, false, report, now);
      if threw {
        Take(ReportRaised(report.end.message, now));
      }
    }

    /** `_finish` inside the `try` around the handler: an exception from the report is taken for the handler's. */
    method FinishInside(cmd: Command, verdict: Verdict, script: Script) returns (threw: bool)
      requires AboutToJournal(cmd, verdict, true, script.now)
      requires Clients.ValidReport(script.first) && Clients.ValidReport(script.second)
      modifies journal, recorder
      ensures Coupled() && HasTerminalResult(journal.rows, cmd.id)
      ensures threw <==> script.first.end.ReportThrew? && script.second.end.ReportThrew?
      ensures recorder.state.pending == old(recorder.state.pending) && recorder.state.phase.Idle?
      ensures recorder.trace == old(recorder.trace) + (ReportSteps(script.first, script.now) +
                if script.first.end.ReportThrew? then ReportSteps(script.second, script.now) else [])
    {
      threw := Finish(cmd, verdict, true, script.first, script.now);
      if threw {
        var message := script.first.end.message;
        RaisedApplies(recorder.state, message, script.now);
        recorder.Take(ReportRaised(message, script.now));
        threw := FinishOutside(cmd, RaisedVerdict(message), script.second, script.now);
        Regroup(old(recorder.trace), PostSteps(script.first.posts), [ReportRaised(message, script.now)], ReportSteps(script.second, script.now));
      }
    }

    /** Put the command in flight: its row, which is there, is set running, and the handler makes its calls. */
    method Start(cmd: Command, script: Script)
      requires Coupled() && recorder.state.phase == Dispatching(cmd) && Possible(cmd, script) && cmd.operation in HANDLED
      requires cmd.id in journal.rows
      modifies journal, recorder
      ensures Coupled() && recorder.state.phase == Handling(cmd, script.replies) && cmd.id in journal.rows
      ensures recorder.state.pending == old(recorder.state.pending) && recorder.state.cache == old(recorder.state.cache)
      ensures recorder.trace == old(recorder.trace) + ([StartHandler(script.now)] + CallSteps(script.replies))
    {
      var seen := journal.HasSeen(cmd.id);
      assert seen; // so the source's defensive acceptance of an unseen command has nothing to do here
      journal.Run(cmd.id, script.now);
      Take(StartHandler(script.now));
      TakeCalls(cmd, script.replies);
      Associate(old(recorder.trace), [StartHandler(script.now)], CallSteps(script.replies));
    }

    /** `_update_placement_cache` */
    method UpdatePlacement(cmd: Command)
      modifies cache
      ensures cache.entries == Placement.Update(old(cache.entries), cmd)
      ensures cmd.operation.Create? || cmd.operation.Resume? ==>
                cache.entries == if cmd.container == "" then old(cache.entries)
                                 else old(cache.entries)[cmd.container := Placement.Spot(cmd.device, cmd.generation)]
      ensures cmd.operation.Delete? || cmd.operation.Hibernate? ==> cache.entries == old(cache.entries) - {cmd.container}
      ensures cmd.operation.Save? || cmd.operation.Reconcile? || cmd.operation.Unknown? ==> cache.entries == old(cache.entries)
    {
      if cmd.operation in PLACING {
        cache.Put(cmd.container, cmd.device, cmd.generation);
      } else if cmd.operation in UNPLACING {
        cache.Drop(cmd.container);
      }
    }

    /**
      `execute`, for a command that the connection manager has just accepted. It carries out exactly
      the protocol's steps for what the world does, and raises only if the last report does.
     */
    method Execute(cmd: Command, script: Script) returns (threw: bool)
      requires Coupled() && recorder.state.phase == Dispatching(cmd) && Possible(cmd, script)
      requires cmd.id in journal.rows
      modifies journal, cache, recorder
      ensures Coupled()
      ensures recorder.trace == old(recorder.trace) + ExecuteSteps(cmd, script)
      ensures threw == FinalReport(cmd, script).end.ReportThrew?
      ensures HasTerminalResult(journal.rows, cmd.id)
      ensures RowTells(journal.rows[cmd.id], cmd, script) && MarkTells(journal.rows[cmd.id], cmd, script)
      ensures recorder.state.pending == old(recorder.state.pending) && recorder.state.phase.Idle?
    {
      threw := CarryOut(cmd, script);
      ExecuteRuns(old(recorder.state), cmd, script);
      recorder.LedHere(old(recorder.trace), old(recorder.state), ExecuteSteps(cmd, script));
      FinalVerdictTells(journal.rows[cmd.id], cmd, script);
    }

    /** The same, in terms of the steps alone. */
    method CarryOut(cmd: Command, script: Script) returns (threw: bool)
      requires Coupled() && recorder.state.phase == Dispatching(cmd) && Possible(cmd, script)
      requires cmd.id in journal.rows
      modifies journal, cache, recorder
      ensures Coupled()
      ensures recorder.trace == old(recorder.trace) + ExecuteSteps(cmd, script)
      ensures threw == FinalReport(cmd, script).end.ReportThrew?
      ensures HasTerminalResult(journal.rows, cmd.id)
      ensures recorder.state.pending == old(recorder.state.pending) && recorder.state.phase.Idle?
    {
      if cmd.operation !in handlers {
        RejectApplies(recorder.state, cmd, script.now);
        recorder.Take(RejectUnhandled(script.now));
        threw := FinishOutside(cmd, NoHandlerVerdict(cmd.operation), script.first, script.now);
        Associate(old(recorder.trace), [RejectUnhandled(script.now)], ReportSteps(script.first, script.now) + []);
        return;
      }
      Start(cmd, script);
      ghost var finish := FinishHandler(script.outcome, script.now);
      FinishApplies(recorder.state, cmd, script.outcome, script.now);
      recorder.Take(finish);
      threw := Conclude(cmd, script);
      Regroup(old(recorder.trace), [StartHandler(script.now)] + CallSteps(script.replies), [finish],
              ReportSteps(script.first, script.now) + SecondSteps(cmd, script));
    }

    /** What `execute` does with its handler's outcome. */
    method Conclude(cmd: Command, script: Script) returns (threw: bool)
      requires recorder.Valid() && handlers == HANDLED && cmd.operation in HANDLED && cmd.id in journal.rows
      requires recorder.state.phase == Reporting(cmd, HandlerVerdict(script.outcome), !script.outcome.Raised?, 0, false)
      requires recorder.state.journal == RecordResult(journal.rows, cmd.id, HandlerVerdict(script.outcome), script.now)
      requires recorder.state.cache == if script.outcome.Returned? then Placement.Update(cache.entries, cmd) else cache.entries
      requires Clients.ValidReport(script.first) && Clients.ValidReport(script.second)
      modifies journal, cache, recorder
      ensures Coupled() && HasTerminalResult(journal.rows, cmd.id)
      ensures recorder.trace == old(recorder.trace) + (ReportSteps(script.first, script.now) + SecondSteps(cmd, script))
      ensures threw == FinalReport(cmd, script).end.ReportThrew?
      ensures recorder.state.pending == old(recorder.state.pending) && recorder.state.phase.Idle?
    {
      match script.outcome
      case Raised(message) =>
        threw := FinishOutside(cmd, RaisedVerdict(message), script.first, script.now);
      case Rejected(code, message) =>
        threw := FinishInside(cmd, Verdict(Failed, None, Some(code), Some(message)), script);
      case Returned(json) =>
        UpdatePlacement(cmd);
        threw := FinishInside(cmd, Verdict(Succeeded, json, None, None), script);
    }
  }

  lemma DeliverApplies(s: State, cmd: Command, now: int)
    requires s.conn.Some? && s.phase.Idle?
    ensures var t := Apply(s, Deliver(cmd, now));
            if HasTerminalResult(s.journal, cmd.id) then t == s
            else
              && t.journal == RecordAccepted(s.journal, cmd.id, OperationName(cmd.operation), cmd.generation, now) && cmd.id in t.journal
              && t.cache == s.cache && t.pending == s.pending && t.phase == Dispatching(cmd)
  {
  }

  lemma RejectApplies(s: State, cmd: Command, now: int)
    requires s.phase == Dispatching(cmd) && cmd.operation !in HANDLED
    ensures var t := Apply(s, RejectUnhandled(now));
            && t.journal == RecordResult(s.journal, cmd.id, NoHandlerVerdict(cmd.operation), now)
            && t.cache == s.cache && t.pending == s.pending
            && t.phase == Reporting(cmd, NoHandlerVerdict(cmd.operation), false, 0, false)
  {
  }

  lemma Associate<T>(a: seq<T>, b: seq<T>, c: seq<T>)
    ensures a + b + c == a + (b + c)
  {
  }

  lemma Regroup<T>(a: seq<T>, b: seq<T>, c: seq<T>, d: seq<T>)
    ensures a + b + c + d == a + (b + c + d)
  {
  }

  lemma FinishApplies(s: State, cmd: Command, outcome: HandlerOutcome, now: int)
    requires s.phase.Handling? && s.phase.cmd == cmd
    ensures var t := Apply(s, FinishHandler(outcome, now));
            && t.journal == RecordResult(s.journal, cmd.id, HandlerVerdict(outcome), now)
            && t.cache == (if outcome.Returned? then Placement.Update(s.cache, cmd) else s.cache)
            && t.pending == s.pending
            && t.phase == Reporting(cmd, HandlerVerdict(outcome), !outcome.Raised?, 0, false)
  {
  }

  lemma RaisedApplies(s: State, message: string, now: int)
    requires s.phase.Reporting? && s.phase.guarded
    ensures var t := Apply(s, ReportRaised(message, now));
            && t.journal == RecordResult(s.journal, s.phase.cmd.id, RaisedVerdict(message), now)
            && t.cache == s.cache && t.pending == s.pending
            && t.phase == Reporting(s.phase.cmd, RaisedVerdict(message), false, 0, false)
  {
  }

  lemma MayGoOn(replies: seq<Clients.MakerReply>, i: nat)
    requires i < |replies| && Retry.Transcript(replies, Clients.MakerRetryable, Clients.MAKER_ATTEMPTS)
    ensures Retry.MayAttempt(replies[..i], Clients.MakerRetryable, Clients.MAKER_ATTEMPTS)
  {
    var init := replies[..|replies| - 1];
    forall j | 0 <= j < i ensures Retry.Retried(replies[..i][j], Clients.MakerRetryable) {
      assert Retry.Retried(init[j], Clients.MakerRetryable);
    }
  }

  /** What Cloud sends. */
  datatype Inbound = HelloAcceptedMessage | ExecuteCommand(cmd: Command) | Ping(sentAt: int) | ServerDraining | OtherInbound

  /** What the agent queues; command results are not among it. */
  datatype Outgoing = CommandAccepted(id: string) | Pong(echoed: int)

  class ConnectionManager {
    const executor: CommandExecutor
    var pendingResendIds: seq<string>
    var outbound: Option<seq<Outgoing>>

    constructor (executor: CommandExecutor)
      ensures this.executor == executor && pendingResendIds == [] && outbound == None
    {
      this.executor := executor;
      pendingResendIds, outbound := [], None;
    }

    ghost predicate Coupled()
      reads this, executor, executor.journal, executor.cache, executor.recorder
    {
      executor.Coupled() && executor.recorder.state.pending == pendingResendIds
    }

    /** `_send`: dropped when there has been no connection yet. */
    method Send(item: Outgoing)
      modifies this`outbound
      ensures outbound == if old(outbound).Some? then Some(old(outbound).value + [item]) else None
    {
      if outbound.Some? {
        outbound := Some(outbound.value + [item]);
      }
    }

    /** The start of `_connect_once`: a fresh queue; the pending ids of an earlier connection stay. */
    method Open()
      requires Coupled() && Enabled(executor.recorder.state, Connect)
      modifies this`outbound, executor.recorder
      ensures Coupled() && outbound == Some([]) && pendingResendIds == old(pendingResendIds)
      ensures executor.recorder.trace == old(executor.recorder.trace) + [Connect]
    {
      outbound := Some([]);
      executor.Take(Connect);
    }

    /**
      The end of `_connect_once`, unless a report that raised has already ended it: the queue is left
      behind and the pending ids stay.
     */
    method Close()
      requires Coupled() && Enabled(executor.recorder.state, Disconnect)
      modifies executor.recorder
      ensures Coupled() && executor.recorder.state.phase.Idle? && executor.recorder.state.conn.None?
      ensures executor.recorder.trace == old(executor.recorder.trace) + [Disconnect]
    {
      executor.Take(Disconnect);
    }

    /** The outbound generator between its Hello and its first resend. */
    method Snapshot() returns (batch: seq<Message>, ghost entries: seq<Entry>)
      requires Coupled()
      requires var s := executor.recorder.state; s.conn.Some? && !s.conn.value.snapshotTaken && !s.phase.Acknowledging?
      modifies this`pendingResendIds, executor.recorder
      ensures Coupled() && IsListing(executor.journal.rows, entries)
      ensures pendingResendIds == Ids(entries) && batch == Batch(entries)
      ensures |batch| == |pendingResendIds| == |entries|
      ensures forall i :: 0 <= i < |entries| ==>
                && pendingResendIds[i] == entries[i].id
                && Says(batch[i], entries[i].id, VerdictOf(entries[i].row), entries[i].row.generation)
      ensures executor.recorder.trace == old(executor.recorder.trace) + [TakeSnapshot(entries)]
      ensures executor.recorder.state.conn.Some? && executor.recorder.state.conn.value.batch == batch
    {
      var unreported := executor.journal.UnreportedTerminalEntries();
      pendingResendIds := Ids(unreported);
      batch := Batch(unreported);
      entries := unreported;
      executor.Take(TakeSnapshot(entries));
    }

    /** The HelloAccepted branch: marks exactly the pending ids, in order, and clears them. */
    method AcknowledgePending(now: int)
      requires Coupled() && executor.recorder.state.phase.Idle? && executor.recorder.state.conn.Some?
      modifies this`pendingResendIds, executor.journal, executor.recorder
      ensures Coupled() && executor.recorder.state.phase.Idle? && pendingResendIds == []
      ensures executor.recorder.trace == old(executor.recorder.trace) + Delivery.HelloSteps(old(pendingResendIds), now)
    {
      executor.Take(HelloAccepted);
      var i := 0;
      while i < |pendingResendIds|
        invariant 0 <= i <= |pendingResendIds| && pendingResendIds == old(pendingResendIds)
        invariant Coupled() && executor.recorder.state.phase == Acknowledging(pendingResendIds[i..])
        invariant executor.recorder.trace == old(executor.recorder.trace) + [HelloAccepted] + Delivery.Marks(i, now)
      {
        executor.journal.Mark(pendingResendIds[i], now);
        executor.Take(MarkNext(now));
        assert Delivery.Marks(i + 1, now) == Delivery.Marks(i, now) + [MarkNext(now)];
        i := i + 1;
      }
      pendingResendIds := [];
      executor.Take(AcknowledgedAll);
    }

    /**
      The ExecuteCommand branch. A finished command changes nothing; any other is accepted,
      acknowledged and executed to its end, and ends with a result in the journal.
     */
    method Dispatch(cmd: Command, script: Script) returns (threw: bool)
      requires Coupled() && executor.recorder.state.phase.Idle? && executor.recorder.state.conn.Some?
      requires Possible(cmd, script)
      modifies this`outbound, executor.journal, executor.cache, executor.recorder
      ensures Coupled() && executor.recorder.state.phase.Idle?
      ensures executor.recorder.trace == old(executor.recorder.trace) + HandlingSteps(old(executor.journal.rows), cmd, script)
      ensures HasTerminalResult(executor.journal.rows, cmd.id)
      ensures HasTerminalResult(old(executor.journal.rows), cmd.id) ==> executor.journal.rows == old(executor.journal.rows)
      ensures !HasTerminalResult(old(executor.journal.rows), cmd.id) ==>
                RowTells(executor.journal.rows[cmd.id], cmd, script) && MarkTells(executor.journal.rows[cmd.id], cmd, script)
      ensures outbound == if HasTerminalResult(old(executor.journal.rows), cmd.id) then old(outbound)
                          else Queued(old(outbound), CommandAccepted(cmd.id))
      ensures threw <==> !HasTerminalResult(old(executor.journal.rows), cmd.id) && FinalReport(cmd, script).end.ReportThrew?
    {
      DeliverApplies(executor.recorder.state, cmd, script.now);
      var terminal := executor.journal.HasTerminal(cmd.id);
      if terminal {
        executor.recorder.Take(Deliver(cmd, script.now));
        threw := false;
      } else {
        threw := AcceptAndExecute(cmd, script);
      }
    }

    method AcceptAndExecute(cmd: Command, script: Script) returns (threw: bool)
      requires Coupled() && executor.recorder.state.phase.Idle? && executor.recorder.state.conn.Some?
      requires Possible(cmd, script) && !HasTerminalResult(executor.journal.rows, cmd.id)
      modifies this`outbound, executor.journal, executor.cache, executor.recorder
      ensures Coupled() && executor.recorder.state.phase.Idle?
      ensures executor.recorder.trace == old(executor.recorder.trace) + ([Deliver(cmd, script.now)] + ExecuteSteps(cmd, script))
      ensures HasTerminalResult(executor.journal.rows, cmd.id)
      ensures RowTells(executor.journal.rows[cmd.id], cmd, script) && MarkTells(executor.journal.rows[cmd.id], cmd, script)
      ensures outbound == Queued(old(outbound), CommandAccepted(cmd.id))
      ensures threw <==> FinalReport(cmd, script).end.ReportThrew?
    {
      DeliverApplies(executor.recorder.state, cmd, script.now);
      executor.journal.Accept(cmd.id, OperationName(cmd.operation), cmd.generation, script.now);
      executor.Take(Deliver(cmd, script.now));
      Send(CommandAccepted(cmd.id));
      threw := executor.Execute(cmd, script);
      Associate(old(executor.recorder.trace), [Deliver(cmd, script.now)], ExecuteSteps(cmd, script));
    }

    /** `_handle_inbound` */
    method HandleInbound(message: Inbound, script: Script) returns (threw: bool)
      requires Coupled() && executor.recorder.state.phase.Idle? && executor.recorder.state.conn.Some?
      requires message.ExecuteCommand? ==> Possible(message.cmd, script)
      modifies this, executor.journal, executor.cache, executor.recorder
      ensures Coupled() && executor.recorder.state.phase.Idle?
      ensures executor.recorder.trace == old(executor.recorder.trace) +
                match message
                case HelloAcceptedMessage => Delivery.HelloSteps(old(pendingResendIds), script.now)
                case ExecuteCommand(cmd) => HandlingSteps(old(executor.journal.rows), cmd, script)
                case _ => []
      ensures pendingResendIds == if message.HelloAcceptedMessage? then [] else old(pendingResendIds)
      ensures message.ExecuteCommand? ==> HasTerminalResult(executor.journal.rows, message.cmd.id)
      ensures outbound ==
                if message.Ping? then Queued(old(outbound), Pong(message.sentAt))
                else if message.ExecuteCommand? && !HasTerminalResult(old(executor.journal.rows), message.cmd.id)
                then Queued(old(outbound), CommandAccepted(message.cmd.id))
                else old(outbound)
      ensures threw <==>
                && message.ExecuteCommand? && !HasTerminalResult(old(executor.journal.rows), message.cmd.id)
                && FinalReport(message.cmd, script).end.ReportThrew?
    {
      threw := false;
      match message
      case HelloAcceptedMessage => AcknowledgePending(script.now);
      case ExecuteCommand(cmd) => threw := Dispatch(cmd, script);
      case Ping(sentAt) => Send(Pong(sentAt));
      case ServerDraining =>
      case OtherInbound =>
    }
  }

  /**
    main.py's `run`, up to the first connection: on the journal that the last process left, with an
    empty cache and no pending ids, and a handler for each operation there is one for.
   */
  method Boot(stored: Rows, ghost last: State) returns (manager: ConnectionManager)
    requires last.journal == stored
    ensures manager.Coupled() && manager.outbound.None? && manager.executor.journal.rows == stored
    ensures manager.executor.recorder.start == manager.executor.recorder.state == Apply(last, Interrupt)
    ensures manager.executor.recorder.trace == []
    ensures fresh(manager) && fresh(manager.executor) && fresh(manager.executor.journal) && fresh(manager.executor.cache) && fresh(manager.executor.recorder)
  {
    var journal := new CommandJournal(stored);
    var cache := new Placement.PlacementCache();
    var recorder := new Recorder(Apply(last, Interrupt));
    var executor := new CommandExecutor(journal, cache, recorder);
    executor.Register(Create);
    executor.Register(Delete);
    executor.Register(Hibernate);
    executor.Register(Resume);
    executor.Register(Save);
    manager := new ConnectionManager(executor);
  }

  function Queued(queue: Option<seq<Outgoing>>, item: Outgoing): Option<seq<Outgoing>> {
    if queue.Some? then Some(queue.value + [item]) else None
  }
}
