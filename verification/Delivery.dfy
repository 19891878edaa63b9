/** When "reported" in the journal means that Cloud has the result. */
module Delivery {
  import opened Journal
  import opened Protocol
  import opened Invariants
  import opened Agreement

  /** Cloud has received the outcome that the journal holds for this command. */
  ghost predicate CloudHas(s: State, id: string) {
    id in s.journal && exists m :: m in s.log.received && m.id == id && SameOutcome(m, Resend(id, s.journal[id]))
  }

  /** That is: it has received a message that says what the row says. */
  lemma CloudHasMeans(s: State, id: string)
    requires id in s.journal
    ensures CloudHas(s, id) <==> exists m :: m in s.log.received && Says(m, id, VerdictOf(s.journal[id]), m.generation)
  {
    forall m | m in s.log.received && m.id == id && SameOutcome(m, Resend(id, s.journal[id]))
      ensures Says(m, id, VerdictOf(s.journal[id]), m.generation)
    {
    }
    forall m | m in s.log.received && Says(m, id, VerdictOf(s.journal[id]), m.generation)
      ensures m.id == id && SameOutcome(m, Resend(id, s.journal[id]))
    {
    }
  }

  /** Every reported row's result has been received by Cloud. */
  ghost predicate Delivered(s: State) {
    forall id :: id in s.journal && s.journal[id].reported ==> CloudHas(s, id)
  }

  /** Cloud has received some result for this command, whatever it says. */
  ghost predicate HeardOf(s: State, id: string) {
    exists m :: m in s.log.received && m.id == id
  }

  ghost predicate ReportedIsHeardOf(s: State) {
    forall id :: id in s.journal && s.journal[id].reported ==> HeardOf(s, id)
  }

  /** Where all that was said agrees with the journal, having heard of a command is having its result. */
  lemma HeardOfIsHad(s: State, id: string)
    requires Spoken(s) && Heard(s) && HeardOf(s, id)
    ensures CloudHas(s, id)
  {
    var m :| m in s.log.received && m.id == id;
    assert Faithful(s.journal, m);
  }

  predicate Carries(messages: seq<Message>, id: string) {
    exists i :: 0 <= i < |messages| && messages[i].id == id
  }

  /** On this live connection the snapshot has been taken, and the whole batch written and received. */
  predicate CaughtUp(conn: Connection) {
    conn.live && conn.snapshotTaken && conn.batch == [] && conn.wire == []
  }

  /** Nothing is pending, or Cloud has the whole batch of the connection at hand. */
  predicate InOrder(s: State) {
    s.pending == [] || (s.conn.Some? && CaughtUp(s.conn.value))
  }

  /** The stated intent of the ordered stream: HelloAccepted is handled only after Cloud has the whole batch. */
  ghost predicate OrderedStream(s: State, steps: seq<Step>)
    requires Legal(s, steps)
    decreases steps
  {
    steps == [] ||
    ((steps[0].HelloAccepted? ==> InOrder(s)) && OrderedStream(Apply(s, steps[0]), steps[1..]))
  }

  lemma {:induction false} OrderedTogether(s: State, a: seq<Step>, b: seq<Step>)
    requires Legal(s, a) && Legal(Exec(s, a), b)
    ensures Legal(s, a + b)
    ensures OrderedStream(s, a + b) <==> OrderedStream(s, a) && OrderedStream(Exec(s, a), b)
    decreases a
  {
    RunTogether(s, a, b);
    if a == [] {
      assert a + b == b;
    } else {
      OrderedTogether(Apply(s, a[0]), a[1..], b);
      assert (a + b)[0] == a[0] && (a + b)[1..] == a[1..] + b;
    }
  }

  lemma {:induction false} QuietIsOrdered(s: State, steps: seq<Step>)
    requires Legal(s, steps) && forall i :: 0 <= i < |steps| ==> !steps[i].HelloAccepted?
    ensures OrderedStream(s, steps)
    decreases steps
  {
    if steps != [] {
      QuietIsOrdered(Apply(s, steps[0]), steps[1..]);
    }
  }

  ghost predicate ReportTracked(s: State) {
    s.phase.Reporting? && s.phase.delivered ==> HeardOf(s, s.phase.cmd.id)
  }

  ghost predicate MarksTracked(s: State) {
    s.phase.Acknowledging? ==> forall i :: 0 <= i < |s.phase.rest| ==> HeardOf(s, s.phase.rest[i])
  }

  ghost predicate OnItsWay(s: State, id: string)
    requires s.conn.Some?
  {
    HeardOf(s, id) || Carries(s.conn.value.wire, id) || Carries(s.conn.value.batch, id)
  }

  ghost predicate PendingTracked(s: State) {
    s.conn.Some? && s.conn.value.live && s.conn.value.snapshotTaken ==>
      forall i :: 0 <= i < |s.pending| ==> OnItsWay(s, s.pending[i])
  }

  /** Where the messages about the commands that are marked, or about to be, are. */
  ghost predicate Tracked(s: State) {
    ReportedIsHeardOf(s) && ReportTracked(s) && MarksTracked(s) && PendingTracked(s)
  }

  lemma {:induction false} ReceivedGrows(s: State, step: Step, id: string)
    requires Enabled(s, step) && HeardOf(s, id)
    ensures HeardOf(Apply(s, step), id)
  {
    var m :| m in s.log.received && m.id == id;
    assert m in Apply(s, step).log.received;
  }

  /** A pending command's message moves from the batch to the wire to Cloud. */
  lemma {:induction false} StreamKeepsTrack(s: State, step: Step, id: string)
    requires Enabled(s, step) && (step.WriteResend? || step.CloudReceives?) && s.conn.value.live
    requires OnItsWay(s, id)
    ensures OnItsWay(Apply(s, step), id)
  {
    var next := Apply(s, step);
    var c, d := s.conn.value, next.conn.value;
    if HeardOf(s, id) {
      ReceivedGrows(s, step, id);
    } else if Carries(c.wire, id) {
      var i :| 0 <= i < |c.wire| && c.wire[i].id == id;
      if step.WriteResend? {
        assert d.wire[i].id == id;
      } else if i == 0 {
        assert c.wire[0] in next.log.received;
      } else {
        assert d.wire[i - 1].id == id;
      }
    } else {
      var i :| 0 <= i < |c.batch| && c.batch[i].id == id;
      if step.CloudReceives? {
        assert d.batch[i].id == id;
      } else if i == 0 {
        assert d.wire[|c.wire|].id == id;
      } else {
        assert d.batch[i - 1].id == id;
      }
    }
  }

  ghost predicate HasMore(s: State, next: State) {
    forall id :: HeardOf(s, id) ==> HeardOf(next, id)
  }

  /** Only a confirmed report and MarkNext mark a row, and nothing changes one that is marked. */
  lemma ReportedBefore(s: State, step: Step, id: string)
    requires Inv(s) && Enabled(s, step) && !step.MarkNext?
    requires id in Apply(s, step).journal && Apply(s, step).journal[id].reported
    ensures (step.ReportConfirmed? && id == s.phase.cmd.id) ||
            (id in s.journal && s.journal[id].reported && Apply(s, step).journal[id] == s.journal[id])
  {
  }

  lemma StepForgetsNothing(s: State, step: Step)
    requires Enabled(s, step)
    ensures s.log.received <= Apply(s, step).log.received
  {
  }

  lemma {:induction false} StepKeepsReported(s: State, step: Step)
    requires Inv(s) && Tracked(s) && Enabled(s, step) && HasMore(s, Apply(s, step))
    ensures ReportedIsHeardOf(Apply(s, step))
  {
    var t := Apply(s, step);
    if !step.MarkNext? {
      forall id | id in t.journal && t.journal[id].reported ensures HeardOf(t, id) {
        ReportedBefore(s, step, id);
        assert HeardOf(s, id);
      }
    }
  }

  lemma {:induction false} StepKeepsMarks(s: State, step: Step)
    requires Tracked(s) && Enabled(s, step) && HasMore(s, Apply(s, step))
    requires step.HelloAccepted? ==> InOrder(s)
    ensures MarksTracked(Apply(s, step))
  {
    if step.HelloAccepted? {
      forall i | 0 <= i < |s.pending| ensures HeardOf(s, s.pending[i]) {
        assert OnItsWay(s, s.pending[i]);
      }
    }
  }

  lemma {:induction false} StepKeepsReport(s: State, step: Step)
    requires Enabled(s, step) && ReportTracked(s) && HasMore(s, Apply(s, step))
    ensures ReportTracked(Apply(s, step))
  {
    if step.PostResult? && step.reached {
      assert Post(s.phase.cmd, s.phase.verdict) in Apply(s, step).log.received;
    }
  }

  lemma {:induction false} StepKeepsPending(s: State, step: Step)
    requires Enabled(s, step) && PendingTracked(s) && HasMore(s, Apply(s, step))
    ensures PendingTracked(Apply(s, step))
  {
    var next := Apply(s, step);
    if (step.WriteResend? || step.CloudReceives?) && s.conn.value.live && s.conn.value.snapshotTaken {
      forall i | 0 <= i < |s.pending| ensures OnItsWay(next, s.pending[i]) {
        assert OnItsWay(s, s.pending[i]);
        StreamKeepsTrack(s, step, s.pending[i]);
      }
    } else if step.TakeSnapshot? {
      forall i | 0 <= i < |next.pending| ensures OnItsWay(next, next.pending[i]) {
        assert next.conn.value.batch[i].id == next.pending[i];
      }
    } else if next.conn.Some? && next.conn.value.live && next.conn.value.snapshotTaken {
      forall i | 0 <= i < |next.pending| ensures OnItsWay(next, next.pending[i]) {
        assert OnItsWay(s, s.pending[i]);
      }
    }
  }

  lemma {:induction false} StepKeepsTrack(s: State, step: Step)
    requires Inv(s) && Tracked(s) && Enabled(s, step)
    requires step.HelloAccepted? ==> InOrder(s)
    ensures Tracked(Apply(s, step))
  {
    forall id | HeardOf(s, id) ensures HeardOf(Apply(s, step), id) {
      ReceivedGrows(s, step, id);
    }
    StepKeepsReported(s, step);
    StepKeepsMarks(s, step);
    StepKeepsReport(s, step);
    StepKeepsPending(s, step);
  }

  lemma {:induction false} RunKeepsTrack(s: State, steps: seq<Step>)
    requires Inv(s) && Tracked(s) && Legal(s, steps) && OrderedStream(s, steps)
    ensures Tracked(Exec(s, steps))
    decreases steps
  {
    if steps != [] {
      StepKeepsInv(s, steps[0]);
      StepKeepsTrack(s, steps[0]);
      RunKeepsTrack(Apply(s, steps[0]), steps[1..]);
    }
  }

  /**
    Conditional delivery: on every run of harmless steps on which the stream keeps the stated order,
    Cloud has received the outcome that the journal holds for every reported row.
   */
  lemma ReportedIsDelivered(s: State, steps: seq<Step>)
    requires Inv(s) && Spoken(s) && Heard(s) && Tracked(s)
    requires Legal(s, steps) && Agreeable(s, steps) && OrderedStream(s, steps)
    ensures Delivered(Exec(s, steps))
  {
    RunKeepsTrack(s, steps);
    RunKeepsSpoken(s, steps);
    RunKeepsHeard(s, steps);
    var t := Exec(s, steps);
    forall id | id in t.journal && t.journal[id].reported ensures CloudHas(t, id) {
      HeardOfIsHad(t, id);
    }
  }

  /** So at every point of such a run from the first start. */
  lemma DeliveredFromTheStart(steps: seq<Step>, k: nat)
    requires Legal(INIT, steps) && Agreeable(INIT, steps) && OrderedStream(INIT, steps) && k <= |steps|
    ensures Legal(INIT, steps[..k]) && Delivered(Exec(INIT, steps[..k]))
    ensures var s := Exec(INIT, steps[..k]);
            forall id :: id in s.journal && s.journal[id].reported ==>
              exists m :: m in s.log.received && Says(m, id, VerdictOf(s.journal[id]), m.generation)
  {
    RunApart(INIT, steps, k);
    assert steps[..k] + steps[k..] == steps;
    AgreeableTogether(INIT, steps[..k], steps[k..]);
    OrderedTogether(INIT, steps[..k], steps[k..]);
    ReportedIsDelivered(INIT, steps[..k]);
    var s := Exec(INIT, steps[..k]);
    forall id | id in s.journal && s.journal[id].reported
      ensures exists m :: m in s.log.received && Says(m, id, VerdictOf(s.journal[id]), m.generation)
    {
      CloudHasMeans(s, id);
    }
  }

  /** One uninterrupted handling of a HelloAccepted: mark the pending ids in order, then clear them. */
  function HelloSteps(pending: seq<string>, now: int): seq<Step> {
    [HelloAccepted] + Marks(|pending|, now) + [AcknowledgedAll]
  }

  function Marks(n: nat, now: int): seq<Step> {
    seq(n, i => MarkNext(now))
  }

  lemma {:induction false} MarksRun(s: State, rest: seq<string>, now: int)
    requires Inv(s) && s.phase == Acknowledging(rest)
    ensures Legal(s, Marks(|rest|, now))
    ensures var t := Exec(s, Marks(|rest|, now));
            && t == s.(journal := t.journal, phase := Acknowledging([]))
            && t.journal.Keys == s.journal.Keys
            && forall id :: id in s.journal ==>
                 t.journal[id] == (if id in rest then s.journal[id].(reported := true, updatedAt := now) else s.journal[id])
    decreases rest
  {
    if rest != [] {
      var next := Apply(s, MarkNext(now));
      StepKeepsInv(s, MarkNext(now));
      assert Marks(|rest|, now)[1..] == Marks(|rest| - 1, now);
      MarksRun(next, rest[1..], now);
      assert rest == [rest[0]] + rest[1..];
    }
  }

  lemma {:induction false} HelloRuns(s: State, now: int)
    requires Inv(s) && s.conn.Some? && s.phase.Idle?
    ensures Legal(s, HelloSteps(s.pending, now)) && Clean(s, HelloSteps(s.pending, now))
    ensures var t := Exec(s, HelloSteps(s.pending, now));
            && t == s.(journal := t.journal, pending := [])
            && t.journal.Keys == s.journal.Keys
            && forall id :: id in s.journal ==>
                 t.journal[id] == (if id in s.pending then s.journal[id].(reported := true, updatedAt := now) else s.journal[id])
  {
    var first, marks, last := [HelloAccepted], Marks(|s.pending|, now), [AcknowledgedAll];
    var s1 := Apply(s, HelloAccepted);
    assert Exec(s, first) == s1;
    MarksRun(s1, s.pending, now);
    MarksAreClean(s1, |s.pending|, now);
    RunTogether(s, first, marks);
    var s2 := Exec(s1, marks);
    assert Exec(s2, last) == Apply(s2, AcknowledgedAll);
    RunTogether(s, first + marks, last);
  }

  lemma {:induction false} MarksAreClean(s: State, n: nat, now: int)
    requires Legal(s, Marks(n, now))
    ensures Clean(s, Marks(n, now))
    decreases n
  {
    if n > 0 {
      assert Marks(n, now)[1..] == Marks(n - 1, now);
      MarksAreClean(Apply(s, MarkNext(now)), n - 1, now);
    }
  }

  /**
    Without that order the promise breaks, and exactly when: handling a HelloAccepted keeps every
    reported result delivered if and only if Cloud already has every pending one.
   */
  lemma HelloKeepsDeliveryExactly(s: State, now: int)
    requires Inv(s) && s.conn.Some? && s.phase.Idle? && Delivered(s)
    ensures Legal(s, HelloSteps(s.pending, now))
    ensures Delivered(Exec(s, HelloSteps(s.pending, now))) <==> forall i :: 0 <= i < |s.pending| ==> CloudHas(s, s.pending[i])
  {
    HelloRuns(s, now);
    var t := Exec(s, HelloSteps(s.pending, now));
    assert t.log == s.log;
    if Delivered(t) {
      forall i | 0 <= i < |s.pending| ensures CloudHas(s, s.pending[i]) {
        assert HasTerminalResult(s.journal, s.pending[i]);
        assert t.journal[s.pending[i]].reported;
        assert CloudHas(t, s.pending[i]);
      }
    } else {
      var id :| id in t.journal && t.journal[id].reported && !CloudHas(t, id);
      assert id in s.pending;
      var i :| 0 <= i < |s.pending| && s.pending[i] == id;
    }
  }

  /** A report that has reached Cloud has told it what is journaled. */
  ghost predicate ReportHeard(s: State) {
    s.phase.Reporting? && s.phase.delivered ==> Post(s.phase.cmd, s.phase.verdict) in s.log.received
  }

  lemma {:induction false} StepKeepsReportHeard(s: State, step: Step)
    requires Enabled(s, step) && ReportHeard(s)
    ensures ReportHeard(Apply(s, step))
  {
  }

  /** The step marks no result that Cloud does not have. */
  ghost predicate MarksTruly(s: State, step: Step)
    requires Enabled(s, step)
  {
    step.MarkNext? ==> CloudHas(s, s.phase.rest[0])
  }

  ghost predicate Truthful(s: State, steps: seq<Step>)
    requires Legal(s, steps)
    decreases steps
  {
    steps == [] || (MarksTruly(s, steps[0]) && Truthful(Apply(s, steps[0]), steps[1..]))
  }

  /** Only such a mark can break delivery; a confirmed report marks what it has told Cloud. */
  lemma {:induction false} StepKeepsDeliveredExactly(s: State, step: Step)
    requires Inv(s) && Enabled(s, step) && Delivered(s) && ReportHeard(s)
    ensures Delivered(Apply(s, step)) <==> MarksTruly(s, step)
  {
    var t := Apply(s, step);
    if step.MarkNext? {
      MarkingKeepsDeliveredExactly(s, step.now);
    } else {
      StepForgetsNothing(s, step);
      forall id | id in t.journal && t.journal[id].reported ensures CloudHas(t, id) {
        ReportedBefore(s, step, id);
        if step.ReportConfirmed? && id == s.phase.cmd.id {
          assert SameOutcome(Post(s.phase.cmd, s.phase.verdict), Resend(id, t.journal[id]));
        } else {
          assert CloudHas(s, id);
        }
      }
    }
  }

  lemma MarkingKeepsDeliveredExactly(s: State, now: int)
    requires Inv(s) && Enabled(s, MarkNext(now)) && Delivered(s)
    ensures Delivered(Apply(s, MarkNext(now))) <==> CloudHas(s, s.phase.rest[0])
  {
    var t, marked := Apply(s, MarkNext(now)), s.phase.rest[0];
    assert HasTerminalResult(s.journal, marked);
    forall id ensures CloudHas(t, id) <==> CloudHas(s, id) {
      assert id in s.journal ==> Resend(id, t.journal[id]) == Resend(id, s.journal[id]);
    }
    assert t.journal[marked].reported;
  }

  ghost predicate DeliveredAfter(s: State, steps: seq<Step>) {
    Legal(s, steps) && Delivered(Exec(s, steps))
  }

  /**
    Delivery, exactly, on all runs: at every point Cloud has the journaled outcome of every reported
    command if and only if every mark of a HelloAccepted is made when Cloud has that command's.
   */
  lemma {:induction false} DeliveredThroughoutExactly(s: State, steps: seq<Step>)
    requires Inv(s) && Delivered(s) && ReportHeard(s) && Legal(s, steps)
    ensures (forall k: nat :: k <= |steps| ==> DeliveredAfter(s, steps[..k])) <==> Truthful(s, steps)
    decreases steps
  {
    if steps != [] {
      var next, rest := Apply(s, steps[0]), steps[1..];
      StepKeepsInv(s, steps[0]);
      StepKeepsReportHeard(s, steps[0]);
      StepKeepsDeliveredExactly(s, steps[0]);
      forall k: nat | k < |steps| ensures DeliveredAfter(s, steps[..k + 1]) <==> DeliveredAfter(next, rest[..k]) {
        assert steps[..k + 1] == [steps[0]] + rest[..k];
      }
      if Delivered(next) {
        DeliveredThroughoutExactly(next, rest);
        if Truthful(s, steps) {
          forall k: nat | k <= |steps| ensures DeliveredAfter(s, steps[..k]) {
            assert k > 0 ==> DeliveredAfter(next, rest[..k - 1]);
          }
        } else {
          var k: nat :| k <= |rest| && !DeliveredAfter(next, rest[..k]);
          assert !DeliveredAfter(s, steps[..k + 1]);
        }
      } else {
        assert !DeliveredAfter(next, rest[..0]);
        assert !DeliveredAfter(s, steps[..1]);
      }
    }
  }
}
