/** The protocol's promise as a whole: one outcome, delivered, and recovered after any failure. */
module EndToEnd {
  import opened Wrappers
  import opened Journal
  import opened Protocol
  import opened Invariants
  import opened Agreement
  import opened Delivery
  import Progress

  /** Everything Cloud has received stays received. */
  lemma {:induction false} CloudForgetsNothing(s: State, steps: seq<Step>)
    requires Legal(s, steps)
    ensures s.log.received <= Exec(s, steps).log.received
    decreases steps
  {
    if steps != [] {
      StepForgetsNothing(s, steps[0]);
      CloudForgetsNothing(Apply(s, steps[0]), steps[1..]);
    }
  }

  /** A run on which deliveries are consistent, no report takes anything back and the stream keeps its order. */
  ghost predicate Orderly(steps: seq<Step>, generation: string -> int) {
    Legal(INIT, steps) && Agreeable(INIT, steps) && Consistent(steps, generation) && OrderedStream(INIT, steps)
  }

  /** Whatever was lost, repeated or restarted, Cloud has exactly the journaled result of every reported command. */
  lemma CloudAgreesWithJournal(steps: seq<Step>, generation: string -> int, id: string)
    requires Orderly(steps, generation)
    ensures var s := Exec(INIT, steps);
            && (id in s.journal && s.journal[id].reported ==> IsTerminal(s.journal[id].status) && Resend(id, s.journal[id]) in s.log.received)
            && forall m :: m in s.log.received && m.id == id ==> HasTerminalResult(s.journal, id) && m == Resend(id, s.journal[id])
  {
    var s := Exec(INIT, steps);
    RunKeepsInv(INIT, steps);
    RunKeepsSpoken(INIT, steps);
    RunKeepsGenerations(INIT, steps, generation);
    RunKeepsHeard(INIT, steps);
    ReportedIsDelivered(INIT, steps);
    forall m | m in s.log.received && m.id == id ensures HasTerminalResult(s.journal, id) && m == Resend(id, s.journal[id]) {
      assert m in s.log.sent && Faithful(s.journal, m);
    }
    if id in s.journal && s.journal[id].reported {
      assert CloudHas(s, id);
    }
  }

  lemma OrderlyApart(steps: seq<Step>, generation: string -> int, k: nat)
    requires Orderly(steps, generation) && k <= |steps|
    ensures Orderly(steps[..k], generation)
  {
    RunApart(INIT, steps, k);
    assert steps[..k] + steps[k..] == steps;
    AgreeableTogether(INIT, steps[..k], steps[k..]);
    OrderedTogether(INIT, steps[..k], steps[k..]);
  }

  /**
    Exactly one outcome: on every orderly run, whatever was lost, repeated or restarted, and at every
    point of it, Cloud has received for every command reported by then the result that the journal
    will still hold in the end, and has received nothing else about any command.
   */
  lemma CloudHasTheOneOutcome(steps: seq<Step>, k: nat, generation: string -> int, id: string)
    requires Orderly(steps, generation) && k <= |steps|
    ensures Legal(INIT, steps[..k])
    ensures var early, final := Exec(INIT, steps[..k]), Exec(INIT, steps);
            && (id in early.journal && early.journal[id].reported ==>
                  && HasTerminalResult(final.journal, id) && final.journal[id].reported
                  && Resend(id, final.journal[id]) in early.log.received)
            && forall m :: m in early.log.received && m.id == id ==>
                 && HasTerminalResult(final.journal, id) && m == Resend(id, final.journal[id])
                 && Says(m, id, VerdictOf(final.journal[id]), generation(id))
  {
    RunApart(INIT, steps, k);
    OrderlyApart(steps, generation, k);
    var early := Exec(INIT, steps[..k]);
    RunKeepsInv(INIT, steps[..k]);
    CloudAgreesWithJournal(steps[..k], generation, id);
    CloudAgreesWithJournal(steps, generation, id);
    CloudForgetsNothing(early, steps[k..]);
    ReportedIsFrozen(early, steps[k..], id);
    RunKeepsGenerations(INIT, steps, generation);
  }

  function Writes(n: nat): seq<Step> { seq(n, i => WriteResend) }

  function Receipts(n: nat): seq<Step> { seq(n, i => CloudReceives) }

  lemma {:induction false} WritesRun(s: State, batch: seq<Message>, wire: seq<Message>)
    requires s.conn == Some(Connection(true, true, batch, wire))
    ensures Legal(s, Writes(|batch|))
    ensures var t := Exec(s, Writes(|batch|));
            t == s.(conn := Some(Connection(true, true, [], wire + batch)), log := s.log.(sent := t.log.sent))
    decreases batch
  {
    if batch == [] {
      assert wire + batch == wire;
    } else {
      assert Writes(|batch|)[1..] == Writes(|batch| - 1);
      WritesRun(Apply(s, WriteResend), batch[1..], wire + [batch[0]]);
      assert wire + [batch[0]] + batch[1..] == wire + batch;
    }
  }

  lemma {:induction false} ReceiptsRun(s: State, wire: seq<Message>)
    requires s.conn == Some(Connection(true, true, [], wire))
    ensures Legal(s, Receipts(|wire|))
    ensures var t := Exec(s, Receipts(|wire|));
            && t == s.(conn := Some(Connection(true, true, [], [])), log := s.log.(received := t.log.received))
            && s.log.received <= t.log.received
            && forall i :: 0 <= i < |wire| ==> wire[i] in t.log.received
    decreases wire
  {
    if wire != [] {
      assert Receipts(|wire|)[1..] == Receipts(|wire| - 1);
      ReceiptsRun(Apply(s, CloudReceives), wire[1..]);
      assert wire == [wire[0]] + wire[1..];
    }
  }

  /** The outbound half of a session: connect, take the snapshot, and have Cloud receive all of it. */
  function Resending(entries: seq<Entry>): seq<Step> {
    [Connect, TakeSnapshot(entries)] + Writes(|entries|) + Receipts(|entries|)
  }

  /** One orderly session: connect, resend everything, and have the Hello answered last. */
  function Session(entries: seq<Entry>, now: int): seq<Step> {
    Resending(entries) + HelloSteps(Ids(entries), now)
  }

  lemma {:induction false} SnapshotRuns(s: State, entries: seq<Entry>)
    requires s.conn.None? && s.phase.Idle? && IsListing(s.journal, entries)
    ensures Legal(s, [Connect, TakeSnapshot(entries)])
    ensures Exec(s, [Connect, TakeSnapshot(entries)]) ==
            s.(pending := Ids(entries), conn := Some(Connection(true, true, Batch(entries), [])))
  {
    var a := Apply(s, Connect);
    Progress.OneStep(s, Connect);
    Progress.OneStep(a, TakeSnapshot(entries));
    RunTogether(s, [Connect], [TakeSnapshot(entries)]);
    assert [Connect] + [TakeSnapshot(entries)] == [Connect, TakeSnapshot(entries)];
  }

  lemma {:induction false} ResendingRuns(s: State, entries: seq<Entry>)
    requires Inv(s) && s.conn.None? && s.phase.Idle? && IsListing(s.journal, entries)
    ensures Legal(s, Resending(entries)) && OrderedStream(s, Resending(entries))
    ensures var t := Exec(s, Resending(entries));
            && Inv(t) && t.journal == s.journal && t.phase.Idle? && t.pending == Ids(entries)
            && t.conn == Some(Connection(true, true, [], [])) && s.log.received <= t.log.received
            && forall i :: 0 <= i < |entries| ==> Batch(entries)[i] in t.log.received
  {
    var first, writes, receipts := [Connect, TakeSnapshot(entries)], Writes(|entries|), Receipts(|entries|);
    SnapshotRuns(s, entries);
    var s1 := Exec(s, first);
    WritesRun(s1, Batch(entries), []);
    var s2 := Exec(s1, writes);
    assert [] + Batch(entries) == Batch(entries);
    ReceiptsRun(s2, Batch(entries));
    RunTogether(s, first, writes);
    RunTogether(s, first + writes, receipts);
    RunKeepsInv(s, Resending(entries));
    QuietIsOrdered(s, Resending(entries));
  }

  lemma HelloIsOrdered(s: State, now: int)
    requires Inv(s) && s.conn.Some? && s.phase.Idle? && InOrder(s)
    ensures Legal(s, HelloSteps(s.pending, now)) && OrderedStream(s, HelloSteps(s.pending, now))
  {
    HelloRuns(s, now);
    var hello := HelloSteps(s.pending, now);
    QuietIsOrdered(Apply(s, HelloAccepted), hello[1..]);
  }

  /**
    Recovery: from any state between sessions, after any losses, one orderly session is possible, and
    at its end every command with a result is marked reported, Cloud has the result of each one that
    was not, and every reported result stays delivered. No row changes in anything but the mark. Its
    stream keeps the stated order.
   */
  lemma {:induction false} OneSessionDeliversEverything(s: State, entries: seq<Entry>, now: int)
    requires Inv(s) && s.conn.None? && s.phase.Idle? && IsListing(s.journal, entries)
    ensures Legal(s, Session(entries, now)) && OrderedStream(s, Session(entries, now))
    ensures var t := Exec(s, Session(entries, now));
            && t.journal.Keys == s.journal.Keys
            && (forall id :: HasTerminalResult(s.journal, id) ==> t.journal[id].reported)
            && (forall id :: id in s.journal ==> t.journal[id] == s.journal[id].(reported := t.journal[id].reported, updatedAt := t.journal[id].updatedAt))
            && (forall id :: Unreportedly(s.journal, id) ==> Resend(id, s.journal[id]) in t.log.received)
            && (Delivered(s) ==> Delivered(t))
  {
    var resending, hello := Resending(entries), HelloSteps(Ids(entries), now);
    ResendingRuns(s, entries);
    var u := Exec(s, resending);
    HelloRuns(u, now);
    HelloIsOrdered(u, now);
    RunTogether(s, resending, hello);
    OrderedTogether(s, resending, hello);
    SessionResult(s, u, Exec(u, hello), entries, now);
  }

  lemma SessionResult(s: State, u: State, t: State, entries: seq<Entry>, now: int)
    requires Inv(s) && IsListing(s.journal, entries)
    requires u.journal == s.journal && s.log.received <= u.log.received && u.pending == Ids(entries)
    requires forall i :: 0 <= i < |entries| ==> Batch(entries)[i] in u.log.received
    requires t.log == u.log && t.journal.Keys == u.journal.Keys
    requires forall id :: id in u.journal ==>
               t.journal[id] == (if id in u.pending then u.journal[id].(reported := true, updatedAt := now) else u.journal[id])
    ensures forall id :: HasTerminalResult(s.journal, id) ==> t.journal[id].reported
    ensures forall id :: id in s.journal ==> t.journal[id] == s.journal[id].(reported := t.journal[id].reported, updatedAt := t.journal[id].updatedAt)
    ensures forall id :: Unreportedly(s.journal, id) ==> Resend(id, s.journal[id]) in t.log.received
    ensures Delivered(s) ==> Delivered(t)
  {
    forall id | Unreportedly(s.journal, id) ensures id in u.pending && Resend(id, s.journal[id]) in t.log.received {
      assert Lists(entries, id);
      var i :| 0 <= i < |entries| && entries[i].id == id;
      assert u.pending[i] == id && Batch(entries)[i] == Resend(id, s.journal[id]);
    }
    forall id | Delivered(s) && id in t.journal && t.journal[id].reported ensures CloudHas(t, id) {
      if s.journal[id].reported {
        assert CloudHas(s, id);
        var m :| m in s.log.received && m.id == id && SameOutcome(m, Resend(id, s.journal[id]));
        assert m in t.log.received;
      } else {
        assert id in u.pending;
        var i :| 0 <= i < |u.pending| && u.pending[i] == id;
        assert Unreportedly(s.journal, entries[i].id);
        assert Resend(id, s.journal[id]).id == id;
      }
    }
  }
}
