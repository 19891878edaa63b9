/** All results ever emitted for a command say the same thing. */
module Agreement {
  import opened Commands
  import opened Journal
  import opened Protocol
  import opened Invariants

  /** Equal up to the generation. */
  predicate SameOutcome(m: Message, n: Message) {
    m.(generation := 0) == n.(generation := 0)
  }

  /** The message says what the journal says about its command. */
  predicate Faithful(rows: Rows, m: Message) {
    HasTerminalResult(rows, m.id) && SameOutcome(m, Resend(m.id, rows[m.id]))
  }

  predicate Exact(rows: Rows, m: Message) {
    HasTerminalResult(rows, m.id) && m == Resend(m.id, rows[m.id])
  }

  /** Everything sent is faithful, and everything queued for resending is exact. */
  ghost predicate Spoken(s: State) {
    && (forall m :: m in s.log.sent ==> Faithful(s.journal, m))
    && (s.conn.Some? ==> forall i :: 0 <= i < |s.conn.value.batch| ==> Exact(s.journal, s.conn.value.batch[i]))
  }

  /** A terminal row keeps what it would be resent as, unless its verdict is overwritten. */
  lemma StepKeepsResend(s: State, step: Step, id: string)
    requires Inv(s) && Enabled(s, step) && !Overwrites(s, step) && HasTerminalResult(s.journal, id)
    ensures HasTerminalResult(Apply(s, step).journal, id)
    ensures Resend(id, Apply(s, step).journal[id]) == Resend(id, s.journal[id])
  {
    StepRefines(s, step, id);
  }

  /** Whatever is sent by a step says what the journal says. */
  lemma {:induction false} NewWordsAreFaithful(s: State, step: Step)
    requires Inv(s) && Spoken(s) && Enabled(s, step)
    ensures forall m :: m in Apply(s, step).log.sent && m !in s.log.sent ==> Faithful(s.journal, m)
  {
    if step.WriteResend? {
      assert Exact(s.journal, s.conn.value.batch[0]);
    }
  }

  /** And so does whatever is queued after it. */
  lemma {:induction false} QueuedWordsAreExact(s: State, step: Step)
    requires Spoken(s) && Enabled(s, step)
    ensures var c := Apply(s, step).conn;
            c.Some? ==> forall i :: 0 <= i < |c.value.batch| ==> Exact(s.journal, c.value.batch[i])
  {
  }

  /** A result for this command has been sent, or is queued for resending. */
  ghost predicate Said(s: State, id: string) {
    || (exists m :: m in s.log.sent && m.id == id)
    || (s.conn.Some? && exists i :: 0 <= i < |s.conn.value.batch| && s.conn.value.batch[i].id == id)
  }

  /** The two verdicts are reported alike. */
  predicate SayTheSame(cmd: Command, v: Verdict, w: Verdict) {
    Post(cmd, v) == Post(cmd, w)
  }

  /** The step takes back nothing: it overwrites no verdict, or one that nobody was told, or one that reads the same. */
  ghost predicate Harmless(s: State, step: Step) {
    Overwrites(s, step) && Said(s, s.phase.cmd.id) ==> SayTheSame(s.phase.cmd, s.phase.verdict, RaisedVerdict(step.message))
  }

  /** A run of such steps. */
  ghost predicate Agreeable(s: State, steps: seq<Step>)
    requires Legal(s, steps)
    decreases steps
  {
    steps == [] || (Harmless(s, steps[0]) && Agreeable(Apply(s, steps[0]), steps[1..]))
  }

  lemma {:induction false} CleanIsAgreeable(s: State, steps: seq<Step>)
    requires Legal(s, steps) && Clean(s, steps)
    ensures Agreeable(s, steps)
    decreases steps
  {
    if steps != [] {
      CleanIsAgreeable(Apply(s, steps[0]), steps[1..]);
    }
  }

  lemma {:induction false} AgreeableTogether(s: State, a: seq<Step>, b: seq<Step>)
    requires Legal(s, a) && Legal(Exec(s, a), b)
    ensures Legal(s, a + b)
    ensures Agreeable(s, a + b) <==> Agreeable(s, a) && Agreeable(Exec(s, a), b)
    decreases a
  {
    RunTogether(s, a, b);
    if a == [] {
      assert a + b == b;
    } else {
      AgreeableTogether(Apply(s, a[0]), a[1..], b);
      assert (a + b)[0] == a[0] && (a + b)[1..] == a[1..] + b;
    }
  }

  /**
    Which raising reports contradict what was said: one that raises where `execute` catches it keeps
    everything said in agreement with the journal if and only if nothing had been sent or queued for
    this command yet, or its verdict already read like the exception's.
   */
  lemma {:induction false} OverwriteKeepsSpokenExactly(s: State, step: Step)
    requires Inv(s) && Spoken(s) && Enabled(s, step) && Overwrites(s, step)
    ensures Spoken(Apply(s, step)) <==> Harmless(s, step)
  {
    var next, cmd := Apply(s, step), s.phase.cmd;
    OverwriteFacts(s, step);
    if Harmless(s, step) {
      forall m | m in next.log.sent ensures Faithful(next.journal, m) {
        assert Faithful(s.journal, m);
      }
      if s.conn.Some? {
        forall i | 0 <= i < |s.conn.value.batch| ensures Exact(next.journal, s.conn.value.batch[i]) {
          assert Exact(s.journal, s.conn.value.batch[i]);
        }
      }
    } else if m :| m in s.log.sent && m.id == cmd.id {
      assert Faithful(s.journal, m);
      assert !Faithful(next.journal, m);
    } else {
      var i :| 0 <= i < |s.conn.value.batch| && s.conn.value.batch[i].id == cmd.id;
      assert Exact(s.journal, s.conn.value.batch[i]);
      assert !Exact(next.journal, s.conn.value.batch[i]);
    }
  }

  /** Overwriting a verdict changes what one row would be resent as, by what the verdicts say, and sends nothing. */
  lemma OverwriteFacts(s: State, step: Step)
    requires Inv(s) && Enabled(s, step) && Overwrites(s, step)
    ensures var next, cmd, again := Apply(s, step), s.phase.cmd, RaisedVerdict(step.message);
            && next.log.sent == s.log.sent && next.conn == s.conn && next.journal.Keys == s.journal.Keys
            && HasTerminalResult(s.journal, cmd.id) && HasTerminalResult(next.journal, cmd.id)
            && (forall id :: id in s.journal && id != cmd.id ==> next.journal[id] == s.journal[id])
            && (Resend(cmd.id, next.journal[cmd.id]) == Resend(cmd.id, s.journal[cmd.id]) <==> SayTheSame(cmd, s.phase.verdict, again))
            && (SameOutcome(Resend(cmd.id, next.journal[cmd.id]), Resend(cmd.id, s.journal[cmd.id])) <==> SayTheSame(cmd, s.phase.verdict, again))
  {
  }

  lemma {:induction false} StepKeepsSpoken(s: State, step: Step)
    requires Inv(s) && Spoken(s) && Enabled(s, step) && Harmless(s, step)
    ensures Spoken(Apply(s, step))
  {
    if Overwrites(s, step) {
      OverwriteKeepsSpokenExactly(s, step);
    } else {
      var next := Apply(s, step);
      forall id | HasTerminalResult(s.journal, id)
        ensures HasTerminalResult(next.journal, id) && Resend(id, next.journal[id]) == Resend(id, s.journal[id])
      {
        StepKeepsResend(s, step, id);
      }
      NewWordsAreFaithful(s, step);
      QueuedWordsAreExact(s, step);
      assert forall m :: m in next.log.sent ==> Faithful(s.journal, m);
    }
  }

  lemma {:induction false} RunKeepsSpoken(s: State, steps: seq<Step>)
    requires Inv(s) && Spoken(s) && Legal(s, steps) && Agreeable(s, steps)
    ensures Spoken(Exec(s, steps))
    decreases steps
  {
    if steps != [] {
      StepKeepsInv(s, steps[0]);
      StepKeepsSpoken(s, steps[0]);
      RunKeepsSpoken(Apply(s, steps[0]), steps[1..]);
    }
  }

  ghost predicate SpokenAfter(s: State, steps: seq<Step>) {
    Legal(s, steps) && Spoken(Exec(s, steps))
  }

  /**
    Outcome agreement, exactly: at every point of a run everything said agrees with the journal if
    and only if every step of it is harmless.
   */
  lemma {:induction false} SpokenThroughoutExactly(s: State, steps: seq<Step>)
    requires Inv(s) && Spoken(s) && Legal(s, steps)
    ensures (forall k: nat :: k <= |steps| ==> SpokenAfter(s, steps[..k])) <==> Agreeable(s, steps)
    decreases steps
  {
    if Agreeable(s, steps) {
      forall k: nat | k <= |steps| ensures SpokenAfter(s, steps[..k]) {
        RunApart(s, steps, k);
        AgreeableTogether(s, steps[..k], steps[k..]);
        assert steps[..k] + steps[k..] == steps;
        RunKeepsSpoken(s, steps[..k]);
      }
    } else if !Harmless(s, steps[0]) {
      OverwriteKeepsSpokenExactly(s, steps[0]);
      assert steps[..1] == [steps[0]] && [steps[0]][1..] == [];
      assert Exec(s, steps[..1]) == Exec(Apply(s, steps[0]), []);
      assert !SpokenAfter(s, steps[..1]);
    } else {
      StepKeepsInv(s, steps[0]);
      StepKeepsSpoken(s, steps[0]);
      SpokenThroughoutExactly(Apply(s, steps[0]), steps[1..]);
      var k: nat :| k <= |steps| - 1 && !SpokenAfter(Apply(s, steps[0]), steps[1..][..k]);
      assert steps[..k + 1][1..] == steps[1..][..k];
      assert !SpokenAfter(s, steps[..k + 1]);
    }
  }

  /**
    Outcome agreement: over every run with duplicates, drops, reconnects and restarts in which every
    step is harmless, as on any clean run, any two results sent for one command, by HTTP or by
    resending, agree on status, result and error fields.
   */
  lemma OutcomesAgree(steps: seq<Step>, m: Message, n: Message)
    requires Legal(INIT, steps) && Agreeable(INIT, steps)
    requires m in Exec(INIT, steps).log.sent && n in Exec(INIT, steps).log.sent && m.id == n.id
    ensures SameOutcome(m, n)
    ensures m.succeeded == n.succeeded && m.resultJson == n.resultJson && m.errorCode == n.errorCode && m.errorMessage == n.errorMessage
  {
    RunKeepsSpoken(INIT, steps);
    assert Faithful(Exec(INIT, steps).journal, m) && Faithful(Exec(INIT, steps).journal, n);
  }

  /** And what they say is what the journal holds: sent with whatever generation, queued with the stored one. */
  lemma WhatIsSaidIsJournaled(steps: seq<Step>, m: Message)
    requires Legal(INIT, steps) && Agreeable(INIT, steps)
    ensures var s := Exec(INIT, steps);
            && (m in s.log.sent ==> HasTerminalResult(s.journal, m.id) && Says(m, m.id, VerdictOf(s.journal[m.id]), m.generation))
            && (s.conn.Some? && m in s.conn.value.batch ==>
                  HasTerminalResult(s.journal, m.id) && Says(m, m.id, VerdictOf(s.journal[m.id]), s.journal[m.id].generation))
  {
    RunKeepsSpoken(INIT, steps);
    var s := Exec(INIT, steps);
    if m in s.log.sent {
      assert Faithful(s.journal, m);
    }
    if s.conn.Some? && m in s.conn.value.batch {
      assert Exact(s.journal, m);
    }
  }

  /** Every delivery of a command carries the generation that Cloud has given that command. */
  ghost predicate Consistent(steps: seq<Step>, generation: string -> int) {
    forall i :: 0 <= i < |steps| && steps[i].Deliver? ==> steps[i].cmd.generation == generation(steps[i].cmd.id)
  }

  ghost predicate RowGenerationsMatch(s: State, generation: string -> int) {
    && (forall id :: id in s.journal ==> s.journal[id].generation == generation(id))
    && (s.phase.Dispatching? || s.phase.Handling? || s.phase.Reporting? ==> s.phase.cmd.generation == generation(s.phase.cmd.id))
  }

  ghost predicate SentGenerationsMatch(s: State, generation: string -> int) {
    forall m :: m in s.log.sent ==> m.generation == generation(m.id)
  }

  ghost predicate GenerationsMatch(s: State, generation: string -> int) {
    RowGenerationsMatch(s, generation) && SentGenerationsMatch(s, generation)
  }

  lemma {:induction false} StepKeepsRowGenerations(s: State, step: Step, generation: string -> int)
    requires RowGenerationsMatch(s, generation) && Enabled(s, step)
    requires step.Deliver? ==> step.cmd.generation == generation(step.cmd.id)
    ensures RowGenerationsMatch(Apply(s, step), generation)
  {
  }

  lemma {:induction false} StepKeepsGenerations(s: State, step: Step, generation: string -> int)
    requires Spoken(s) && GenerationsMatch(s, generation) && Enabled(s, step)
    requires step.Deliver? ==> step.cmd.generation == generation(step.cmd.id)
    ensures GenerationsMatch(Apply(s, step), generation)
  {
    StepKeepsRowGenerations(s, step, generation);
    if step.WriteResend? {
      assert Exact(s.journal, s.conn.value.batch[0]);
    }
  }

  lemma {:induction false} RunKeepsGenerations(s: State, steps: seq<Step>, generation: string -> int)
    requires Inv(s) && Spoken(s) && GenerationsMatch(s, generation) && Legal(s, steps) && Agreeable(s, steps) && Consistent(steps, generation)
    ensures GenerationsMatch(Exec(s, steps), generation)
    decreases steps
  {
    if steps != [] {
      StepKeepsInv(s, steps[0]);
      StepKeepsSpoken(s, steps[0]);
      StepKeepsGenerations(s, steps[0], generation);
      assert Consistent(steps[1..], generation);
      RunKeepsGenerations(Apply(s, steps[0]), steps[1..], generation);
    }
  }

  /** With consistent deliveries the generations agree as well: there is one message per command. */
  lemma MessagesAgree(steps: seq<Step>, generation: string -> int, m: Message, n: Message)
    requires Legal(INIT, steps) && Agreeable(INIT, steps) && Consistent(steps, generation)
    requires m in Exec(INIT, steps).log.sent && n in Exec(INIT, steps).log.sent && m.id == n.id
    ensures m == n && m.generation == generation(m.id)
  {
    RunKeepsGenerations(INIT, steps, generation);
    OutcomesAgree(steps, m, n);
  }

  /** Cloud hears nothing that was not sent. */
  ghost predicate Heard(s: State) {
    && s.log.received <= s.log.sent
    && (s.conn.Some? ==> forall i :: 0 <= i < |s.conn.value.wire| ==> s.conn.value.wire[i] in s.log.sent)
  }

  lemma {:induction false} RunKeepsHeard(s: State, steps: seq<Step>)
    requires Heard(s) && Legal(s, steps)
    ensures Heard(Exec(s, steps))
    decreases steps
  {
    if steps != [] {
      StepKeepsHeard(s, steps[0]);
      RunKeepsHeard(Apply(s, steps[0]), steps[1..]);
    }
  }

  lemma {:induction false} StepKeepsHeard(s: State, step: Step)
    requires Heard(s) && Enabled(s, step)
    ensures Heard(Apply(s, step))
  {
  }

  /**
    No finished result is lost: once a command has a result, then at every later point of a clean
    run, across any number of restarts, it is marked reported, or the next snapshot's batch carries
    it exactly once, with the content and the generation it had.
   */
  lemma FinishedResultIsResent(s: State, steps: seq<Step>, id: string, entries: seq<Entry>)
    requires Inv(s) && Legal(s, steps) && Clean(s, steps) && HasTerminalResult(s.journal, id)
    requires Enabled(Exec(s, steps), TakeSnapshot(entries))
    ensures var later := Exec(s, steps);
            var batch := Apply(later, TakeSnapshot(entries)).conn.value.batch;
            && HasTerminalResult(later.journal, id)
            && (if later.journal[id].reported then forall i :: 0 <= i < |batch| ==> batch[i].id != id
                else exists i :: 0 <= i < |batch| && batch[i] == Resend(id, s.journal[id]) &&
                                 Says(batch[i], id, VerdictOf(s.journal[id]), s.journal[id].generation) &&
                                 forall j :: 0 <= j < |batch| && batch[j].id == id ==> j == i)
            && (s.journal[id].reported ==> later.journal[id].reported)
  {
    RunRefines(s, steps, id);
    ListingCarriesOnce(Exec(s, steps).journal, entries, id);
    ResendSays(id, s.journal[id]);
  }

  /** The batch of a listing carries an unreported result once, and a reported one not at all. */
  lemma ListingCarriesOnce(rows: Rows, entries: seq<Entry>, id: string)
    requires IsListing(rows, entries) && HasTerminalResult(rows, id)
    ensures var batch := Batch(entries);
            if rows[id].reported then forall i :: 0 <= i < |batch| ==> batch[i].id != id
            else exists i :: 0 <= i < |batch| && batch[i] == Resend(id, rows[id]) && forall j :: 0 <= j < |batch| && batch[j].id == id ==> j == i
  {
    var batch := Batch(entries);
    assert forall i :: 0 <= i < |batch| ==> batch[i].id == entries[i].id && Unreportedly(rows, entries[i].id);
    if !rows[id].reported {
      assert Unreportedly(rows, id);
      var i :| 0 <= i < |entries| && entries[i].id == id;
      assert batch[i] == Resend(id, rows[id]);
    }
  }
}
