/** Trigger a save, then poll for its confirmation under a deadline: commands/save_execution.py. */
module SaveExecution {
  import opened Wrappers

  /** What the saveContainer call does. Only a client error is caught. */
  datatype Trigger = TriggerFailed(error: string) | TriggerRaised(error: string) | NoPods | Pod(name: string, namespace: string)

  /** One answer of the save-status poll; a request that raises counts as an empty answer. */
  datatype PollReply = PollRaised | Status(status: Option<string>, image: Option<string>, errorDetail: Option<string>)

  /** An external call, as seen from outside the agent. */
  datatype Call =
    | SaveCall(container: string, network: string, request: string)
    | PollCall(container: string, request: string, reply: PollReply)
    | DeleteCall(container: string, network: string, request: string)

  /**
    Everything outside the agent that one save meets: `polls(i)` answers poll `i`, `clock(0)` is the
    reading the deadline is computed from and `clock(i + 1)` the reading after poll `i`.
   */
  datatype World = World(trigger: Trigger, polls: nat -> PollReply, clock: nat -> real)

  datatype SaveOutcome =
    | SaveOutcome(succeeded: bool, timedOut: bool, image: Option<string>, pod: Option<string>,
                  namespace: Option<string>, error: Option<string>)
    | SaveRaised(message: string)

  /** Only "Succeeded" with a real image counts as success. */
  predicate Confirms(reply: PollReply) {
    reply.Status? && reply.status == Some("Succeeded") && reply.image.Some? && reply.image.value != ""
  }

  predicate Denies(reply: PollReply) {
    reply.Status? && reply.status == Some("Failed")
  }

  predicate Decisive(reply: PollReply) { Confirms(reply) || Denies(reply) }

  /** Neither a success with an image nor a failure: the save is still going on, as far as this answer tells. */
  predicate Undecided(reply: PollReply) {
    match reply
    case PollRaised => true
    case Status(status, image, _) => status != Some("Failed") && (status == Some("Succeeded") ==> image == None || image == Some(""))
  }

  predicate Expired(w: World, timeout: real, i: nat) {
    w.clock(i + 1) >= w.clock(0) + timeout
  }

  /** Nothing has been decided by poll `j`, and there is time left after it. */
  predicate GoesOn(w: World, timeout: real, j: nat) {
    Undecided(w.polls(j)) && w.clock(j + 1) < w.clock(0) + timeout
  }

  /** Poll `i` is the last one: its answer is decisive, or the deadline has passed right after it. */
  predicate StopsAt(w: World, timeout: real, i: nat) {
    Decisive(w.polls(i)) || Expired(w, timeout, i)
  }

  ghost predicate LastPoll(w: World, timeout: real, i: nat) {
    StopsAt(w, timeout, i) && forall j: nat :: j < i ==> !StopsAt(w, timeout, j)
  }

  /** The clock never goes back, and each sleep between polls lasts at least the interval. */
  ghost predicate SleepsAtLeast(w: World, interval: real) {
    && w.clock(1) >= w.clock(0)
    && forall i: nat, next: nat :: 1 <= i && next == i + 1 ==> w.clock(next) >= w.clock(i) + interval
  }

  /** These hypotheses on the clock bound the polling; `bound` stands for `ceil(timeout / interval)`. */
  ghost predicate Bounds(w: World, timeout: real, interval: real, bound: nat) {
    interval > 0.0 && SleepsAtLeast(w, interval) && bound as real * interval >= timeout
  }

  /** Whatever interval the clock keeps, `n` is within the bound it gives. */
  ghost predicate WithinBound(w: World, timeout: real, n: int) {
    forall interval, bound: nat :: Bounds(w, timeout, interval, bound) ==> n <= bound
  }

  /**
    The poll bound: with a positive interval, whatever the answers are, the deadline is reached
    after at most `ceil(timeout / interval) + 1` polls.
   */
  lemma {:induction false} PollBound(w: World, timeout: real, interval: real, bound: nat)
    requires Bounds(w, timeout, interval, bound)
    ensures Expired(w, timeout, bound)
    ensures forall n: nat :: LastPoll(w, timeout, n) ==> n + 1 <= bound + 1
  {
    ClockAdvances(w, interval, bound);
    assert StopsAt(w, timeout, bound);
  }

  lemma {:induction false} ClockAdvances(w: World, interval: real, i: nat)
    requires SleepsAtLeast(w, interval)
    ensures w.clock(i + 1) >= w.clock(0) + i as real * interval
  {
    if i > 0 {
      ClockAdvances(w, interval, i - 1);
      assert w.clock(i + 1) >= w.clock(i) + interval;
      assert i as real * interval == (i - 1) as real * interval + interval;
    }
  }

  ghost predicate PollTrace(trace: seq<Call>, w: World, container: string, request: string) {
    forall i: nat :: i < |trace| ==> trace[i] == PollCall(container, request, w.polls(i))
  }

  /**
    `perform_save`. `horizon` is a poll that ends the polling, by its answer or by the clock: any world
    that has one will do, and one whose clock advances has, whatever the answers.
   */
  method PerformSave(w: World, container: string, network: string, request: string, timeout: real, ghost horizon: nat)
    returns (outcome: SaveOutcome, trace: seq<Call>)
    requires w.trigger.Pod? ==> StopsAt(w, timeout, horizon)
    ensures trace != [] && trace[0] == SaveCall(container, network, request)
    ensures PollTrace(trace[1..], w, container, request)
    ensures !w.trigger.Pod? ==> |trace| == 1
    ensures WithinBound(w, timeout, |trace| - 2)
    ensures w.trigger.TriggerFailed? ==> outcome == SaveOutcome(false, false, None, None, None, Some(w.trigger.error))
    ensures w.trigger.NoPods? ==> outcome == SaveOutcome(false, false, None, None, None, Some("Snapshot trigger returned no pod information"))
    ensures w.trigger.TriggerRaised? <==> outcome.SaveRaised?
    ensures w.trigger.TriggerRaised? ==> outcome.message == w.trigger.error
    ensures w.trigger.Pod? ==>
              && 2 <= |trace| <= horizon + 2
              && LastPoll(w, timeout, |trace| - 2)
              && outcome.pod == Some(w.trigger.name) && outcome.namespace == Some(w.trigger.namespace)
              && var reply := w.polls(|trace| - 2);
                 && outcome.succeeded == (reply.Status? && reply.status == Some("Succeeded") && reply.image.Some? && reply.image.value != "")
                 && outcome.timedOut == !(outcome.succeeded || (reply.Status? && reply.status == Some("Failed")))
                 && outcome.image == (if outcome.succeeded then reply.image else None)
                 && outcome.error == (if outcome.succeeded then None
                                      else if outcome.timedOut then Some("Timed out waiting for snapshot confirmation")
                                      else if reply.errorDetail.Some? && reply.errorDetail.value != "" then reply.errorDetail
                                      else Some("Snapshot reported failed"))
    ensures w.trigger.Pod? && outcome.timedOut ==> w.clock(|trace| - 1) >= w.clock(0) + timeout
    ensures w.trigger.Pod? ==> forall j: nat :: j < |trace| - 2 ==> GoesOn(w, timeout, j)
  {
    forall interval, bound: nat | Bounds(w, timeout, interval, bound) ensures StopsAt(w, timeout, bound) {
      PollBound(w, timeout, interval, bound);
    }
    trace := [SaveCall(container, network, request)];
    match w.trigger {
      case TriggerFailed(error) =>
        return SaveOutcome(false, false, None, None, None, Some(error)), trace;
      case TriggerRaised(error) =>
        return SaveRaised(error), trace;
      case NoPods =>
        return SaveOutcome(false, false, None, None, None, Some("Snapshot trigger returned no pod information")), trace;
      case Pod(name, namespace) =>
        var deadline := w.clock(0) + timeout;
        var i := 0;
        while true
          invariant 0 <= i <= horizon && |trace| == i + 1
          invariant trace[0] == SaveCall(container, network, request)
          invariant PollTrace(trace[1..], w, container, request)
          invariant forall j: nat :: j < i ==> !StopsAt(w, timeout, j)
          invariant forall j: nat :: j < i ==> GoesOn(w, timeout, j)
          decreases horizon - i
        {
          var reply := w.polls(i);
          ghost var before := trace[1..];
          trace := trace + [PollCall(container, request, reply)];
          assert trace[1..] == before + [PollCall(container, request, reply)];
          if Confirms(reply) {
            return SaveOutcome(true, false, reply.image, Some(name), Some(namespace), None), trace;
          }
          if Denies(reply) {
            return SaveOutcome(false, false, None, Some(name), Some(namespace),
                               Some(OrDefault(reply.errorDetail, "Snapshot reported failed"))), trace;
          }
          if w.clock(i + 1) >= deadline {
            return SaveOutcome(false, true, None, Some(name), Some(namespace),
                               Some("Timed out waiting for snapshot confirmation")), trace;
          }
          assert i != horizon;
          i := i + 1;
        }
    }
  }

  lemma StopsExactly(w: World, timeout: real, j: nat)
    ensures StopsAt(w, timeout, j) <==> !GoesOn(w, timeout, j)
    ensures Decisive(w.polls(j)) <==> !Undecided(w.polls(j))
  {
  }

  /** Reply `i` is the first decisive one, and the deadline has not cut the polling short before it. */
  ghost predicate FirstDecisive(w: World, timeout: real, i: nat) {
    && !Undecided(w.polls(i))
    && forall j: nat :: j < i ==> GoesOn(w, timeout, j)
  }

  /** Cloud confirms the save in time, with this image, in its answer to poll `i`. */
  ghost predicate ConfirmedInTime(w: World, timeout: real, i: nat, image: string) {
    && FirstDecisive(w, timeout, i) && image != ""
    && w.polls(i).status == Some("Succeeded") && w.polls(i).image == Some(image)
  }

  /** A confirmation that comes in time is what the polling ends with, however late it comes. */
  lemma ConfirmationInTimeCounts(w: World, timeout: real, i: nat, image: string, n: nat)
    requires ConfirmedInTime(w, timeout, i, image) && LastPoll(w, timeout, n)
    ensures n == i && Confirms(w.polls(n))
  {
    SaveVerdictExactly(w, timeout, n);
  }

  /**
    The save is exactly "the first decisive answer before the deadline": it succeeds iff that answer
    is a confirmation, fails iff it is a denial, and times out iff there is none; and the three
    exclude each other. `n` polls were made.
   */
  lemma {:induction false} SaveVerdictExactly(w: World, timeout: real, n: nat)
    requires LastPoll(w, timeout, n)
    ensures Confirms(w.polls(n)) <==> exists i: nat, image :: ConfirmedInTime(w, timeout, i, image)
    ensures Denies(w.polls(n)) <==> exists i: nat :: FirstDecisive(w, timeout, i) && w.polls(i).status == Some("Failed")
    ensures Undecided(w.polls(n)) <==> w.clock(n + 1) >= w.clock(0) + timeout && forall i: nat :: i <= n ==> Undecided(w.polls(i))
    ensures Undecided(w.polls(n)) <==> forall i: nat :: !FirstDecisive(w, timeout, i)
    ensures forall i: nat :: FirstDecisive(w, timeout, i) ==> i == n
    ensures Decisive(w.polls(n)) <==> !Undecided(w.polls(n))
    ensures !(Confirms(w.polls(n)) && Denies(w.polls(n)))
  {
    forall j: nat | j <= n ensures GoesOn(w, timeout, j) <==> !StopsAt(w, timeout, j) {
      StopsExactly(w, timeout, j);
    }
    if Decisive(w.polls(n)) {
      assert FirstDecisive(w, timeout, n);
      if Confirms(w.polls(n)) {
        assert ConfirmedInTime(w, timeout, n, w.polls(n).image.value);
      }
    }
    assert !GoesOn(w, timeout, n);
    forall i: nat | i < n ensures Undecided(w.polls(i)) {
      assert GoesOn(w, timeout, i);
    }
    forall i: nat | FirstDecisive(w, timeout, i) ensures i == n {
      StopsExactly(w, timeout, i);
      assert i > n ==> GoesOn(w, timeout, n);
    }
  }

  /** The shipped settings, 600 seconds and 5 seconds: at most 121 polls. */
  lemma DefaultPollBound(w: World, n: nat)
    requires SleepsAtLeast(w, 5.0) && LastPoll(w, 600.0, n)
    ensures n + 1 <= 121
  {
    PollBound(w, 600.0, 5.0, 120);
  }
}
