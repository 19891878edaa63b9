/** The reconnect schedule: control/backoff.py and the loop of control/grpc_client.py. */
module Reconnect {

  const SCHEDULE: seq<real> := [1.0, 2.0, 4.0, 8.0, 15.0, 30.0]
  const CAP: real := 30.0

  function Base(attempt: nat): real {
    SCHEDULE[if attempt < |SCHEDULE| then attempt else |SCHEDULE| - 1]
  }

  function Abs(x: real): real { if x < 0.0 then -x else x }

  /** A draw of the source's `uniform(-range, range)`, whatever the sign of the configured fraction. */
  predicate Draw(attempt: nat, fraction: real, draw: real) {
    Abs(draw) <= Abs(Base(attempt) * fraction)
  }

  /** `backoff_seconds` */
  function BackoffSeconds(attempt: nat, draw: real): real {
    var delay := Base(attempt) + draw;
    if delay < 0.0 then 0.0 else delay
  }

  /** One session: how `_connect_once` ended, and whether `stop()` had been called by then or after the sleep. */
  datatype Session = Session(clean: bool, stoppedBefore: bool, stoppedAfterSleep: bool)

  /** How many sessions lie between session `i` and the last clean one, or the start. */
  function Streak(sessions: seq<Session>, i: nat): nat
    requires i < |sessions|
  {
    if sessions[i].clean || i == 0 then 0 else Streak(sessions, i - 1) + 1
  }

  /** After session `i` the loop sleeps `delays[i]`: the delay for the sessions since the last clean one. */
  ghost predicate Scheduled(sessions: seq<Session>, draws: nat -> real, delays: seq<real>) {
    && |delays| <= |sessions|
    && forall i: nat {:trigger delays[i]} :: i < |delays| ==> delays[i] == BackoffSeconds(Streak(sessions, i), draws(i))
  }

  /**
    `run_forever` over the sessions of one process lifetime. `delays[i]` is what it sleeps after
    session `i`; it ends when stopped, or with the process when the sessions run out.
   */
  method RunForever(sessions: seq<Session>, draws: nat -> real) returns (delays: seq<real>)
    ensures Scheduled(sessions, draws, delays)
    ensures forall i: nat {:trigger delays[i]} :: i < |delays| ==>
              var drawn := Base(Streak(sessions, i)) + draws(i);
              delays[i] == if drawn < 0.0 then 0.0 else drawn
    ensures forall i :: 0 <= i < |delays| ==> !sessions[i].stoppedBefore
    ensures forall i :: 0 <= i < |delays| - 1 ==> !sessions[i].stoppedAfterSleep
    ensures |delays| == |sessions| || sessions[|delays|].stoppedBefore || (delays != [] && sessions[|delays| - 1].stoppedAfterSleep)
  {
    delays := [];
    var attempt, stopped, i := 0, false, 0;
    while i < |sessions| && !stopped
      invariant 0 <= i == |delays| <= |sessions| && 0 <= attempt && Scheduled(sessions, draws, delays)
      invariant i > 0 ==> attempt == Streak(sessions, i - 1) + 1
      invariant i == 0 ==> attempt == 0 && !stopped
      invariant i > 0 ==> stopped == sessions[i - 1].stoppedAfterSleep
      invariant forall k :: 0 <= k < i ==> !sessions[k].stoppedBefore
      invariant forall k :: 0 <= k < i - 1 ==> !sessions[k].stoppedAfterSleep
    {
      if sessions[i].clean {
        attempt := 0;
      }
      if sessions[i].stoppedBefore {
        return;
      }
      delays := delays + [BackoffSeconds(attempt, draws(i))];
      stopped := sessions[i].stoppedAfterSleep;
      attempt := attempt + 1;
      i := i + 1;
    }
  }

  /**
    Along sessions `j..i` that all fail after session `j`, the base delay never decreases, is at the
    cap from the fifth on and stays there; right after a clean session it is one second again.
   */
  lemma {:induction false} ScheduleAlongStreak(sessions: seq<Session>, j: nat, i: nat)
    requires j <= i < |sessions|
    requires forall k :: j < k <= i ==> !sessions[k].clean
    ensures Streak(sessions, i) == Streak(sessions, j) + (i - j)
    ensures Base(Streak(sessions, j)) <= Base(Streak(sessions, i)) <= CAP
    ensures i - j >= |SCHEDULE| - 1 ==> Base(Streak(sessions, i)) == CAP
    ensures Base(Streak(sessions, j)) == CAP ==> Base(Streak(sessions, i)) == CAP
    ensures sessions[j].clean || j == 0 ==>
              Base(Streak(sessions, i)) == (match i - j
                                            case 0 => 1.0
                                            case 1 => 2.0
                                            case 2 => 4.0
                                            case 3 => 8.0
                                            case 4 => 15.0
                                            case _ => 30.0)
  {
    if j < i {
      ScheduleAlongStreak(sessions, j, i - 1);
    }
  }

  /** Before the cap, every draw for an attempt is shorter than every draw for the next one. */
  ghost predicate JitterKeepsOrder(fraction: real) {
    forall attempt: nat, next: nat, d, e ::
      next == attempt + 1 < |SCHEDULE| && Draw(attempt, fraction, d) && Draw(next, fraction, e)
      ==> BackoffSeconds(attempt, d) < BackoffSeconds(next, e)
  }

  /** The jittered delays increase strictly up to the cap exactly for jitter fractions below 7/23. */
  lemma JitterOrderExactly(fraction: real)
    ensures JitterKeepsOrder(fraction) <==> 23.0 * Abs(fraction) < 7.0
  {
    if 23.0 * Abs(fraction) < 7.0 {
      forall attempt: nat, next: nat, d, e |
        next == attempt + 1 < |SCHEDULE| && Draw(attempt, fraction, d) && Draw(next, fraction, e)
        ensures BackoffSeconds(attempt, d) < BackoffSeconds(next, e)
      {
        OrderedAt(attempt, fraction, d, e);
      }
    } else {
      var f := Abs(fraction);
      var d, e := 8.0 * f, -15.0 * f;
      assert Base(3) == 8.0 && Base(4) == 15.0;
      assert Draw(3, fraction, d) && Draw(4, fraction, e);
      assert BackoffSeconds(3, d) >= BackoffSeconds(4, e);
    }
  }

  lemma OrderedAt(attempt: nat, fraction: real, d: real, e: real)
    requires 23.0 * Abs(fraction) < 7.0 && attempt < |SCHEDULE| - 1
    requires Draw(attempt, fraction, d) && Draw(attempt + 1, fraction, e)
    ensures BackoffSeconds(attempt, d) < BackoffSeconds(attempt + 1, e)
  {
    if attempt == 0 {
    } else if attempt == 1 {
    } else if attempt == 2 {
    } else if attempt == 3 {
    } else {
    }
  }

  /** The configured default of 0.2 is one of them, and keeps the capped delay between 24 and 36 seconds. */
  lemma DefaultJitter(attempt: nat, d: real)
    requires Draw(attempt, 0.2, d)
    ensures JitterKeepsOrder(0.2)
    ensures attempt >= |SCHEDULE| - 1 ==> 24.0 <= BackoffSeconds(attempt, d) <= 36.0
  {
    JitterOrderExactly(0.2);
  }

  /** Sessions `j + 1` to `i` failed one after the other, and with `i` the schedule has at most just reached its cap. */
  ghost predicate Climbs(sessions: seq<Session>, j: nat, i: nat)
    requires i < |sessions|
  {
    j < i && (forall k :: j < k <= i ==> !sessions[k].clean) && Streak(sessions, i) < |SCHEDULE|
  }

  /** The draw after each session is one that the source can make for the number of attempts it is at. */
  ghost predicate Drawn(sessions: seq<Session>, draws: nat -> real, fraction: real) {
    forall k: nat :: k < |sessions| ==> Draw(Streak(sessions, k), fraction, draws(k))
  }

  /** In every process lifetime, the delays of a climbing streak increase strictly. */
  ghost predicate ClimbsStrictly(fraction: real) {
    forall sessions, draws, delays, j: nat, i: nat ::
      Scheduled(sessions, draws, delays) && Drawn(sessions, draws, fraction) && i < |delays| && Climbs(sessions, j, i)
      ==> delays[j] < delays[i]
  }

  /** Over whole lifetimes too, the delays that `run_forever` sleeps climb strictly exactly below 7/23. */
  lemma ClimbsStrictlyExactly(fraction: real)
    ensures ClimbsStrictly(fraction) <==> 23.0 * Abs(fraction) < 7.0
  {
    if 23.0 * Abs(fraction) < 7.0 {
      forall sessions, draws, delays, j: nat, i: nat |
        Scheduled(sessions, draws, delays) && Drawn(sessions, draws, fraction) && i < |delays| && Climbs(sessions, j, i)
        ensures delays[j] < delays[i]
      {
        DelaysClimb(sessions, draws, delays, fraction, j, i);
      }
    } else {
      SomeDelaysDoNot(fraction);
    }
  }

  lemma {:induction false} DelaysClimb(sessions: seq<Session>, draws: nat -> real, delays: seq<real>, fraction: real, j: nat, i: nat)
    requires Scheduled(sessions, draws, delays) && Drawn(sessions, draws, fraction) && 23.0 * Abs(fraction) < 7.0
    requires i < |delays| && Climbs(sessions, j, i)
    ensures delays[j] < delays[i]
  {
    var before: nat := i - 1;
    assert Streak(sessions, i) == Streak(sessions, before) + 1;
    OrderedAt(Streak(sessions, before), fraction, draws(before), draws(i));
    assert delays[before] < delays[i];
    if j < before {
      DelaysClimb(sessions, draws, delays, fraction, j, before);
    }
  }

  /** Five failed sessions: the longest draw after the fourth, the shortest after the fifth. */
  lemma SomeDelaysDoNot(fraction: real)
    requires 23.0 * Abs(fraction) >= 7.0
    ensures !ClimbsStrictly(fraction)
  {
    var failed := Session(false, false, false);
    var sessions := [failed, failed, failed, failed, failed];
    var f := Abs(fraction);
    var draws: nat -> real := i => if i == 3 then 8.0 * f else if i == 4 then -15.0 * f else 0.0;
    var delays := seq(5, i requires 0 <= i < 5 => BackoffSeconds(Streak(sessions, i), draws(i)));
    assert forall k: nat :: k < 5 ==> Streak(sessions, k) == k by {
      assert Streak(sessions, 0) == 0;
      assert Streak(sessions, 1) == 1;
      assert Streak(sessions, 2) == 2;
      assert Streak(sessions, 3) == 3;
    }
    assert Drawn(sessions, draws, fraction);
    assert Climbs(sessions, 3, 4);
    assert delays[3] >= delays[4];
  }
}
