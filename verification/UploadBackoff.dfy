// When the next upload attempt is allowed. Times are real numbers of seconds on
// the monotonic clock; the clock reading and the random draw are parameters.
module UploadBackoff {
  import opened Options
  import opened Numbers

  const BASE := 15.0
  const CAP := 300.0
  const MAX_SHIFTS := 8
  const JITTER_FRACTION := 0.2

  function MinReal(a: real, b: real): real { if b < a then b else a }

  // `1 << n` on a 64-bit signed integer: bits shifted past the top are gone.
  function SmartShift(n: nat): int {
    if n >= 64 then 0 else if n == 63 then -0x8000_0000_0000_0000 else Pow2(n)
  }

  // Shifting by an uncapped count would clear the wait, or make it negative.
  lemma ShiftSurvivesExactlyWhen(n: nat)
    ensures SmartShift(n) > 0 <==> n < 63
  {
    Pow2Grows(0, n);
  }

  datatype Backoff = Backoff(until: real, failures: nat)

  // The wait one failure asks for, before jitter; `failures` counts this one.
  function Interval(base: real, cap: real, failures: nat, retryAfterSec: Option<int>): real
    requires failures >= 1
  {
    if retryAfterSec.Some? && retryAfterSec.value > 0 then retryAfterSec.value as real
    else MinReal(base * SmartShift(failures - 1) as real, cap)
  }

  function Counted(failures: nat): (counted: nat)
    ensures 1 <= counted <= MAX_SHIFTS
  {
    if failures + 1 < MAX_SHIFTS then failures + 1 else MAX_SHIFTS
  }

  function Jitter(interval: real, random: real): real { interval * JITTER_FRACTION * random }

  function AfterFailure(base: real, cap: real, b: Backoff, retryAfterSec: Option<int>, now: real, random: real): Backoff {
    var interval := Interval(base, cap, Counted(b.failures), retryAfterSec);
    Backoff(now + interval + Jitter(interval, random), Counted(b.failures))
  }

  class UploadBackoff {
    const base: real
    const cap: real
    var until: real
    var failures: nat

    constructor (base: real, cap: real)
      ensures this.base == base && this.cap == cap && State() == Backoff(0.0, 0)
    {
      this.base := base;
      this.cap := cap;
      until := 0.0;
      failures := 0;
    }

    function State(): Backoff
      reads this
    {
      Backoff(until, failures)
    }

    predicate ShouldWait(now: real)
      reads this
    {
      now < until
    }

    // What is left is zero exactly when an attempt is clear to send, and waiting
    // it out clears it.
    function Remaining(now: real): (left: real)
      reads this
      ensures left >= 0.0 && (left > 0.0 <==> ShouldWait(now))
      ensures !ShouldWait(now + left)
    {
      if until - now > 0.0 then until - now else 0.0
    }

    method OnFailure(retryAfterSec: Option<int>, now: real, random: real)
      modifies this
      ensures State() == AfterFailure(base, cap, old(State()), retryAfterSec, now, random)
      ensures 0.0 < base <= cap && 0.0 <= random < 1.0 ==>
        if retryAfterSec.Some? && retryAfterSec.value > 0
        then now + retryAfterSec.value as real <= until < now + 1.2 * retryAfterSec.value as real
        else now + base <= until < now + 1.2 * cap
    {
      if 0.0 < base <= cap && 0.0 <= random < 1.0 {
        FailureCosts(base, cap, State(), retryAfterSec, now, random);
      }
      failures := if failures + 1 < MAX_SHIFTS then failures + 1 else MAX_SHIFTS;
      var interval;
      if retryAfterSec.Some? && retryAfterSec.value > 0 {
        interval := retryAfterSec.value as real;
      } else {
        interval := MinReal(base * SmartShift(failures - 1) as real, cap);
      }
      var jitter := interval * JITTER_FRACTION * random;
      until := now + interval + jitter;
    }

    method OnSuccess()
      modifies this
      ensures State() == Backoff(0.0, 0) && forall now :: now >= 0.0 ==> !ShouldWait(now)
    {
      failures := 0;
      until := 0.0;
    }
  }

  // ---------------------------------------------------------------------------
  // The schedule
  // ---------------------------------------------------------------------------

  // Doubling from the base up to the cap, with no limit on how often.
  function Schedule(base: real, cap: real, k: nat): real
    requires k >= 1
  {
    MinReal(base * Pow2(k - 1) as real, cap)
  }

  lemma ScheduleStaysAtCap(base: real, cap: real, k: nat)
    requires base > 0.0 && k >= MAX_SHIFTS && cap <= base * 128.0
    ensures Schedule(base, cap, k) == cap
  {
    assert Pow2(7) == 128;
    Pow2Grows(7, k - 1);
    Scaled(base, 128, Pow2(k - 1));
  }

  // The wait reaches its cap with the sixth failure in a row.
  lemma CapIsReachedAtTheSixth(k: nat)
    requires k >= 1
    ensures Schedule(BASE, CAP, k) == CAP <==> k >= 6
  {
    assert Pow2(0) == 1 && Pow2(1) == 2 && Pow2(2) == 4 && Pow2(3) == 8 && Pow2(4) == 16 && Pow2(5) == 32;
    if k >= 6 {
      Pow2Grows(5, k - 1);
      Scaled(BASE, 32, Pow2(k - 1));
    } else {
      Pow2Grows(k - 1, 4);
      Scaled(BASE, Pow2(k - 1), 16);
    }
  }

  lemma Scaled(base: real, m: int, n: int)
    requires base > 0.0 && m <= n
    ensures base * m as real <= base * n as real
  {
  }

  // Counting failures only up to eight loses nothing of the unlimited schedule
  // exactly when seven doublings of the base reach the cap.
  lemma CountingToEightIsEnoughExactlyWhen(base: real, cap: real)
    requires base > 0.0
    ensures (forall k: nat :: k >= 1 ==> Interval(base, cap, if k < MAX_SHIFTS then k else MAX_SHIFTS, None) == Schedule(base, cap, k))
      <==> cap <= base * 128.0
  {
    assert Pow2(7) == 128 && Pow2(8) == 256;
    if cap <= base * 128.0 {
      forall k: nat | k >= 1
        ensures Interval(base, cap, if k < MAX_SHIFTS then k else MAX_SHIFTS, None) == Schedule(base, cap, k)
      {
        if k >= MAX_SHIFTS {
          ScheduleStaysAtCap(base, cap, k);
          ScheduleStaysAtCap(base, cap, MAX_SHIFTS);
        }
      }
    } else {
      assert base * 128.0 < base * 256.0;
      assert Interval(base, cap, 8, None) != Schedule(base, cap, 9);
    }
  }

  // ---------------------------------------------------------------------------
  // An outage
  // ---------------------------------------------------------------------------

  // One attempt that failed: when it was made, when it failed, what the server
  // named, and the draw.
  datatype Attempt = Attempt(start: real, failed: real, retryAfterSec: Option<int>, random: real)

  function AfterFailures(b: Backoff, attempts: seq<Attempt>): Backoff {
    if attempts == [] then b
    else
      var last := attempts[|attempts| - 1];
      AfterFailure(BASE, CAP, AfterFailures(b, attempts[..|attempts| - 1]), last.retryAfterSec, last.failed, last.random)
  }

  // Attempts made only when the gate is open, each failing no earlier than it was made.
  predicate Gated(attempts: seq<Attempt>) {
    forall i :: 0 <= i < |attempts| ==>
      && AfterFailures(Backoff(0.0, 0), attempts[..i]).until <= attempts[i].start <= attempts[i].failed
      && 0.0 <= attempts[i].random < 1.0
  }

  // What the i-th failure in a row (from one) must cost.
  function Needed(i: nat, a: Attempt): real
    requires i >= 1
  {
    if a.retryAfterSec.Some? && a.retryAfterSec.value > 0 then a.retryAfterSec.value as real else Schedule(BASE, CAP, i)
  }

  // A delay the server names is kept, with up to a fifth more and never less; a
  // failure without one costs the base at least and a fifth over the cap at most.
  lemma FailureCosts(base: real, cap: real, b: Backoff, retryAfterSec: Option<int>, now: real, random: real)
    requires 0.0 < base <= cap && 0.0 <= random < 1.0
    ensures var wait := AfterFailure(base, cap, b, retryAfterSec, now, random).until - now;
      if retryAfterSec.Some? && retryAfterSec.value > 0 then retryAfterSec.value as real <= wait < 1.2 * retryAfterSec.value as real
      else base <= wait < 1.2 * cap
  {
    var interval := Interval(base, cap, Counted(b.failures), retryAfterSec);
    if !(retryAfterSec.Some? && retryAfterSec.value > 0) {
      ShiftIsAtLeastOne(Counted(b.failures) - 1);
      StepIsBetween(base, cap, SmartShift(Counted(b.failures) - 1));
    }
    hide Jitter, Counted, SmartShift, MinReal;
    JitterIsAFifth(interval, random);
  }

  lemma StepIsBetween(base: real, cap: real, shifted: int)
    requires 0.0 < base <= cap && shifted >= 1
    ensures base <= MinReal(base * shifted as real, cap) <= cap
  {
    Scaled(base, 1, shifted);
  }

  lemma ShiftIsAtLeastOne(n: nat)
    requires n < MAX_SHIFTS
    ensures SmartShift(n) >= 1
  {
    Pow2Grows(0, n);
  }

  lemma {:induction false} FailuresCounted(attempts: seq<Attempt>)
    ensures AfterFailures(Backoff(0.0, 0), attempts).failures == if |attempts| < MAX_SHIFTS then |attempts| else MAX_SHIFTS
  {
    if attempts != [] {
      FailuresCounted(attempts[..|attempts| - 1]);
    }
  }

  // Counting only to eight, the code asks for what the unlimited schedule asks.
  lemma IntervalIsNeeded(attempts: seq<Attempt>, a: Attempt)
    ensures Interval(BASE, CAP, Counted(AfterFailures(Backoff(0.0, 0), attempts).failures), a.retryAfterSec)
      == Needed(|attempts| + 1, a) > 0.0
  {
    FailuresCounted(attempts);
    CountingToEightIsEnoughExactlyWhen(BASE, CAP);
    Pow2Grows(0, |attempts|);
    hide AfterFailures;
    var k := |attempts| + 1;
    assert Counted(AfterFailures(Backoff(0.0, 0), attempts).failures) == if k < MAX_SHIFTS then k else MAX_SHIFTS;
    ScheduleIsPositive(k);
  }

  lemma ScheduleIsPositive(k: nat)
    requires k >= 1
    ensures Schedule(BASE, CAP, k) > 0.0
  {
    Pow2Grows(0, k - 1);
    Scaled(BASE, 1, Pow2(k - 1));
  }

  // Jitter adds up to a fifth and takes nothing away.
  lemma JitterBand(b: Backoff, a: Attempt)
    requires Interval(BASE, CAP, Counted(b.failures), a.retryAfterSec) > 0.0 && 0.0 <= a.random < 1.0
    ensures var interval := Interval(BASE, CAP, Counted(b.failures), a.retryAfterSec);
      interval <= AfterFailure(BASE, CAP, b, a.retryAfterSec, a.failed, a.random).until - a.failed < 1.2 * interval
  {
    hide Interval, Jitter, Counted;
    JitterIsAFifth(Interval(BASE, CAP, Counted(b.failures), a.retryAfterSec), a.random);
  }

  lemma JitterIsAFifth(interval: real, random: real)
    requires interval > 0.0 && 0.0 <= random < 1.0
    ensures 0.0 <= Jitter(interval, random) && interval + Jitter(interval, random) < 1.2 * interval
  {
  }

  // After any number of straight failures the wait is what the schedule or the
  // server asks, at most a fifth more, and never zero.
  lemma WaitIsWithinBand(attempts: seq<Attempt>, a: Attempt)
    requires 0.0 <= a.random < 1.0
    ensures var wait := AfterFailures(Backoff(0.0, 0), attempts + [a]).until - a.failed;
      var needed := Needed(|attempts| + 1, a);
      0.0 < needed <= wait < 1.2 * needed
  {
    hide Interval, Counted, Needed, AfterFailure;
    var before := AfterFailures(Backoff(0.0, 0), attempts);
    assert (attempts + [a])[..|attempts|] == attempts && (attempts + [a])[|attempts|] == a;
    IntervalIsNeeded(attempts, a);
    JitterBand(before, a);
  }

  function TotalNeeded(attempts: seq<Attempt>): real {
    if attempts == [] then 0.0
    else TotalNeeded(attempts[..|attempts| - 1]) + Needed(|attempts|, attempts[|attempts| - 1])
  }

  // Between the first attempt of an outage and any later one lies everything the
  // failures in between asked for.
  lemma {:induction false} OutageSpan(attempts: seq<Attempt>)
    requires |attempts| >= 1 && Gated(attempts)
    ensures attempts[|attempts| - 1].start - attempts[0].start >= TotalNeeded(attempts[..|attempts| - 1])
  {
    hide AfterFailure, Needed;
    var n := |attempts| - 1;
    if n > 0 {
      var before := attempts[..n];
      assert Gated(before) by {
        assert forall i :: 0 <= i < n ==> before[..i] == attempts[..i];
      }
      OutageSpan(before);
      var last := before[n - 1];
      assert before == before[..n - 1] + [last];
      assert last.failed >= last.start && 0.0 <= last.random < 1.0;
      WaitIsWithinBand(before[..n - 1], last);
      assert attempts[n].start >= AfterFailures(Backoff(0.0, 0), before).until;
      hide AfterFailures, Gated;
    }
  }

  // A delay of zero or less is no delay.
  predicate NamesNoDelay(a: Attempt) { a.retryAfterSec.Some? ==> a.retryAfterSec.value <= 0 }

  lemma {:induction false} FiveMinutesEach(attempts: seq<Attempt>)
    requires forall i :: 0 <= i < |attempts| ==> NamesNoDelay(attempts[i])
    ensures TotalNeeded(attempts) >= 300.0 * |attempts| as real - 1035.0
  {
    var n := |attempts|;
    if n > 0 {
      FiveMinutesEach(attempts[..n - 1]);
      assert Pow2(0) == 1 && Pow2(1) == 2 && Pow2(2) == 4 && Pow2(3) == 8 && Pow2(4) == 16 && Pow2(5) == 32;
      if n >= 6 {
        Pow2Grows(5, n - 1);
        Scaled(BASE, 32, Pow2(n - 1));
      } else {
        ShortOutage(attempts);
      }
    }
  }

  // The first five failures ask for 15, 30, 60, 120 and 240 seconds.
  lemma {:induction false} ShortOutage(attempts: seq<Attempt>)
    requires 1 <= |attempts| <= 5 && forall i :: 0 <= i < |attempts| ==> NamesNoDelay(attempts[i])
    ensures TotalNeeded(attempts) == 15.0 * (Pow2(|attempts|) - 1) as real
  {
    var n := |attempts|;
    if n > 1 {
      ShortOutage(attempts[..n - 1]);
    }
    assert Pow2(n) == 2 * Pow2(n - 1);
    assert Pow2(n - 1) <= 16 by { Pow2Grows(n - 1, 4); assert Pow2(4) == 16; }
  }

  // n attempts at a server that never answers and names no delay take at least
  // 300 n - 1335 seconds, however long the outage.
  lemma OutageIsSlow(attempts: seq<Attempt>)
    requires |attempts| >= 1 && Gated(attempts) && forall i :: 0 <= i < |attempts| ==> NamesNoDelay(attempts[i])
    ensures attempts[|attempts| - 1].start - attempts[0].start >= 300.0 * |attempts| as real - 1335.0
  {
    OutageSpan(attempts);
    FiveMinutesEach(attempts[..|attempts| - 1]);
  }
}
