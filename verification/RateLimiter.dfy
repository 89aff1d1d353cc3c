// The fixed-window counter with a cost: one script on the Redis server, so one
// step. Times are milliseconds on that server's clock.
module RateLimiter {
  import opened Options
  import opened Numbers

  // A stored counter; every key this script leaves behind has an expiry.
  datatype Counter = Counter(count: int, expireAt: int)

  datatype Verdict = Verdict(allowed: bool, remaining: int, resetSec: int)

  // What the server finds under a key: a counter is gone once its expiry has passed.
  function Live(c: Option<Counter>, now: int): Option<Counter> {
    if c.Some? && now <= c.value.expireAt then c else None
  }

  function CountOf(c: Option<Counter>): int { if c.Some? then c.value.count else 0 }

  // The counter after one call, for a positive window.
  function Consumed(c: Option<Counter>, windowSec: int, cost: int, now: int): Counter {
    var live := Live(c, now);
    Counter(CountOf(live) + cost,
            if live == None || live.value.count == 0 then now + 1000 * windowSec else live.value.expireAt)
  }

  // TTL rounds the milliseconds left to whole seconds.
  function SecondsLeft(c: Counter, now: int): int { (c.expireAt - now + 500) / 1000 }

  class RateLimiter {
    var counters: map<string, Counter>

    constructor ()
      ensures counters == map[]
    {
      counters := map[];
    }

    function Find(key: string): Option<Counter>
      reads this
    {
      if key in counters then Some(counters[key]) else None
    }

    method Consume(key: string, limit: int, windowSec: int, cost: int, now: int) returns (v: Verdict)
      requires windowSec > 0
      modifies this
      ensures Find(key) == Some(Consumed(old(Find(key)), windowSec, cost, now))
      ensures forall other :: other != key ==> Find(other) == old(Find(other))
      ensures v == Verdict(CountOf(Find(key)) <= limit, Max(0, limit - CountOf(Find(key))), SecondsLeft(counters[key], now))
      ensures -500 <= 1000 * v.resetSec - (counters[key].expireAt - now) <= 500
    {
      // INCRBY
      var current := cost;
      var expireAt: Option<int> := None;
      if key in counters && now <= counters[key].expireAt {
        current := counters[key].count + cost;
        expireAt := Some(counters[key].expireAt);
      }
      // EXPIRE
      if current == cost {
        expireAt := Some(now + 1000 * windowSec);
      }
      counters := counters[key := Counter(current, expireAt.value)];
      v := Verdict(current <= limit, Max(0, limit - current), SecondsLeft(counters[key], now));
    }
  }

  // ---------------------------------------------------------------------------
  // Runs of calls on one key, with one limit and one window
  // ---------------------------------------------------------------------------

  datatype Call = Call(cost: int, now: int)

  function After(windowSec: int, calls: seq<Call>): Option<Counter> {
    if calls == [] then None
    else
      var last := calls[|calls| - 1];
      Some(Consumed(After(windowSec, calls[..|calls| - 1]), windowSec, last.cost, last.now))
  }

  // Whether the i-th call was let through.
  predicate AllowedAt(limit: int, windowSec: int, calls: seq<Call>, i: nat)
    requires i < |calls|
  {
    CountOf(After(windowSec, calls[..i + 1])) <= limit
  }

  // The clock does not run backwards and every call costs something.
  predicate Ordinary(calls: seq<Call>) {
    && (forall i :: 0 <= i < |calls| ==> calls[i].cost > 0)
    && forall i, j :: 0 <= i < j < |calls| ==> calls[i].now <= calls[j].now
  }

  // What was let through from one moment to another, both included.
  function AllowedBetween(limit: int, windowSec: int, calls: seq<Call>, from: int, to: int): int {
    if calls == [] then 0
    else
      var n := |calls| - 1;
      AllowedBetween(limit, windowSec, calls[..n], from, to)
      + if from <= calls[n].now <= to && AllowedAt(limit, windowSec, calls, n) then calls[n].cost else 0
  }

  // After a call the counter is alive, and no younger than its window.
  lemma {:induction false} CounterIsLive(windowSec: int, calls: seq<Call>)
    requires windowSec > 0 && calls != [] && Ordinary(calls)
    ensures var c, now := After(windowSec, calls).value, calls[|calls| - 1].now;
      c.count > 0 && now <= c.expireAt <= now + 1000 * windowSec
  {
    if |calls| > 1 {
      CounterIsLive(windowSec, calls[..|calls| - 1]);
    }
  }

  // The expiry is set by the first call of a window and by no other.
  lemma ExpirySetOncePerWindow(windowSec: int, calls: seq<Call>, call: Call)
    requires windowSec > 0 && Ordinary(calls + [call])
    ensures var before, after := After(windowSec, calls), After(windowSec, calls + [call]);
      after.value.expireAt == if Live(before, call.now).Some? then before.value.expireAt else call.now + 1000 * windowSec
  {
    assert (calls + [call])[..|calls|] == calls;
    if calls != [] {
      assert Ordinary(calls);
      CounterIsLive(windowSec, calls);
    }
  }

  // ---- what is counted, by the clock alone ---------------------------------------------

  // Which call opened the window the last call falls into: windows follow one
  // another, each opened by the first call more than its length after the opener
  // of the one before.
  function OpenerOf(windowSec: int, calls: seq<Call>): (o: nat)
    requires calls != []
    ensures o < |calls|
  {
    var n := |calls| - 1;
    if n == 0 then 0
    else
      var o := OpenerOf(windowSec, calls[..n]);
      if calls[n].now - calls[o].now <= 1000 * windowSec then o else n
  }

  function Asked(calls: seq<Call>): int {
    if calls == [] then 0 else Asked(calls[..|calls| - 1]) + calls[|calls| - 1].cost
  }

  // A call is let through exactly when what its window has been asked for, itself
  // included, is within the limit; a refused call counts as much as any other.
  lemma {:induction false} LetThroughExactlyWhen(limit: int, windowSec: int, calls: seq<Call>)
    requires windowSec > 0 && calls != [] && Ordinary(calls)
    ensures var opener := OpenerOf(windowSec, calls);
      && After(windowSec, calls) == Some(Counter(Asked(calls[opener..]), calls[opener].now + 1000 * windowSec))
      && (AllowedAt(limit, windowSec, calls, |calls| - 1) <==> Asked(calls[opener..]) <= limit)
  {
    hide Asked, Ordinary;
    var n := |calls| - 1;
    assert calls[..n + 1] == calls;
    AskedOneMore(calls, OpenerOf(windowSec, calls));
    if n > 0 {
      OrdinaryBefore(calls);
      LetThroughExactlyWhen(limit, windowSec, calls[..n]);
      CounterIsLive(windowSec, calls[..n]);
    }
  }

  lemma AskedOneMore(calls: seq<Call>, o: nat)
    requires o < |calls|
    ensures var n := |calls| - 1;
      Asked(calls[o..]) == calls[n].cost + if o == n then 0 else Asked(calls[..n][o..])
  {
    var n := |calls| - 1;
    assert calls[o..][..n - o] == calls[..n][o..];
    assert o == n ==> calls[..n][o..] == [];
  }

  lemma OrdinaryBefore(calls: seq<Call>)
    requires Ordinary(calls) && calls != []
    ensures Ordinary(calls[..|calls| - 1])
  {
  }

  // ---- one window -------------------------------------------------------------------

  // What was let through since the current window began.
  function AllowedInWindow(limit: int, windowSec: int, calls: seq<Call>): int {
    if calls == [] then 0
    else
      var n := |calls| - 1;
      (if Live(After(windowSec, calls[..n]), calls[n].now).Some? then AllowedInWindow(limit, windowSec, calls[..n]) else 0)
      + if AllowedAt(limit, windowSec, calls, n) then calls[n].cost else 0
  }

  // In one window no more than the limit gets through, and no more than was asked.
  lemma {:induction false} WindowKeepsTheLimit(limit: int, windowSec: int, calls: seq<Call>)
    requires windowSec > 0 && Ordinary(calls)
    ensures 0 <= AllowedInWindow(limit, windowSec, calls) <= Max(limit, 0)
    ensures AllowedInWindow(limit, windowSec, calls) <= CountOf(After(windowSec, calls))
  {
    if calls != [] {
      assert calls[..|calls|] == calls;
      WindowKeepsTheLimit(limit, windowSec, calls[..|calls| - 1]);
    }
  }

  // Once a window has gone over the limit, nothing more gets through while it
  // lasts, and asking does not prolong it.
  lemma {:induction false} RefusalLastsTheWindow(limit: int, windowSec: int, calls: seq<Call>, i: nat, j: nat)
    requires windowSec > 0 && Ordinary(calls) && i <= j < |calls| && !AllowedAt(limit, windowSec, calls, i)
    requires calls[j].now <= After(windowSec, calls[..i + 1]).value.expireAt
    ensures !AllowedAt(limit, windowSec, calls, j)
    ensures After(windowSec, calls[..j + 1]).value.expireAt == After(windowSec, calls[..i + 1]).value.expireAt
    ensures CountOf(After(windowSec, calls[..j + 1])) >= CountOf(After(windowSec, calls[..i + 1]))
    decreases j - i
  {
    if i < j {
      RefusalLastsTheWindow(limit, windowSec, calls, i, j - 1);
      assert calls[..j + 1][..j] == calls[..j];
      CounterIsLive(windowSec, calls[..j]);
    }
  }

  // ---- any stretch as long as a window ------------------------------------------------

  // `sum` is what was let through since `from`, `c` the counter now.
  predicate Bounded(limit: int, windowSec: int, c: Option<Counter>, sum: int, from: int) {
    && sum >= 0
    && (c == None ==> sum == 0)
    && (sum > 0 ==> c.value.expireAt >= from)
    && (c.Some? ==>
      var count, began := c.value.count, c.value.expireAt - 1000 * windowSec;
      && count > 0
      // The window's first call came before `from`, so it is not in the sum.
      && (began < from ==> sum < count && (sum > 0 ==> sum < limit))
      && (began == from ==> sum <= count && (sum > 0 ==> sum <= limit))
      && (began > from ==> sum <= Max(limit - 1, 0) + Max(0, if count < limit then count else limit)))
  }

  lemma CallStaysBounded(limit: int, windowSec: int, c: Option<Counter>, sum: int, from: int, call: Call)
    requires windowSec > 0 && Bounded(limit, windowSec, c, sum, from)
    requires call.cost > 0 && call.now <= from + 1000 * windowSec
    requires c.Some? ==> c.value.expireAt - 1000 * windowSec <= call.now
    ensures var after := Consumed(c, windowSec, call.cost, call.now);
      Bounded(limit, windowSec, Some(after), sum + (if from <= call.now && after.count <= limit then call.cost else 0), from)
  {
  }

  lemma {:induction false} StretchIsBounded(limit: int, windowSec: int, calls: seq<Call>, from: int)
    requires windowSec > 0 && Ordinary(calls)
    requires forall i :: 0 <= i < |calls| ==> calls[i].now <= from + 1000 * windowSec
    ensures Bounded(limit, windowSec, After(windowSec, calls), AllowedBetween(limit, windowSec, calls, from, from + 1000 * windowSec), from)
  {
    if calls != [] {
      var n := |calls| - 1;
      StretchIsBounded(limit, windowSec, calls[..n], from);
      if n > 0 {
        CounterIsLive(windowSec, calls[..n]);
      }
      assert calls[..n + 1] == calls;
      CallStaysBounded(limit, windowSec, After(windowSec, calls[..n]),
                       AllowedBetween(limit, windowSec, calls[..n], from, from + 1000 * windowSec), from, calls[n]);
    }
  }

  // In any stretch of time as long as the window, wherever it starts, less than
  // twice the limit gets through.
  lemma {:induction false} LessThanTwiceTheLimit(limit: int, windowSec: int, calls: seq<Call>, from: int)
    requires windowSec > 0 && Ordinary(calls)
    ensures AllowedBetween(limit, windowSec, calls, from, from + 1000 * windowSec) <= Max(2 * limit - 1, 0)
  {
    var n := |calls| - 1;
    if n >= 0 && calls[n].now > from + 1000 * windowSec {
      LessThanTwiceTheLimit(limit, windowSec, calls[..n], from);
    } else {
      StretchIsBounded(limit, windowSec, calls, from);
    }
  }

  // And one less than twice is reached: the rest of one window at its last
  // moment, then a whole new one a millisecond later.
  lemma OneLessThanTwiceIsReached(limit: int, windowSec: int)
    requires windowSec > 0 && limit > 1
    ensures var w := 1000 * windowSec;
      var calls := [Call(1, 0), Call(limit - 1, w), Call(limit, w + 1)];
      Ordinary(calls) && AllowedBetween(limit, windowSec, calls, 1, 1 + w) == 2 * limit - 1
  {
    var w := 1000 * windowSec;
    var calls := [Call(1, 0), Call(limit - 1, w), Call(limit, w + 1)];
    assert calls[..1] == [calls[0]] && calls[..2] == [calls[0], calls[1]] && calls[..3] == calls;
    assert calls[..2][..1] == calls[..1] && calls[..1][..0] == [];
    assert After(windowSec, calls[..1]) == Some(Counter(1, w));
    assert After(windowSec, calls[..2]) == Some(Counter(limit, w));
    assert After(windowSec, calls) == Some(Counter(limit, 2 * w + 1));
    assert AllowedBetween(limit, windowSec, calls[..1], 1, 1 + w) == 0;
    assert AllowedAt(limit, windowSec, calls[..2], 1);
    assert AllowedBetween(limit, windowSec, calls[..2], 1, 1 + w) == limit - 1;
  }
}
