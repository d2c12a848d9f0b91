// The sliding-window limiter (plnt/server/playground.py, RateLimiter).
module RateLimiter {
  import opened Basics

  type Key = (string, string)

  datatype Rule = Rule(limit: int, window: real)

  // How many of the times lie in the closed interval from `a` to `b`.
  function CountIn(times: seq<real>, a: real, b: real): nat {
    if times == [] then 0
    else CountIn(times[..|times| - 1], a, b) + if a <= times[|times| - 1] <= b then 1 else 0
  }

  ghost predicate Sorted(times: seq<real>) {
    forall i, j :: 0 <= i < j < |times| ==> times[i] <= times[j]
  }

  // Any `limit` + 1 accepted hits in a row take longer than the window.
  ghost predicate Spaced(times: seq<real>, rule: Rule) {
    forall i, j :: 0 <= i < j < |times| && j - i == rule.limit ==> times[j] - times[i] > rule.window
  }

  // How much of a sorted sequence lies below `a`.
  function Below(times: seq<real>, a: real): (n: nat)
    requires Sorted(times)
    ensures n <= |times|
    ensures forall i :: 0 <= i < n ==> times[i] < a
    ensures forall i :: n <= i < |times| ==> times[i] >= a
  {
    if times == [] then 0
    else if times[0] >= a then 0
    else 1 + Below(times[1..], a)
  }

  lemma {:induction false} CountBetween(times: seq<real>, a: real, b: real, lo: nat, hi: nat)
    requires lo <= hi
    requires forall i :: 0 <= i < |times| && a <= times[i] <= b ==> lo <= i < hi
    ensures CountIn(times, a, b) <= hi - lo
    ensures |times| <= lo ==> CountIn(times, a, b) == 0
    ensures lo <= |times| ==> CountIn(times, a, b) <= |times| - lo
    decreases |times|
  {
    if times != [] {
      var n := |times| - 1;
      if n < hi {
        CountBetween(times[..n], a, b, lo, hi);
      } else {
        CountBetween(times[..n], a, b, lo, hi);
      }
    }
  }

  // Every closed interval as long as the window holds at most `limit` accepted hits.
  lemma WindowHoldsAtMostLimit(times: seq<real>, rule: Rule, a: real)
    requires Sorted(times) && Spaced(times, rule) && (rule.limit <= 0 ==> times == [])
    ensures rule.limit >= 0 ==> CountIn(times, a, a + rule.window) <= rule.limit
    ensures rule.limit < 0 ==> CountIn(times, a, a + rule.window) == 0
  {
    if rule.limit > 0 {
      var lo := Below(times, a);
      if lo + rule.limit < |times| {
        assert times[lo + rule.limit] - times[lo] > rule.window;
      }
      CountBetween(times, a, a + rule.window, lo, lo + rule.limit);
    }
  }

  // The queue for a key is what is left of the hits it accepted; those dropped
  // are older than the window.
  ghost predicate QueueOf(queue: seq<real>, accepted: seq<real>, rule: Rule, now: real) {
    && |queue| <= |accepted|
    && queue == accepted[|accepted| - |queue|..]
    && Sorted(accepted) && Spaced(accepted, rule)
    && (rule.limit <= 0 ==> accepted == [])
    && (forall i :: 0 <= i < |accepted| ==> accepted[i] <= now)
    && (forall i :: 0 <= i < |accepted| - |queue| ==> now - accepted[i] > rule.window)
  }

  lemma AcceptKeeps(queue: seq<real>, accepted: seq<real>, rule: Rule, now: real)
    requires QueueOf(queue, accepted, rule, now) && |queue| < rule.limit
    ensures QueueOf(queue + [now], accepted + [now], rule, now)
  {
    var more := accepted + [now];
    forall i, j | 0 <= i < j < |more| && j - i == rule.limit
      ensures more[j] - more[i] > rule.window
    {
      if j == |accepted| {
        assert i < |accepted| - |queue|;
      } else {
        assert accepted[j] - accepted[i] > rule.window;
      }
    }
  }

  lemma QueueLater(queue: seq<real>, accepted: seq<real>, rule: Rule, now: real, later: real)
    requires QueueOf(queue, accepted, rule, now) && now <= later
    ensures QueueOf(queue, accepted, rule, later)
  {
  }

  lemma KeptAreRecent(queue: seq<real>, accepted: seq<real>, rule: Rule, now: real)
    requires QueueOf(queue, accepted, rule, now) && (queue == [] || now - queue[0] <= rule.window)
    ensures forall i :: 0 <= i < |queue| ==> now - queue[i] <= rule.window
  {
    forall i | 0 <= i < |queue|
      ensures queue[0] <= queue[i]
    {
      var n := |accepted| - |queue|;
      assert queue[0] == accepted[n] && queue[i] == accepted[n + i];
    }
  }

  lemma {:induction false} CountFrom(times: seq<real>, n: nat, a: real, b: real)
    requires n <= |times| && (forall i :: 0 <= i < n ==> times[i] < a) && forall i :: n <= i < |times| ==> a <= times[i] <= b
    ensures CountIn(times, a, b) == |times| - n
  {
    if times != [] {
      var m := |times| - 1;
      CountFrom(times[..m], if n <= m then n else m, a, b);
    }
  }

  // What the pruned queue holds is exactly what was accepted within the window.
  lemma WithinIsQueue(queue: seq<real>, accepted: seq<real>, rule: Rule, now: real)
    requires QueueOf(queue, accepted, rule, now)
    requires forall i :: 0 <= i < |queue| ==> now - queue[i] <= rule.window
    ensures CountIn(accepted, now - rule.window, now) == |queue|
  {
    var n := |accepted| - |queue|;
    forall i | n <= i < |accepted|
      ensures now - rule.window <= accepted[i] <= now
    {
      assert queue[i - n] == accepted[i];
    }
    CountFrom(accepted, n, now - rule.window, now);
  }

  // What is left of a queue when its oldest hits, out of the window, are dropped.
  function Pruned(queue: seq<real>, window: real, time: real): seq<real> {
    if queue != [] && time - queue[0] > window then Pruned(queue[1..], window, time) else queue
  }

  lemma {:induction false} PrunedIsQueue(queue: seq<real>, accepted: seq<real>, rule: Rule, time: real)
    requires QueueOf(queue, accepted, rule, time)
    ensures var q := Pruned(queue, rule.window, time);
      QueueOf(q, accepted, rule, time) && |q| == CountIn(accepted, time - rule.window, time)
  {
    if queue != [] && time - queue[0] > rule.window {
      QueueDrops(queue, accepted, rule, time);
      PrunedIsQueue(queue[1..], accepted, rule, time);
    } else {
      KeptAreRecent(queue, accepted, rule, time);
      WithinIsQueue(queue, accepted, rule, time);
    }
  }

  lemma QueueDrops(queue: seq<real>, accepted: seq<real>, rule: Rule, time: real)
    requires QueueOf(queue, accepted, rule, time) && queue != [] && time - queue[0] > rule.window
    ensures QueueOf(queue[1..], accepted, rule, time)
  {
    var n := |accepted| - |queue|;
    assert queue[0] == accepted[n];
    assert accepted[n..][1..] == accepted[n + 1..];
  }

  lemma PrunedCounts(queue: seq<real>, accepted: seq<real>, rule: Rule, time: real)
    requires QueueOf(queue, accepted, rule, time)
    ensures |Pruned(queue, rule.window, time)| == CountIn(accepted, time - rule.window, time)
  {
    PrunedIsQueue(queue, accepted, rule, time);
  }

  function Admit(q: seq<real>, rule: Rule, time: real): seq<real> {
    if |q| < rule.limit then q + [time] else q
  }

  function Note(accepted: seq<real>, q: seq<real>, rule: Rule, time: real): seq<real> {
    if |q| < rule.limit then accepted + [time] else accepted
  }

  // One decision for a key with one rule.
  lemma Judged(queue: seq<real>, accepted: seq<real>, rule: Rule, time: real)
    requires QueueOf(queue, accepted, rule, time)
    ensures var q := Pruned(queue, rule.window, time); QueueOf(Admit(q, rule, time), Note(accepted, q, rule, time), rule, time)
  {
    PrunedIsQueue(queue, accepted, rule, time);
    var q := Pruned(queue, rule.window, time);
    if |q| < rule.limit {
      AcceptKeeps(q, accepted, rule, time);
    }
  }

  // ------------------------------------------------------------ any sequence of calls

  // allow(key, bucket, limit, window_s), at some reading of the clock.
  datatype Call = Call(key: Key, rule: Rule, time: real)

  // The queue of a key after these calls.
  function Queue(calls: seq<Call>, k: Key): seq<real> {
    if calls == [] then []
    else
      var before, c := Queue(calls[..|calls| - 1], k), calls[|calls| - 1];
      if c.key == k then Admit(Pruned(before, c.rule.window, c.time), c.rule, c.time) else before
  }

  // Whether a call is let through, after these calls.
  predicate LetsIn(calls: seq<Call>, c: Call) {
    |Pruned(Queue(calls, c.key), c.rule.window, c.time)| < c.rule.limit
  }

  // The hits of a key that were let through.
  function Accepted(calls: seq<Call>, k: Key): seq<real> {
    if calls == [] then []
    else
      var front, c := calls[..|calls| - 1], calls[|calls| - 1];
      if c.key == k then Note(Accepted(front, k), Pruned(Queue(front, k), c.rule.window, c.time), c.rule, c.time) else Accepted(front, k)
  }

  // What counts against a key are exactly its calls that were let through.
  lemma AcceptedSnoc(calls: seq<Call>, c: Call, k: Key)
    ensures Accepted(calls + [c], k) == Accepted(calls, k) + if c.key == k && LetsIn(calls, c) then [c.time] else []
  {
    assert (calls + [c])[..|calls|] == calls;
    AddNothing(Accepted(calls, k));
  }

  // The clock does not go back, and the key always has one rule.
  ghost predicate Steady(calls: seq<Call>, k: Key, rule: Rule) {
    calls != [] ==>
      var front, c := calls[..|calls| - 1], calls[|calls| - 1];
      && Steady(front, k, rule)
      && Before(front, c.time)
      && (c.key == k ==> c.rule == rule)
  }

  ghost predicate Before(calls: seq<Call>, time: real) {
    calls != [] ==> calls[|calls| - 1].time <= time
  }

  lemma QueueEmpty(rule: Rule, now: real)
    ensures QueueOf([], [], rule, now)
  {
  }

  lemma {:induction false} QueueHolds(calls: seq<Call>, k: Key, rule: Rule, time: real)
    requires Steady(calls, k, rule) && Before(calls, time)
    ensures QueueOf(Queue(calls, k), Accepted(calls, k), rule, time)
  {
    if calls == [] {
      QueueEmpty(rule, time);
    } else {
      var front, c := calls[..|calls| - 1], calls[|calls| - 1];
      QueueHolds(front, k, rule, c.time);
      if c.key == k {
        Judged(Queue(front, k), Accepted(front, k), rule, c.time);
      }
      QueueLater(Queue(calls, k), Accepted(calls, k), rule, c.time, time);
    }
  }

  lemma QueueCounts(calls: seq<Call>, k: Key, rule: Rule, time: real)
    requires Steady(calls, k, rule) && Before(calls, time)
    ensures |Pruned(Queue(calls, k), rule.window, time)| == CountIn(Accepted(calls, k), time - rule.window, time)
  {
    QueueHolds(calls, k, rule, time);
    PrunedCounts(Queue(calls, k), Accepted(calls, k), rule, time);
  }

  // A call is let through exactly unless the window that ends with it already
  // holds the limit.
  lemma LetsInIff(calls: seq<Call>, c: Call)
    requires Steady(calls, c.key, c.rule) && Before(calls, c.time)
    ensures LetsIn(calls, c) <==> CountIn(Accepted(calls, c.key), c.time - c.rule.window, c.time) < c.rule.limit
  {
    QueueCounts(calls, c.key, c.rule, c.time);
  }

  // And no closed interval as long as the window ever holds more than the limit.
  lemma NeverTooMany(calls: seq<Call>, k: Key, rule: Rule, a: real)
    requires Steady(calls, k, rule) && rule.limit >= 0
    ensures CountIn(Accepted(calls, k), a, a + rule.window) <= rule.limit
  {
    QueueHolds(calls, k, rule, if calls == [] then 0.0 else calls[|calls| - 1].time);
    WindowHoldsAtMostLimit(Accepted(calls, k), rule, a);
  }

  // ------------------------------------------------------------ the limiter

  function Get(m: map<Key, seq<real>>, k: Key): seq<real> {
    if k in m then m[k] else []
  }

  class Limiter {
    var hits: map<Key, seq<real>>
    ghost var calls: seq<Call>

    ghost predicate Valid()
      reads this
    {
      forall k :: Get(hits, k) == Queue(calls, k)
    }

    constructor ()
      ensures Valid() && calls == []
    {
      hits, calls := map[], [];
    }

    // Drops what is older than the window.
    method Prune(queue: seq<real>, window: real, time: real) returns (q: seq<real>)
      ensures q == Pruned(queue, window, time)
    {
      q := queue;
      while q != [] && time - q[0] > window
        invariant Pruned(q, window, time) == Pruned(queue, window, time)
        decreases |q|
      {
        q := q[1..];
      }
    }

    method Allow(key: string, bucket: string, limit: int, window: real, time: real) returns (allowed: bool)
      requires Valid()
      modifies this
      ensures Valid() && calls == old(calls) + [Call((key, bucket), Rule(limit, window), time)]
      ensures allowed <==> LetsIn(old(calls), Call((key, bucket), Rule(limit, window), time))
    {
      var k := (key, bucket);
      var q := Prune(Get(hits, k), window, time);
      allowed := |q| < limit;
      if allowed {
        q := q + [time];
      }
      ghost var c := Call(k, Rule(limit, window), time);
      assert (calls + [c])[..|calls|] == calls;
      hits, calls := hits[k := q], calls + [c];
    }
  }
}
