/** The server's fixed-window rate limiter, and how many calls it lets through in any interval. */
module RateLimiter {

  type Key = string

  datatype Bucket = Bucket(startedAt: int, count: nat)

  datatype Call = Call(key: Key, max: nat, now: int)

  type Buckets = map<Key, Bucket>

  // ----- one check -----

  function Retained(buckets: Buckets, window: nat, now: int): Buckets {
    map k | k in buckets && now - buckets[k].startedAt <= window :: buckets[k]
  }

  function BucketFor(buckets: Buckets, key: Key, window: nat, now: int): Bucket {
    var kept := Retained(buckets, window, now);
    if key in kept then kept[key] else Bucket(now, 0)
  }

  predicate Accepts(buckets: Buckets, call: Call, window: nat) {
    BucketFor(buckets, call.key, window, call.now).count < call.max
  }

  function After(buckets: Buckets, call: Call, window: nat): Buckets {
    var bucket := BucketFor(buckets, call.key, window, call.now);
    Retained(buckets, window, call.now)[call.key := if Accepts(buckets, call, window) then bucket.(count := bucket.count + 1) else bucket]
  }

  class RateLimiter {
    var buckets: Buckets

    constructor ()
      ensures buckets == map[]
    {
      buckets := map[];
    }

    /** `check`: prune, find or insert, and count. */
    method Check(key: Key, max: nat, window: nat, now: int) returns (ok: bool)
      modifies this
      ensures ok == Accepts(old(buckets), Call(key, max, now), window)
      ensures buckets == After(old(buckets), Call(key, max, now), window)
    {
      buckets := Retained(buckets, window, now);
      if key !in buckets {
        buckets := buckets[key := Bucket(now, 0)];
      }
      if now - buckets[key].startedAt > window {
        // the second reset: pruning has already removed every such bucket
        assert false;
      }
      if buckets[key].count >= max {
        return false;
      }
      buckets := buckets[key := buckets[key].(count := buckets[key].count + 1)];
      return true;
    }
  }

  // ----- runs -----

  /** A monotone clock, at or after `since`. */
  predicate IsOrdered(calls: seq<Call>, since: int) {
    calls == [] || (since <= calls[0].now && IsOrdered(calls[1..], calls[0].now))
  }

  predicate UsesMax(calls: seq<Call>, key: Key, max: nat) {
    forall call :: call in calls && call.key == key ==> call.max == max
  }

  predicate Counts(call: Call, key: Key, low: int, high: int) {
    call.key == key && low <= call.now <= high
  }

  /** How many calls for the key, made within the closed interval, a run accepts. */
  function Accepted(buckets: Buckets, calls: seq<Call>, window: nat, key: Key, low: int, high: int): nat
    decreases |calls|
  {
    if calls == [] then 0
    else
      (if Counts(calls[0], key, low, high) && Accepts(buckets, calls[0], window) then 1 else 0)
      + Accepted(After(buckets, calls[0], window), calls[1..], window, key, low, high)
  }

  /** The key's bucket, if any, was started by an accepted call and has not overflowed. */
  predicate IsReached(buckets: Buckets, key: Key, max: nat, since: int) {
    key in buckets ==> buckets[key].startedAt <= since && 1 <= buckets[key].count <= max
  }

  /** What is left to accept in an interval that has begun: a bucket from before it can be followed by one more. */
  function Budget(buckets: Buckets, key: Key, max: nat, low: int): int {
    if key !in buckets then max
    else if buckets[key].startedAt >= low then max - buckets[key].count
    else 2 * max - buckets[key].count
  }

  lemma ReachedStays(buckets: Buckets, call: Call, window: nat, key: Key, max: nat, since: int)
    requires max >= 1 && IsReached(buckets, key, max, since) && since <= call.now && (call.key == key ==> call.max == max)
    ensures IsReached(After(buckets, call, window), key, max, call.now)
  {
  }

  lemma BudgetIsSpent(buckets: Buckets, call: Call, window: nat, key: Key, max: nat, since: int, low: int, high: int)
    requires max >= 1 && IsReached(buckets, key, max, since) && since <= call.now && (call.key == key ==> call.max == max)
    requires low <= call.now <= high <= low + window
    ensures (if call.key == key && Accepts(buckets, call, window) then 1 else 0) + Budget(After(buckets, call, window), key, max, low)
            <= if low <= since then Budget(buckets, key, max, low) else 2 * max - 1
  {
  }

  lemma {:induction false} AcceptedWithinBudget(buckets: Buckets, calls: seq<Call>, window: nat, key: Key, max: nat, since: int,
                                                low: int, high: int)
    requires max >= 1 && IsReached(buckets, key, max, since) && IsOrdered(calls, since) && UsesMax(calls, key, max)
    requires high <= low + window
    ensures var n := Accepted(buckets, calls, window, key, low, high);
            && (since > high ==> n == 0)
            && (low <= since <= high ==> n <= Budget(buckets, key, max, low))
            && (since < low ==> n <= 2 * max - 1)
    decreases |calls|
  {
    if calls != [] {
      var call := calls[0];
      ReachedStays(buckets, call, window, key, max, since);
      AcceptedWithinBudget(After(buckets, call, window), calls[1..], window, key, max, call.now, low, high);
      if low <= call.now <= high {
        BudgetIsSpent(buckets, call, window, key, max, since, low, high);
      }
    }
  }

  /** Over any run of calls for any mix of keys, any closed interval no longer than the window contains fewer than
      twice the limit of accepted calls for a key. */
  lemma FewerThanTwiceTheLimit(calls: seq<Call>, window: nat, key: Key, max: nat, since: int, low: int, high: int)
    requires IsOrdered(calls, since) && UsesMax(calls, key, max) && high <= low + window
    ensures Accepted(map[], calls, window, key, low, high) <= if max == 0 then 0 else 2 * max - 1
  {
    if max == 0 {
      NothingAccepted(map[], calls, window, key, low, high);
    } else {
      AcceptedWithinBudget(map[], calls, window, key, max, since, low, high);
    }
  }

  lemma {:induction false} NothingAccepted(buckets: Buckets, calls: seq<Call>, window: nat, key: Key, low: int, high: int)
    requires UsesMax(calls, key, 0)
    ensures Accepted(buckets, calls, window, key, low, high) == 0
    decreases |calls|
  {
    if calls != [] {
      NothingAccepted(After(buckets, calls[0], window), calls[1..], window, key, low, high);
    }
  }

  // ----- the bound is reached -----

  function Repeat(call: Call, n: nat): seq<Call> {
    seq(n, _ => call)
  }

  /** The buckets after n accepted repeats of a call. */
  function Filled(buckets: Buckets, call: Call, n: nat, window: nat): Buckets {
    var bucket := BucketFor(buckets, call.key, window, call.now);
    Retained(buckets, window, call.now)[call.key := bucket.(count := bucket.count + n)]
  }

  lemma FilledSteps(buckets: Buckets, call: Call, n: nat, window: nat)
    requires n > 0 && Accepts(buckets, call, window)
    ensures BucketFor(After(buckets, call, window), call.key, window, call.now).count
            == BucketFor(buckets, call.key, window, call.now).count + 1
    ensures Filled(After(buckets, call, window), call, n - 1, window) == Filled(buckets, call, n, window)
  {
    var next := After(buckets, call, window);
    assert Retained(next, window, call.now) == next;
  }

  lemma {:induction false} RepeatsAreAccepted(buckets: Buckets, call: Call, n: nat, rest: seq<Call>, window: nat, low: int, high: int)
    requires n > 0 && BucketFor(buckets, call.key, window, call.now).count + n <= call.max && low <= call.now <= high
    ensures Accepted(buckets, Repeat(call, n) + rest, window, call.key, low, high)
            == n + Accepted(Filled(buckets, call, n, window), rest, window, call.key, low, high)
    decreases n
  {
    assert (Repeat(call, n) + rest)[1..] == Repeat(call, n - 1) + rest;
    FilledSteps(buckets, call, n, window);
    if n == 1 {
      assert Repeat(call, 0) + rest == rest;
      assert Filled(buckets, call, 1, window) == After(buckets, call, window);
    } else {
      RepeatsAreAccepted(After(buckets, call, window), call, n - 1, rest, window, low, high);
    }
  }

  lemma {:induction false} RepeatsAreOrdered(call: Call, n: nat, rest: seq<Call>, since: int)
    requires since <= call.now && IsOrdered(rest, call.now)
    ensures IsOrdered(Repeat(call, n) + rest, since)
    decreases n
  {
    if n == 0 {
      assert Repeat(call, n) + rest == rest;
    } else {
      assert (Repeat(call, n) + rest)[1..] == Repeat(call, n - 1) + rest;
      RepeatsAreOrdered(call, n - 1, rest, call.now);
    }
  }

  /** For every limit and window some run fills an interval of that length with one call fewer than twice the limit. */
  lemma TheBoundIsReached(key: Key, max: nat, window: nat) returns (calls: seq<Call>)
    requires max >= 2 && window >= 1
    ensures IsOrdered(calls, 0) && UsesMax(calls, key, max)
    ensures Accepted(map[], calls, window, key, window, 2 * window) == 2 * max - 1
  {
    var opener, closer, burst := Call(key, max, 0), Call(key, max, window), Call(key, max, window + 1);
    var tail := Repeat(burst, max) + [];
    var middle := Repeat(closer, max - 1) + tail;
    calls := [opener] + middle;
    assert calls[1..] == middle;
    RepeatsAreOrdered(burst, max, [], window);
    RepeatsAreOrdered(closer, max - 1, tail, 0);
    var started := After(map[], opener, window);
    assert started[key] == Bucket(0, 1);
    RepeatsAreAccepted(started, closer, max - 1, tail, window, window, 2 * window);
    var filled := Filled(started, closer, max - 1, window);
    RepeatsAreAccepted(filled, burst, max, [], window, window, 2 * window);
  }

  // ----- when the limit is exceeded -----

  /** The key's bucket still counts at this time. */
  predicate IsLive(buckets: Buckets, key: Key, window: nat, now: int) {
    key in buckets && now - buckets[key].startedAt <= window
  }

  /** How many calls can be accepted from now until the end of an interval: a bucket that expires within it is followed by
      another. */
  function Room(buckets: Buckets, key: Key, max: nat, window: nat, now: int, high: int): int {
    if !IsLive(buckets, key, window, now) then max
    else if buckets[key].startedAt + window >= high then max - buckets[key].count
    else 2 * max - buckets[key].count
  }

  lemma RoomIsSpent(buckets: Buckets, call: Call, window: nat, key: Key, max: nat, since: int, high: int)
    requires max >= 1 && IsReached(buckets, key, max, since) && since <= call.now && (call.key == key ==> call.max == max)
    requires call.now <= high <= since + window
    ensures (if call.key == key && Accepts(buckets, call, window) then 1 else 0)
            + Room(After(buckets, call, window), key, max, window, call.now, high)
            <= Room(buckets, key, max, window, since, high)
  {
  }

  lemma {:induction false} AtMostRoom(buckets: Buckets, calls: seq<Call>, window: nat, key: Key, max: nat, since: int, low: int,
                                      high: int)
    requires max >= 1 && IsReached(buckets, key, max, since) && IsOrdered(calls, since) && UsesMax(calls, key, max)
    requires low <= since <= high <= low + window
    ensures Accepted(buckets, calls, window, key, low, high) <= Room(buckets, key, max, window, since, high)
    decreases |calls|
  {
    if calls != [] {
      var call := calls[0];
      ReachedStays(buckets, call, window, key, max, since);
      if call.now <= high {
        RoomIsSpent(buckets, call, window, key, max, since, high);
        AtMostRoom(After(buckets, call, window), calls[1..], window, key, max, call.now, low, high);
      } else {
        AcceptedWithinBudget(After(buckets, call, window), calls[1..], window, key, max, call.now, low, high);
      }
    }
  }

  /** A fresh bucket is filled at one moment. */
  lemma BurstIsAccepted(buckets: Buckets, key: Key, max: nat, window: nat, now: int, low: int, high: int) returns (calls: seq<Call>)
    requires max >= 1 && !IsLive(buckets, key, window, now) && low <= now <= high
    ensures IsOrdered(calls, now) && UsesMax(calls, key, max) && Accepted(buckets, calls, window, key, low, high) == max
  {
    var burst := Call(key, max, now);
    calls := Repeat(burst, max) + [];
    RepeatsAreAccepted(buckets, burst, max, [], window, low, high);
    RepeatsAreOrdered(burst, max, [], now);
  }

  /** The room in an interval that begins now can be used up. */
  lemma RoomIsReached(buckets: Buckets, key: Key, max: nat, window: nat, low: int, high: int) returns (calls: seq<Call>)
    requires max >= 1 && IsReached(buckets, key, max, low) && low <= high <= low + window
    ensures IsOrdered(calls, low) && UsesMax(calls, key, max)
    ensures Accepted(buckets, calls, window, key, low, high) == Room(buckets, key, max, window, low, high)
  {
    if !IsLive(buckets, key, window, low) {
      calls := BurstIsAccepted(buckets, key, max, window, low, low, high);
    } else {
      var opener := Call(key, max, low);
      var left := max - buckets[key].count;
      var filled := if left == 0 then buckets else Filled(buckets, opener, left, window);
      var tail := [];
      if buckets[key].startedAt + window < high {
        var later := buckets[key].startedAt + window + 1;
        tail := BurstIsAccepted(filled, key, max, window, later, low, high);
        OrderedFrom(tail, later, low);
      }
      calls := Repeat(opener, left) + tail;
      RepeatsAreOrdered(opener, left, tail, low);
      if left == 0 {
        assert calls == tail;
      } else {
        RepeatsAreAccepted(buckets, opener, left, tail, window, low, high);
      }
    }
  }

  lemma OrderedFrom(calls: seq<Call>, since: int, earlier: int)
    requires IsOrdered(calls, since) && earlier <= since
    ensures IsOrdered(calls, earlier)
  {
  }

  /** Some calls in the interval get more than the limit accepted. */
  ghost predicate CanExceed(buckets: Buckets, key: Key, max: nat, window: nat, low: int, high: int) {
    exists calls :: IsOrdered(calls, low) && UsesMax(calls, key, max) && Accepted(buckets, calls, window, key, low, high) > max
  }

  /** More than the limit can be accepted in an interval no longer than the window if and only if the key has a bucket that
      begins before the interval, expires within it, and is not full. */
  lemma LimitIsExceededExactly(buckets: Buckets, key: Key, max: nat, window: nat, low: int, high: int)
    requires max >= 1 && IsReached(buckets, key, max, low) && low <= high <= low + window
    ensures CanExceed(buckets, key, max, window, low, high) <==>
              key in buckets && low <= buckets[key].startedAt + window < high && buckets[key].count < max
  {
    if CanExceed(buckets, key, max, window, low, high) {
      var calls :| IsOrdered(calls, low) && UsesMax(calls, key, max) && Accepted(buckets, calls, window, key, low, high) > max;
      AtMostRoom(buckets, calls, window, key, max, low, low, high);
    }
    var most := RoomIsReached(buckets, key, max, window, low, high);
  }
}
