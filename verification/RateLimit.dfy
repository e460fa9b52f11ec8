/** The per-connection rate limits of state.ts. */
module RateLimit {

  const WINDOW_MS := 10000
  const MAX_MSGS := 1200
  const STATE_HZ := 20.0

  /** A fixed-window bucket: it restarts when a message comes more than a window after its start. */
  datatype Bucket = Bucket(start: int, count: nat)

  function Receive(b: Bucket, now: int): Bucket {
    if now - b.start > WINDOW_MS then Bucket(now, 1) else Bucket(b.start, b.count + 1)
  }

  /** The times of the messages that are let through, of messages arriving at `times`. */
  function Admitted(b: Bucket, times: seq<int>): seq<int>
    decreases |times|
  {
    if |times| == 0 then []
    else
      var b' := Receive(b, times[0]);
      (if b'.count <= MAX_MSGS then [times[0]] else []) + Admitted(b', times[1..])
  }

  function CountWithin(times: seq<int>, lo: int, hi: int): nat {
    if |times| == 0 then 0 else (if lo <= times[0] <= hi then 1 else 0) + CountWithin(times[1..], lo, hi)
  }

  ghost predicate InOrder(times: seq<int>) {
    forall i, j :: 0 <= i <= j < |times| ==> times[i] <= times[j]
  }

  /** How many more messages the current bucket lets through. */
  function Left(b: Bucket): nat {
    if b.count < MAX_MSGS then MAX_MSGS - b.count else 0
  }

  lemma CountCons(t: int, ts: seq<int>, lo: int, hi: int)
    ensures CountWithin([t] + ts, lo, hi) == (if lo <= t <= hi then 1 else 0) + CountWithin(ts, lo, hi)
  {}

  lemma AdmittedCount(b: Bucket, times: seq<int>, lo: int, hi: int)
    requires |times| > 0
    ensures CountWithin(Admitted(b, times), lo, hi)
            == (if lo <= times[0] <= hi && Receive(b, times[0]).count <= MAX_MSGS then 1 else 0)
               + CountWithin(Admitted(Receive(b, times[0]), times[1..]), lo, hi)
  {
    var rest := Admitted(Receive(b, times[0]), times[1..]);
    CountCons(times[0], rest, lo, hi);
    assert [] + rest == rest;
  }

  lemma {:induction false} NoneAfter(b: Bucket, times: seq<int>, lo: int, hi: int)
    requires InOrder(times) && (|times| > 0 ==> times[0] > hi)
    ensures CountWithin(Admitted(b, times), lo, hi) == 0
    decreases |times|
  {
    if |times| > 0 {
      AdmittedCount(b, times, lo, hi);
      NoneAfter(Receive(b, times[0]), times[1..], lo, hi);
    }
  }

  /** Up to the end of the current bucket, only what is left of it is let through. */
  lemma {:induction false} WithinBucket(b: Bucket, times: seq<int>, lo: int, hi: int)
    requires InOrder(times) && hi <= b.start + WINDOW_MS
    ensures CountWithin(Admitted(b, times), lo, hi) <= Left(b)
    decreases |times|
  {
    if |times| > 0 {
      AdmittedCount(b, times, lo, hi);
      if times[0] > hi {
        NoneAfter(Receive(b, times[0]), times[1..], lo, hi);
      } else {
        WithinBucket(Receive(b, times[0]), times[1..], lo, hi);
      }
    }
  }

  /** Up to a window later there is room for at most one more bucket. */
  lemma {:induction false} WithinTwoBuckets(b: Bucket, times: seq<int>, lo: int, hi: int)
    requires InOrder(times) && hi <= b.start + 2 * WINDOW_MS
    ensures CountWithin(Admitted(b, times), lo, hi) <= Left(b) + MAX_MSGS
    decreases |times|
  {
    if |times| > 0 {
      AdmittedCount(b, times, lo, hi);
      var b' := Receive(b, times[0]);
      if times[0] > hi {
        NoneAfter(b', times[1..], lo, hi);
      } else if times[0] - b.start > WINDOW_MS {
        WithinBucket(b', times[1..], lo, hi);
      } else {
        WithinTwoBuckets(b', times[1..], lo, hi);
      }
    }
  }

  /** Any closed interval as long as the window contains at most 2 * maxMsgs messages that are let through. */
  lemma {:induction false} RateLimitBound(b: Bucket, times: seq<int>, from: int)
    requires InOrder(times)
    ensures CountWithin(Admitted(b, times), from, from + WINDOW_MS) <= 2 * MAX_MSGS
    decreases |times|
  {
    if |times| > 0 {
      var b' := Receive(b, times[0]);
      AdmittedCount(b, times, from, from + WINDOW_MS);
      if times[0] < from {
        RateLimitBound(b', times[1..], from);
      } else if times[0] - b.start > WINDOW_MS {
        WithinBucket(b', times[1..], from, from + WINDOW_MS);
      } else {
        WithinTwoBuckets(b, times, from, from + WINDOW_MS);
      }
    }
  }

  // --- the bound is attained ---

  function Repeat(t: int, n: nat): (r: seq<int>)
    ensures |r| == n && forall i :: 0 <= i < n ==> r[i] == t
  {
    seq(n, _ => t)
  }

  lemma {:induction false} BurstIsAdmitted(b: Bucket, t: int, n: nat, rest: seq<int>)
    requires t - b.start <= WINDOW_MS && b.count + n <= MAX_MSGS
    ensures Admitted(b, Repeat(t, n) + rest) == Repeat(t, n) + Admitted(Bucket(b.start, b.count + n), rest)
    decreases n
  {
    if n == 0 {
      assert Repeat(t, n) + rest == rest;
    } else {
      assert (Repeat(t, n) + rest)[1..] == Repeat(t, n - 1) + rest;
      BurstIsAdmitted(Bucket(b.start, b.count + 1), t, n - 1, rest);
      assert [t] + (Repeat(t, n - 1) + Admitted(Bucket(b.start, b.count + n), rest))
             == Repeat(t, n) + Admitted(Bucket(b.start, b.count + n), rest);
    }
  }

  lemma {:induction false} CountRepeat(t: int, n: nat, rest: seq<int>, lo: int, hi: int)
    requires lo <= t <= hi
    ensures CountWithin(Repeat(t, n) + rest, lo, hi) == n + CountWithin(rest, lo, hi)
    decreases n
  {
    if n == 0 {
      assert Repeat(t, n) + rest == rest;
    } else {
      assert (Repeat(t, n) + rest)[1..] == Repeat(t, n - 1) + rest;
      CountRepeat(t, n - 1, rest, lo, hi);
    }
  }

  /** The bound is sharp: twice maxMsgs messages pass within one millisecond around the end of a bucket. */
  lemma RateLimitIsSharp(start: int)
    ensures var t := start + WINDOW_MS;
            var times := Repeat(t, MAX_MSGS) + (Repeat(t + 1, MAX_MSGS) + []);
            && InOrder(times)
            && CountWithin(Admitted(Bucket(start, 0), times), t, t + 1) == 2 * MAX_MSGS
  {
    var t := start + WINDOW_MS;
    var second := Repeat(t + 1, MAX_MSGS) + [];
    BurstIsAdmitted(Bucket(start, 0), t, MAX_MSGS, second);
    var tail := Repeat(t + 1, MAX_MSGS - 1) + [];
    assert second[1..] == tail;
    BurstIsAdmitted(Bucket(t + 1, 1), t + 1, MAX_MSGS - 1, []);
    assert Admitted(Bucket(start, MAX_MSGS), second) == [t + 1] + (Repeat(t + 1, MAX_MSGS - 1) + []);
    assert [t + 1] + (Repeat(t + 1, MAX_MSGS - 1) + []) == second;
    CountRepeat(t + 1, MAX_MSGS, [], t, t + 1);
    CountRepeat(t, MAX_MSGS, second, t, t + 1);
  }

  // --- whoever keeps below the limit is let through ---

  function BucketAfter(b: Bucket, times: seq<int>): Bucket {
    if |times| == 0 then b else Receive(BucketAfter(b, times[..|times| - 1]), times[|times| - 1])
  }

  lemma {:induction false} CountOn(times: seq<int>, t: int, lo: int, hi: int)
    ensures CountWithin(times + [t], lo, hi) == CountWithin(times, lo, hi) + (if lo <= t <= hi then 1 else 0)
    decreases |times|
  {
    if |times| == 0 {
      assert times + [t] == [t];
    } else {
      assert (times + [t])[1..] == times[1..] + [t];
      CountOn(times[1..], t, lo, hi);
    }
  }

  lemma {:induction false} CountShrinks(times: seq<int>, lo: int, lo': int, hi: int)
    requires lo <= lo'
    ensures CountWithin(times, lo', hi) <= CountWithin(times, lo, hi)
    decreases |times|
  {
    if |times| > 0 { CountShrinks(times[1..], lo, lo', hi); }
  }

  /** The bucket counts only messages that came since it started. */
  lemma {:induction false} BucketCounts(start: int, times: seq<int>, hi: int)
    requires InOrder(times) && forall i :: 0 <= i < |times| ==> start <= times[i] <= hi
    ensures var b := BucketAfter(Bucket(start, 0), times); b.count <= CountWithin(times, b.start, hi)
    decreases |times|
  {
    if |times| > 0 {
      var last := |times| - 1;
      var front, t := times[..last], times[last];
      var b := BucketAfter(Bucket(start, 0), front);
      BucketCounts(start, front, hi);
      BucketStarts(start, front, t);
      assert times == front + [t];
      CountOn(front, t, b.start, hi);
      CountOn(front, t, t, hi);
    }
  }

  lemma {:induction false} BucketStarts(start: int, times: seq<int>, t: int)
    requires start <= t && forall i :: 0 <= i < |times| ==> times[i] <= t
    ensures BucketAfter(Bucket(start, 0), times).start <= t
    decreases |times|
  {
    if |times| > 0 { BucketStarts(start, times[..|times| - 1], t); }
  }

  /** A message is let through if fewer than 1200 messages came in the 10 s before it, refused ones included. */
  lemma RateLimitAdmits(start: int, times: seq<int>, now: int)
    requires InOrder(times) && start <= now && forall i :: 0 <= i < |times| ==> start <= times[i] <= now
    requires CountWithin(times, now - 10000, now) < 1200
    ensures Admitted(BucketAfter(Bucket(start, 0), times), [now]) == [now]
  {
    var b := BucketAfter(Bucket(start, 0), times);
    BucketCounts(start, times, now);
    if now - b.start <= WINDOW_MS { CountShrinks(times, now - 10000, b.start, now); }
  }

  // --- state messages ---

  predicate TooSoon(last: int, now: int) {
    (now - last) as real < 1000.0 / STATE_HZ * 0.75
  }

  /** The times of the state messages that are handled. */
  function Handled(last: int, times: seq<int>): (r: seq<int>)
    ensures |r| <= |times|
    decreases |times|
  {
    if |times| == 0 then []
    else if TooSoon(last, times[0]) then Handled(last, times[1..])
    else [times[0]] + Handled(times[0], times[1..])
  }

  /** A state message is handled exactly if the last one handled is at least 38 ms old. */
  lemma StateGateIsExact(last: int, now: int)
    ensures Handled(last, [now]) == (if now - last >= 38 then [now] else [])
  {}

  /** Any n state messages handled in a row span at least 37.5 (n - 1) ms; on a millisecond clock even 38 (n - 1). */
  lemma {:induction false} StateFrequencyBound(last: int, times: seq<int>, i: nat, j: nat)
    requires i <= j < |Handled(last, times)|
    ensures var r := Handled(last, times);
            r[j] - r[i] >= 38 * (j - i) && (r[j] - r[i]) as real >= 37.5 * (j - i) as real
    decreases |times|
  {
    var r := Handled(last, times);
    if TooSoon(last, times[0]) {
      StateFrequencyBound(last, times[1..], i, j);
    } else if i > 0 {
      StateFrequencyBound(times[0], times[1..], i - 1, j - 1);
    } else if j > 0 {
      HandledPrefixSpan(times[0], times[1..], j - 1);
    }
  }

  lemma {:induction false} HandledPrefixSpan(last: int, times: seq<int>, j: nat)
    requires j < |Handled(last, times)|
    ensures Handled(last, times)[j] - last >= 38 * (j + 1)
    decreases |times|
  {
    if TooSoon(last, times[0]) {
      HandledPrefixSpan(last, times[1..], j);
    } else if j > 0 {
      HandledPrefixSpan(times[0], times[1..], j - 1);
    }
  }

  /** The rate-limiting fields of a WSClient. */
  class RateGate {
    var bucketStart: int
    var bucketCount: nat
    var lastStateAt: int

    constructor (now: int)
      ensures bucketStart == now && bucketCount == 0 && lastStateAt == 0
    {
      bucketStart, bucketCount, lastStateAt := now, 0, 0;
    }

    method RateLimitOk(now: int) returns (ok: bool)
      modifies this`bucketStart, this`bucketCount
      ensures Bucket(bucketStart, bucketCount) == Receive(Bucket(old(bucketStart), old(bucketCount)), now)
      ensures ok <==> Admitted(Bucket(old(bucketStart), old(bucketCount)), [now]) == [now]
    {
      if now - bucketStart > WINDOW_MS {
        bucketStart := now;
        bucketCount := 0;
      }
      bucketCount := bucketCount + 1;
      ok := bucketCount <= MAX_MSGS;
    }

    method StateFreqOk(now: int) returns (ok: bool)
      modifies this`lastStateAt
      ensures ok <==> Handled(old(lastStateAt), [now]) == [now]
      ensures lastStateAt == if ok then now else old(lastStateAt)
    {
      var minInterval := 1000.0 / STATE_HZ;
      if (now - lastStateAt) as real < minInterval * 0.75 { return false; }
      lastStateAt := now;
      return true;
    }
  }
}
