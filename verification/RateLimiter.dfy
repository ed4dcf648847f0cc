// The sliding-window rate limiter.

module RateLimiter {

  // A deque per key agrees with counting the requests accepted in the last 300 seconds.

  type Time = int  // nanoseconds

  /** The request path and the client fingerprint, joined by a colon. */
  datatype Key = Key(text: string)

  const WINDOW: Time := 300_000_000_000
  const MAX_ATTEMPTS := 20

  predicate Sorted(h: seq<Time>) {
    forall i, j :: 0 <= i <= j < |h| ==> h[i] <= h[j]
  }

  // ---- the specification: a key's history is the list of its accepted times ----

  /** The times of h that lie in the closed window [from, to]. */
  function Within(h: seq<Time>, from: Time, to: Time): seq<Time> {
    if h == [] then []
    else Within(h[..|h| - 1], from, to) + if from <= h[|h| - 1] <= to then [h[|h| - 1]] else []
  }

  predicate Admits(h: seq<Time>, now: Time) {
    |Within(h, now - WINDOW, now)| < MAX_ATTEMPTS
  }

  function Record(h: seq<Time>, now: Time): seq<Time> {
    if Admits(h, now) then h + [now] else h
  }

  /** The history after a series of requests at the given times. */
  function Accepted(times: seq<Time>): seq<Time> {
    if times == [] then [] else Record(Accepted(times[..|times| - 1]), times[|times| - 1])
  }

  lemma {:induction false} WithinConcat(a: seq<Time>, b: seq<Time>, from: Time, to: Time)
    ensures Within(a + b, from, to) == Within(a, from, to) + Within(b, from, to)
  {
    if b == [] {
      assert a + b == a;
    } else {
      var n := |b| - 1;
      WithinConcat(a, b[..n], from, to);
      assert (a + b)[..|a + b| - 1] == a + b[..n];
    }
  }

  lemma {:induction false} WithinNone(h: seq<Time>, from: Time, to: Time)
    requires forall i :: 0 <= i < |h| ==> h[i] < from
    ensures Within(h, from, to) == []
  {
    if h != [] { WithinNone(h[..|h| - 1], from, to); }
  }

  lemma {:induction false} WithinAll(h: seq<Time>, from: Time, to: Time)
    requires forall i :: 0 <= i < |h| ==> from <= h[i] <= to
    ensures Within(h, from, to) == h
  {
    if h != [] { WithinAll(h[..|h| - 1], from, to); }
  }

  lemma {:induction false} WithinAtMost(h: seq<Time>, from: Time, to: Time)
    ensures |Within(h, from, to)| <= |h|
  {
    if h != [] { WithinAtMost(h[..|h| - 1], from, to); }
  }

  /** In a sorted history that has reached now, everything from a time inside the window on is inside it. */
  lemma AtLeast(h: seq<Time>, i: nat, now: Time)
    requires Sorted(h) && i < |h| && h[|h| - 1] <= now && now - h[i] <= WINDOW
    ensures |Within(h, now - WINDOW, now)| >= |h| - i
  {
    assert h == h[..i] + h[i..];
    WithinConcat(h[..i], h[i..], now - WINDOW, now);
    WithinAll(h[i..], now - WINDOW, now);
  }

  /** Any two accepted times with nineteen others between them are more than a window apart. */
  ghost predicate Spaced(h: seq<Time>) {
    forall i :: 0 <= i < |h| - MAX_ATTEMPTS ==> h[i + MAX_ATTEMPTS] - h[i] > WINDOW
  }

  lemma RecordKeepsSpacing(h: seq<Time>, now: Time)
    requires Sorted(h) && Spaced(h) && (h != [] ==> h[|h| - 1] <= now)
    ensures Sorted(Record(h, now)) && Spaced(Record(h, now))
  {
    if Admits(h, now) && |h| >= MAX_ATTEMPTS {
      var i := |h| - MAX_ATTEMPTS;
      if now - h[i] <= WINDOW { AtLeast(h, i, now); }
    }
  }

  lemma {:induction false} AcceptedIsSpaced(times: seq<Time>)
    requires Sorted(times)
    ensures Sorted(Accepted(times)) && Spaced(Accepted(times))
    ensures forall t :: t in Accepted(times) ==> t in times
  {
    if times != [] {
      var prior := times[..|times| - 1];
      AcceptedIsSpaced(prior);
      assert forall t :: t in prior ==> t in times && t <= times[|times| - 1];
      var h := Accepted(prior);
      if h != [] { assert h[|h| - 1] in prior; }
      RecordKeepsSpacing(h, times[|times| - 1]);
    }
  }

  lemma LastTwentyFit(h: seq<Time>, from: Time)
    requires Sorted(h) && Spaced(h) && h != [] && h[|h| - 1] <= from + WINDOW
    ensures |Within(h, from, from + WINDOW)| <= MAX_ATTEMPTS
  {
    hide Within;
    var to := from + WINDOW;
    var cut := if |h| > MAX_ATTEMPTS then |h| - MAX_ATTEMPTS else 0;
    forall i | 0 <= i < cut ensures h[i] < from {
      assert h[i + MAX_ATTEMPTS] - h[i] > WINDOW;
    }
    var head, last := h[..cut], h[cut..];
    assert h == head + last;
    WithinConcat(head, last, from, to);
    WithinNone(head, from, to);
    WithinAtMost(last, from, to);
  }

  lemma {:induction false} SpacedFitsWindow(h: seq<Time>, from: Time)
    requires Sorted(h) && Spaced(h)
    ensures |Within(h, from, from + WINDOW)| <= MAX_ATTEMPTS
  {
    if h != [] {
      if h[|h| - 1] <= from + WINDOW {
        LastTwentyFit(h, from);
      } else {
        SpacedFitsWindow(h[..|h| - 1], from);
      }
    }
  }

  /** No closed window of 300 seconds, wherever it starts, holds more than twenty accepted requests of one key. */
  lemma AtMostTwentyPerWindow(times: seq<Time>, from: Time)
    requires Sorted(times)
    ensures |Within(Accepted(times), from, from + 300_000_000_000)| <= 20
  {
    AcceptedIsSpaced(times);
    SpacedFitsWindow(Accepted(times), from);
  }

  // ---- the limiter ----

  /** At time now, b is the tail of the sorted history h, and what is missing from b is older than the window. */
  predicate IsTail(b: seq<Time>, h: seq<Time>, now: Time) {
    && Sorted(h) && (h != [] ==> h[|h| - 1] <= now)
    && |b| <= |h| && b == h[|h| - |b|..]
    && (forall i :: 0 <= i < |h| - |b| ==> now - h[i] > WINDOW)
  }

  lemma TailIsInside(b: seq<Time>, h: seq<Time>, now: Time)
    requires IsTail(b, h, now) && (b != [] ==> now - b[0] <= WINDOW)
    ensures forall i :: 0 <= i < |b| ==> now - WINDOW <= b[i] <= now
    ensures forall i :: 0 <= i < |h| - |b| ==> h[i] < now - WINDOW
  {
    var cut := |h| - |b|;
    forall i | 0 <= i < |b| ensures now - WINDOW <= b[i] <= now {
      assert b[i] == h[cut + i] && b[0] == h[cut] && h[cut] <= h[cut + i] <= h[|h| - 1];
    }
  }

  lemma WithinSplit(head: seq<Time>, b: seq<Time>, from: Time, to: Time)
    requires forall i :: 0 <= i < |head| ==> head[i] < from
    requires forall i :: 0 <= i < |b| ==> from <= b[i] <= to
    ensures Within(head + b, from, to) == b
  {
    hide Within;
    WithinConcat(head, b, from, to);
    WithinNone(head, from, to);
    WithinAll(b, from, to);
    assert [] + b == b;
  }

  /** Once its own front is inside the window, the tail is exactly what the window holds. */
  lemma TailIsWindow(b: seq<Time>, h: seq<Time>, now: Time)
    requires IsTail(b, h, now) && (b != [] ==> now - b[0] <= WINDOW)
    ensures Within(h, now - WINDOW, now) == b
  {
    hide Within;
    TailIsInside(b, h, now);
    TailSplits(b, h, now);
    hide IsTail, Sorted;
    var cut := |h| - |b|;
    assert forall i :: 0 <= i < cut ==> h[..cut][i] == h[i];
    WithinSplit(h[..cut], b, now - WINDOW, now);
  }

  lemma TailSplits(b: seq<Time>, h: seq<Time>, now: Time)
    requires IsTail(b, h, now)
    ensures h == h[..|h| - |b|] + b
  {
  }

  /** The bucket after a request: it grows only while it has room. */
  function Pushed(b: seq<Time>, now: Time): seq<Time> {
    if |b| < MAX_ATTEMPTS then b + [now] else b
  }

  /** Pushing the time exactly when the bucket has room keeps the bucket the tail of the recorded history. */
  lemma RecordKeepsTail(b: seq<Time>, h: seq<Time>, now: Time)
    requires IsTail(b, h, now) && b == Within(h, now - WINDOW, now)
    ensures Admits(h, now) <==> |b| < MAX_ATTEMPTS
    ensures IsTail(Pushed(b, now), Record(h, now), now)
  {
    hide Within;
    var g := h + [now];
    assert forall i :: 0 <= i < |h| ==> g[i] == h[i];
  }

  /** The limiter's loop: pop the front while it is older than the window. */
  method Expire(b: seq<Time>, ghost h: seq<Time>, now: Time) returns (bucket: seq<Time>)
    requires IsTail(b, h, now)
    ensures IsTail(bucket, h, now) && bucket == Within(h, now - WINDOW, now)
  {
    bucket := b;
    while |bucket| > 0 && now - bucket[0] > WINDOW
      invariant IsTail(bucket, h, now)
      decreases |bucket|
    {
      assert h[|h| - |bucket|] == bucket[0];
      bucket := bucket[1..];
    }
    TailIsWindow(bucket, h, now);
  }

  /** One request against its bucket: drop what is too old, then push the time if there is room. */
  method Admit(b: seq<Time>, ghost h: seq<Time>, now: Time) returns (accepted: bool, bucket: seq<Time>)
    requires IsTail(b, h, now)
    ensures accepted <==> Admits(h, now)
    ensures IsTail(bucket, Record(h, now), now)
  {
    bucket := Expire(b, h, now);
    RecordKeepsTail(bucket, h, now);
    hide IsTail, Within;
    accepted := |bucket| < MAX_ATTEMPTS;
    ghost var pushed := Pushed(bucket, now);
    assert pushed == if accepted then bucket + [now] else bucket;
    if accepted {
      bucket := bucket + [now];
    }
  }

  function At(m: map<Key, seq<Time>>, key: Key): seq<Time> {
    if key in m then m[key] else []
  }

  ghost predicate TailAt(buckets: map<Key, seq<Time>>, histories: map<Key, seq<Time>>, key: Key, clock: Time) {
    IsTail(At(buckets, key), At(histories, key), clock) && Spaced(At(histories, key))
  }

  /** Every key's bucket is the tail of its history, and no history ever held more than twenty times per window. */
  ghost predicate Tracks(buckets: map<Key, seq<Time>>, histories: map<Key, seq<Time>>, clock: Time) {
    forall key :: TailAt(buckets, histories, key, clock)
  }

  lemma TailLater(buckets: map<Key, seq<Time>>, histories: map<Key, seq<Time>>, clock: Time, key: Key, now: Time)
    requires Tracks(buckets, histories, clock) && clock <= now
    ensures IsTail(At(buckets, key), At(histories, key), now) && Spaced(At(histories, key))
  {
    assert TailAt(buckets, histories, key, clock);
  }

  lemma PutKeepsTracks(buckets: map<Key, seq<Time>>, histories: map<Key, seq<Time>>, clock: Time,
                       key: Key, b: seq<Time>, h: seq<Time>, now: Time)
    requires Tracks(buckets, histories, clock) && clock <= now && IsTail(b, h, now) && Spaced(h)
    ensures Tracks(buckets[key := b], histories[key := h], now)
  {
    var bs, hs := buckets[key := b], histories[key := h];
    forall other: Key ensures TailAt(bs, hs, other, now) {
      hide IsTail, Spaced, Tracks;
      TailLater(buckets, histories, clock, other, now);
    }
  }

  lemma TailIsSorted(b: seq<Time>, h: seq<Time>, now: Time)
    requires IsTail(b, h, now)
    ensures Sorted(h) && (h != [] ==> h[|h| - 1] <= now)
  {
  }

  /** basic_rate_limit on the map of buckets. */
  method Request(buckets: map<Key, seq<Time>>, ghost histories: map<Key, seq<Time>>, ghost clock: Time, key: Key,
                 now: Time)
    returns (accepted: bool, updated: map<Key, seq<Time>>)
    requires Tracks(buckets, histories, clock) && clock <= now
    ensures accepted <==> Admits(At(histories, key), now)
    ensures Tracks(updated, histories[key := Record(At(histories, key), now)], now)
  {
    hide *;
    ghost var h := At(histories, key);
    TailLater(buckets, histories, clock, key, now);
    var bucket;
    accepted, bucket := Admit(At(buckets, key), h, now);
    TailIsSorted(At(buckets, key), h, now);
    RecordKeepsSpacing(h, now);
    PutKeepsTracks(buckets, histories, clock, key, bucket, Record(h, now), now);
    updated := buckets[key := bucket];
  }

  class Limiter {
    var buckets: map<Key, seq<Time>>
    ghost var histories: map<Key, seq<Time>>
    ghost var clock: Time

    ghost predicate Valid()
      reads this
    {
      Tracks(buckets, histories, clock)
    }

    constructor (start: Time)
      ensures Valid() && clock == start && histories == map[]
    {
      buckets, histories, clock := map[], map[], start;
    }

    /** Of every key, in every window of 300 seconds, at most twenty requests have been accepted. */
    lemma WindowIsBounded(key: Key, from: Time)
      requires Valid()
      ensures |Within(At(histories, key), from, from + 300_000_000_000)| <= 20
    {
      TailLater(buckets, histories, clock, key, clock);
      TailIsSorted(At(buckets, key), At(histories, key), clock);
      SpacedFitsWindow(At(histories, key), from);
    }

    /** basic_rate_limit for one request; the mutex hands out requests in clock order. */
    method Check(key: Key, now: Time) returns (accepted: bool)
      requires Valid() && clock <= now
      modifies this
      ensures Valid() && clock == now
      ensures accepted <==> Admits(At(old(histories), key), now)
      ensures accepted <==> |Within(At(old(histories), key), now - 300_000_000_000, now)| < 20
      ensures histories == old(histories)[key := At(old(histories), key) + if accepted then [now] else []]
    {
      assert Tracks(buckets, histories, clock);
      ghost var admitted := Admits(At(histories, key), now);
      assert Record(At(histories, key), now) == At(histories, key) + if admitted then [now] else [];
      assert admitted <==> |Within(At(histories, key), now - 300_000_000_000, now)| < 20;
      hide *;
      ghost var recorded := histories[key := Record(At(histories, key), now)];
      accepted, buckets := Request(buckets, histories, clock, key, now);
      histories, clock := recorded, now;
      assert Valid();
    }
  }
}
