/** Fixed-window limiter of failed WebSocket handshakes (packages/server/src/auth/connection-rate-limiter.ts) and the way
    both gateways use it: ask first, record only a failure that was let through. */
module RateLimiter {
  import opened Common

  const WINDOW_MS := 60_000
  const MAX_FAILURES_PER_WINDOW := 10
  const CLEANUP_THRESHOLD := 1_000

  /** What the limiter amounts to over any sixty seconds: the first failure of a window and the next window never fit
      into one such interval. */
  const MAX_FAILURES_PER_MINUTE := 2 * MAX_FAILURES_PER_WINDOW - 1

  datatype FailureWindow = FailureWindow(count: nat, windowStartMs: Time)

  type Failures = map<string, FailureWindow>

  function ToKey(ip: Option<string>): string {
    if ip.Some? then ip.value else "unknown"
  }

  predicate IsExpired(w: FailureWindow, now: Time) {
    now - w.windowStartMs >= WINDOW_MS
  }

  predicate Blocks(failures: Failures, key: string, now: Time) {
    key in failures && !IsExpired(failures[key], now) && failures[key].count >= MAX_FAILURES_PER_WINDOW
  }

  function Cleaned(failures: Failures, now: Time): Failures {
    if |failures| < CLEANUP_THRESHOLD then failures
    else map key | key in failures && !IsExpired(failures[key], now) :: failures[key]
  }

  function Counted(failures: Failures, key: string, now: Time): Failures {
    if key !in failures || IsExpired(failures[key], now) then failures[key := FailureWindow(1, now)]
    else failures[key := failures[key].(count := failures[key].count + 1)]
  }

  function Recorded(failures: Failures, key: string, now: Time): Failures {
    Counted(Cleaned(failures, now), key, now)
  }

  class ConnectionRateLimiter {
    var failures: Failures

    constructor ()
      ensures failures == map[]
    {
      failures := map[];
    }

    method IsBlocked(ip: Option<string>, now: Time) returns (r: bool)
      ensures r == Blocks(failures, ToKey(ip), now)
    {
      if ToKey(ip) !in failures { return false; }
      var entry := failures[ToKey(ip)];
      if now - entry.windowStartMs >= WINDOW_MS { return false; }
      return entry.count >= MAX_FAILURES_PER_WINDOW;
    }

    method RecordFailure(ip: Option<string>, now: Time)
      modifies this
      ensures failures == Recorded(old(failures), ToKey(ip), now)
    {
      CleanupIfNeeded(now);
      var key := ToKey(ip);
      if key !in failures || now - failures[key].windowStartMs >= WINDOW_MS {
        failures := failures[key := FailureWindow(1, now)];
        return;
      }
      failures := failures[key := failures[key].(count := failures[key].count + 1)];
    }

    method CleanupIfNeeded(now: Time)
      modifies this
      ensures failures == Cleaned(old(failures), now)
    {
      if |failures| < CLEANUP_THRESHOLD { return; }
      var before, rest := failures, failures.Keys;
      while rest != {}
        invariant rest <= before.Keys
        invariant failures == map key | key in before && (key in rest || !IsExpired(before[key], now)) :: before[key]
      {
        var key :| key in rest;
        rest := rest - {key};
        if now - before[key].windowStartMs >= WINDOW_MS { failures := failures - {key}; }
      }
    }
  }

  /** A handshake; `fails` says that its credentials are refused. */
  datatype Attempt = Attempt(ip: Option<string>, now: Time, fails: bool)

  function AttemptEffect(failures: Failures, a: Attempt): Failures {
    if !Blocks(failures, ToKey(a.ip), a.now) && a.fails then Recorded(failures, ToKey(a.ip), a.now) else failures
  }

  /** The limiter after a series of handshakes. */
  function After(attempts: seq<Attempt>): Failures {
    if attempts == [] then map[]
    else AttemptEffect(After(attempts[..|attempts| - 1]), attempts[|attempts| - 1])
  }

  /** A limiter that never forgets an address. */
  function AfterWithoutCleanup(attempts: seq<Attempt>): Failures {
    if attempts == [] then map[]
    else
      var failures, a := AfterWithoutCleanup(attempts[..|attempts| - 1]), attempts[|attempts| - 1];
      if !Blocks(failures, ToKey(a.ip), a.now) && a.fails then Counted(failures, ToKey(a.ip), a.now) else failures
  }

  predicate IsOrdered(attempts: seq<Attempt>) {
    forall i, j :: 0 <= i < j < |attempts| ==> attempts[i].now <= attempts[j].now
  }

  /** At time `now` the two differ only in windows that are over. */
  ghost predicate Agree(kept: Failures, ideal: Failures, now: Time) {
    && (forall key :: key in kept ==> key in ideal && kept[key] == ideal[key])
    && (forall key :: key in ideal && key !in kept ==> IsExpired(ideal[key], now))
  }

  lemma RecordingAgrees(kept: Failures, ideal: Failures, key: string, now: Time)
    requires Agree(kept, ideal, now)
    ensures Agree(Recorded(kept, key, now), Counted(ideal, key, now), now)
  {
    assert Agree(Cleaned(kept, now), ideal, now);
  }

  lemma {:induction false} CleanupKeepsAgreement(attempts: seq<Attempt>, now: Time)
    requires IsOrdered(attempts) && (attempts != [] ==> attempts[|attempts| - 1].now <= now)
    ensures Agree(After(attempts), AfterWithoutCleanup(attempts), now)
  {
    if attempts != [] {
      var a, before := attempts[|attempts| - 1], attempts[..|attempts| - 1];
      CleanupKeepsAgreement(before, a.now);
      RecordingAgrees(After(before), AfterWithoutCleanup(before), ToKey(a.ip), a.now);
    }
  }

  /** The cleanup pass cannot be observed: whatever happened, at any later time the limiter blocks the same addresses as one
      that never deletes an entry. */
  lemma CleanupIsUnobservable(attempts: seq<Attempt>, key: string, now: Time)
    requires IsOrdered(attempts) && (attempts != [] ==> attempts[|attempts| - 1].now <= now)
    ensures Blocks(After(attempts), key, now) == Blocks(AfterWithoutCleanup(attempts), key, now)
  {
    CleanupKeepsAgreement(attempts, now);
  }

  /** When the failures of an address were counted. */
  function CountedAt(attempts: seq<Attempt>, key: string): seq<Time> {
    if attempts == [] then []
    else
      var before, a := attempts[..|attempts| - 1], attempts[|attempts| - 1];
      CountedAt(before, key)
      + if ToKey(a.ip) == key && a.fails && !Blocks(After(before), key, a.now) then [a.now] else []
  }

  /** How many of the times lie in the half-open interval from a to b. */
  function CountIn(times: seq<Time>, a: Time, b: Time): nat {
    if times == [] then 0
    else CountIn(times[..|times| - 1], a, b) + if a <= times[|times| - 1] < b then 1 else 0
  }

  /** How many lie in the window length from a on. */
  function CountFrom(times: seq<Time>, a: Time): nat {
    CountIn(times, a, a + WINDOW_MS)
  }

  lemma CountMore(times: seq<Time>, t: Time, a: Time, b: Time)
    ensures CountIn(times + [t], a, b) == CountIn(times, a, b) + if a <= t < b then 1 else 0
  {
    assert (times + [t])[..|times|] == times;
  }

  lemma {:induction false} CountParts(times: seq<Time>, a: Time, b: Time, c: Time)
    requires a <= b <= c
    ensures CountIn(times, a, c) == CountIn(times, a, b) + CountIn(times, b, c)
  {
    if times != [] { CountParts(times[..|times| - 1], a, b, c); }
  }

  lemma {:induction false} CountWithin(times: seq<Time>, a: Time, b: Time, c: Time, d: Time)
    requires forall i :: 0 <= i < |times| && a <= times[i] < b ==> c <= times[i] < d
    ensures CountIn(times, a, b) <= CountIn(times, c, d)
  {
    if times != [] {
      CountWithin(times[..|times| - 1], a, b, c, d);
    }
  }

  /** What the entry of an address says about its counted failures: those of the current window are the count, at most ten,
      one of them at its very start; at most nine lie in the window's length before it; at most nineteen in any interval
      of that length. */
  ghost predicate WindowInv(times: seq<Time>, w: FailureWindow) {
    && 1 <= w.count <= MAX_FAILURES_PER_WINDOW
    && CountIn(times, w.windowStartMs, w.windowStartMs + WINDOW_MS) == w.count
    && CountIn(times, w.windowStartMs, w.windowStartMs + 1) >= 1
    && (forall i :: 0 <= i < |times| ==> times[i] < w.windowStartMs + WINDOW_MS)
    && (forall a :: a > w.windowStartMs - WINDOW_MS ==> CountIn(times, a, w.windowStartMs) < MAX_FAILURES_PER_WINDOW)
    && (forall a :: CountFrom(times, a) <= MAX_FAILURES_PER_MINUTE)
  }

  ghost predicate EntryInv(times: seq<Time>, failures: Failures, key: string) {
    if key in failures then WindowInv(times, failures[key]) else times == []
  }

  /** One more failure in the current window. */
  lemma SameWindow(times: seq<Time>, w: FailureWindow, now: Time)
    requires WindowInv(times, w) && w.windowStartMs <= now < w.windowStartMs + WINDOW_MS && w.count < MAX_FAILURES_PER_WINDOW
    ensures WindowInv(times + [now], w.(count := w.count + 1))
  {
    var more, start := times + [now], w.windowStartMs;
    CountMore(times, now, start, start + WINDOW_MS);
    CountMore(times, now, start, start + 1);
    forall a ensures CountIn(more, a, start) == CountIn(times, a, start) {
      CountMore(times, now, a, start);
    }
    forall a ensures CountFrom(more, a) <= MAX_FAILURES_PER_MINUTE {
      CountMore(times, now, a, a + WINDOW_MS);
      assert CountFrom(times, a) <= MAX_FAILURES_PER_MINUTE;
      IntervalBound(more, w.(count := w.count + 1), a);
    }
  }

  /** An interval that reaches into the current window holds at most what the two windows allow. */
  lemma IntervalBound(times: seq<Time>, w: FailureWindow, a: Time)
    requires CountIn(times, w.windowStartMs, w.windowStartMs + WINDOW_MS) == w.count <= MAX_FAILURES_PER_WINDOW
    requires forall i :: 0 <= i < |times| ==> times[i] < w.windowStartMs + WINDOW_MS
    requires forall b :: b > w.windowStartMs - WINDOW_MS ==> CountIn(times, b, w.windowStartMs) < MAX_FAILURES_PER_WINDOW
    ensures a > w.windowStartMs - WINDOW_MS ==> CountFrom(times, a) <= MAX_FAILURES_PER_MINUTE
  {
    var start := w.windowStartMs;
    if a >= start {
      CountWithin(times, a, a + WINDOW_MS, start, start + WINDOW_MS);
    } else if a > start - WINDOW_MS {
      CountParts(times, a, start, a + WINDOW_MS);
      CountWithin(times, start, a + WINDOW_MS, start, start + WINDOW_MS);
    }
  }

  /** The first failure of a new window. */
  lemma NewWindow(times: seq<Time>, w: FailureWindow, now: Time)
    requires WindowInv(times, w) && IsExpired(w, now)
    ensures WindowInv(times + [now], FailureWindow(1, now))
  {
    var more, start := times + [now], w.windowStartMs;
    NothingAfter(times, now, now + WINDOW_MS);
    CountMore(times, now, now, now + WINDOW_MS);
    CountMore(times, now, now, now + 1);
    forall a | a > now - WINDOW_MS ensures CountIn(more, a, now) < MAX_FAILURES_PER_WINDOW {
      CountMore(times, now, a, now);
      CountWithin(times, a, now, start + 1, start + WINDOW_MS);
      CountParts(times, start, start + 1, start + WINDOW_MS);
    }
    forall a ensures CountFrom(more, a) <= MAX_FAILURES_PER_MINUTE {
      CountMore(times, now, a, a + WINDOW_MS);
      assert CountFrom(times, a) <= MAX_FAILURES_PER_MINUTE;
      IntervalBound(more, FailureWindow(1, now), a);
    }
  }

  lemma {:induction false} NothingAfter(times: seq<Time>, a: Time, b: Time)
    requires forall i :: 0 <= i < |times| ==> times[i] < a
    ensures CountIn(times, a, b) == 0
  {
    if times != [] {
      NothingAfter(times[..|times| - 1], a, b);
    }
  }

  lemma FirstFailure(now: Time)
    ensures WindowInv([now], FailureWindow(1, now))
  {
    forall a, b ensures CountIn([now], a, b) == if a <= now < b then 1 else 0 {
      CountMore([], now, a, b);
      assert [] + [now] == [now];
    }
  }

  /** Entries are not ahead of the clock. */
  ghost predicate StartsBy(failures: Failures, now: Time) {
    forall key :: key in failures ==> failures[key].windowStartMs <= now
  }

  lemma {:induction false} EntriesAreTrue(attempts: seq<Attempt>, key: string, now: Time)
    requires IsOrdered(attempts) && (attempts != [] ==> attempts[|attempts| - 1].now <= now)
    ensures EntryInv(CountedAt(attempts, key), AfterWithoutCleanup(attempts), key) && StartsBy(AfterWithoutCleanup(attempts), now)
  {
    if attempts != [] {
      var before, a := attempts[..|attempts| - 1], attempts[|attempts| - 1];
      EntriesAreTrue(before, key, a.now);
      CleanupIsUnobservable(before, key, a.now);
      var failures, times := AfterWithoutCleanup(before), CountedAt(before, key);
      if ToKey(a.ip) == key && a.fails && !Blocks(failures, key, a.now) {
        if key !in failures {
          FirstFailure(a.now);
          assert [] + [a.now] == [a.now];
        } else if IsExpired(failures[key], a.now) {
          NewWindow(times, failures[key], a.now);
        } else {
          SameWindow(times, failures[key], a.now);
        }
      } else {
        assert times + [] == times;
      }
    }
  }

  /** However handshakes come in, as long as the clock does not run backwards: an address has at most ten counted failures
      in its window, and its entry knows how many, */
  lemma WindowIsLimited(attempts: seq<Attempt>, key: string, w: FailureWindow)
    requires IsOrdered(attempts) && key in After(attempts) && After(attempts)[key] == w
    ensures CountFrom(CountedAt(attempts, key), w.windowStartMs) == w.count <= MAX_FAILURES_PER_WINDOW
  {
    EntriesAreKept(attempts, key);
  }

  /** and at most nineteen in any half-open interval of sixty seconds. */
  lemma FailuresAreLimited(attempts: seq<Attempt>, key: string, a: Time)
    requires IsOrdered(attempts)
    ensures CountFrom(CountedAt(attempts, key), a) <= MAX_FAILURES_PER_MINUTE
  {
    EntriesAreKept(attempts, key);
  }

  lemma EntriesAreKept(attempts: seq<Attempt>, key: string)
    requires IsOrdered(attempts)
    ensures EntryInv(CountedAt(attempts, key), AfterWithoutCleanup(attempts), key)
    ensures key in After(attempts) ==> key in AfterWithoutCleanup(attempts) && After(attempts)[key] == AfterWithoutCleanup(attempts)[key]
  {
    var now := if attempts == [] then 0 else attempts[|attempts| - 1].now;
    EntriesAreTrue(attempts, key, now);
    CleanupKeepsAgreement(attempts, now);
  }

  // When an address is blocked

  /** The first failure of the window that the i-th one falls into: a window takes in what comes less than sixty seconds after its
      first failure. */
  function WindowStart(times: seq<Time>, i: nat): (s: nat)
    requires i < |times|
    ensures s <= i
  {
    if i == 0 then 0
    else
      var s := WindowStart(times, i - 1);
      if times[i] - times[s] >= 60_000 then i else s
  }

  lemma {:induction false} WindowStartStays(times: seq<Time>, t: Time, i: nat)
    requires i < |times|
    ensures WindowStart(times + [t], i) == WindowStart(times, i)
  {
    if i > 0 { WindowStartStays(times, t, i - 1); }
  }

  /** The entry counts the failures of the last window. */
  ghost predicate CountsLastWindow(times: seq<Time>, failures: Failures, key: string) {
    if times == [] then key !in failures
    else
      var s := WindowStart(times, |times| - 1);
      key in failures && failures[key] == FailureWindow(|times| - s, times[s])
  }

  lemma CountOneMore(times: seq<Time>, failures: Failures, key: string, now: Time)
    requires CountsLastWindow(times, failures, key)
    ensures CountsLastWindow(times + [now], Counted(failures, key, now), key)
  {
    if times != [] { WindowStartStays(times, now, |times| - 1); }
  }

  lemma {:induction false} EntryCounts(attempts: seq<Attempt>, key: string)
    requires IsOrdered(attempts)
    ensures CountsLastWindow(CountedAt(attempts, key), AfterWithoutCleanup(attempts), key)
  {
    if attempts != [] {
      var before, a := attempts[..|attempts| - 1], attempts[|attempts| - 1];
      EntryCounts(before, key);
      CleanupIsUnobservable(before, ToKey(a.ip), a.now);
      var failures, times := AfterWithoutCleanup(before), CountedAt(before, key);
      if ToKey(a.ip) == key && a.fails && !Blocks(failures, key, a.now) {
        CountOneMore(times, failures, key, a.now);
      } else {
        assert times + [] == times;
      }
    }
  }

  /** However handshakes come in, as long as the clock does not run backwards: an address is blocked exactly if the last window of its
      counted failures is not over and holds at least ten. */
  lemma BlockedExactlyWhen(attempts: seq<Attempt>, key: string, now: Time)
    requires IsOrdered(attempts) && (attempts != [] ==> attempts[|attempts| - 1].now <= now)
    ensures var times := CountedAt(attempts, key);
            Blocks(After(attempts), key, now) <==>
              && times != []
              && now - times[WindowStart(times, |times| - 1)] < 60_000
              && |times| - WindowStart(times, |times| - 1) >= 10
  {
    EntryCounts(attempts, key);
    CleanupIsUnobservable(attempts, key, now);
  }
}
