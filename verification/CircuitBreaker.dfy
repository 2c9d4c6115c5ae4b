/** The circuit breaker of the Redis client (lib/redis.ts) under sequential calls. */
module CircuitBreaker {

  datatype Mode = Closed | Open | HalfOpen

  datatype Breaker = Breaker(mode: Mode, failures: nat, lastFailureAt: int)

  const FRESH := Breaker(Closed, 0, 0)

  /** A call of withFallback: when it asks the breaker, when the adapter answers if it is
      called, and whether that answer is a success. */
  datatype Call = Call(start: int, end: int, ok: bool)

  predicate Admits(b: Breaker, window: int, now: int) {
    b.mode != Open || now - b.lastFailureAt >= window
  }

  function AfterAllow(b: Breaker, window: int, now: int): Breaker {
    if b.mode == Open && now - b.lastFailureAt >= window then b.(mode := HalfOpen) else b
  }

  function AfterSuccess(b: Breaker): Breaker { b.(mode := Closed, failures := 0) }

  function AfterFailure(b: Breaker, threshold: nat, now: int): Breaker {
    Breaker(if b.mode == HalfOpen || b.failures + 1 >= threshold then Open else b.mode, b.failures + 1, now)
  }

  /** withFallback as the breaker sees it. */
  function AfterCall(b: Breaker, threshold: nat, window: int, c: Call): Breaker {
    if !Admits(b, window, c.start) then b
    else
      var b1 := AfterAllow(b, window, c.start);
      if c.ok then AfterSuccess(b1) else AfterFailure(b1, threshold, c.end)
  }

  function Run(b: Breaker, threshold: nat, window: int, calls: seq<Call>): Breaker {
    if calls == [] then b
    else AfterCall(Run(b, threshold, window, calls[..|calls| - 1]), threshold, window, calls[|calls| - 1])
  }

  /** Between calls the breaker is closed exactly while the count is below the threshold. */
  predicate Consistent(b: Breaker, threshold: nat) {
    b.mode != HalfOpen && (b.mode == Closed <==> b.failures < threshold)
  }

  lemma {:induction false} ClosedIffBelowThreshold(threshold: nat, window: int, calls: seq<Call>)
    requires threshold >= 1
    ensures Consistent(Run(FRESH, threshold, window, calls), threshold)
  {
    if calls != [] { ClosedIffBelowThreshold(threshold, window, calls[..|calls| - 1]); }
  }

  /** The adapter is called for call `i`. */
  predicate Reaches(b: Breaker, threshold: nat, window: int, calls: seq<Call>, i: nat) {
    i < |calls| && Admits(Run(b, threshold, window, calls[..i]), window, calls[i].start)
  }

  /** How many of the calls reach the adapter. */
  function Reached(b: Breaker, threshold: nat, window: int, calls: seq<Call>): nat {
    if calls == [] then 0
    else
      var n := |calls| - 1;
      Reached(b, threshold, window, calls[..n]) +
      (if Admits(Run(b, threshold, window, calls[..n]), window, calls[n].start) then 1 else 0)
  }

  /** Every call that reaches the adapter fails, and takes no negative time. */
  ghost predicate AllFail(b: Breaker, threshold: nat, window: int, calls: seq<Call>) {
    forall i :: 0 <= i < |calls| && Reaches(b, threshold, window, calls, i) ==>
      !calls[i].ok && calls[i].start <= calls[i].end
  }

  lemma AllFailPrefix(b: Breaker, threshold: nat, window: int, calls: seq<Call>)
    requires calls != [] && AllFail(b, threshold, window, calls)
    ensures AllFail(b, threshold, window, calls[..|calls| - 1])
  {
    var front := calls[..|calls| - 1];
    forall i | 0 <= i < |front| && Reaches(b, threshold, window, front, i)
      ensures !front[i].ok && front[i].start <= front[i].end
    {
      assert front[..i] == calls[..i];
      assert Reaches(b, threshold, window, calls, i);
    }
  }

  lemma OneMore(k: nat, window: int)
    ensures (k + 1) * window == k * window + window
  {
  }

  /** While the adapter keeps failing the breaker stays open, and each failing call pushes the
      next one back by a whole window. */
  lemma {:induction false} StaysOpen(b: Breaker, threshold: nat, window: int, calls: seq<Call>)
    requires b.mode == Open && AllFail(b, threshold, window, calls)
    ensures Run(b, threshold, window, calls).mode == Open
    ensures Run(b, threshold, window, calls).lastFailureAt >=
            b.lastFailureAt + Reached(b, threshold, window, calls) * window
  {
    if calls != [] {
      var front, c := calls[..|calls| - 1], calls[|calls| - 1];
      AllFailPrefix(b, threshold, window, calls);
      StaysOpen(b, threshold, window, front);
      if Admits(Run(b, threshold, window, front), window, c.start) {
        assert Reaches(b, threshold, window, calls, |calls| - 1);
        OneMore(Reached(b, threshold, window, front), window);
      }
    }
  }

  /** After the breaker opened at t0, the k-th consecutive failing adapter call starts no earlier
      than t0 + k * window: here call `i` is the k-th, with k - 1 before it. */
  lemma FailuresAreSpaced(b: Breaker, threshold: nat, window: int, calls: seq<Call>, i: nat)
    requires b.mode == Open && i < |calls|
    requires AllFail(b, threshold, window, calls[..i]) && Reaches(b, threshold, window, calls, i)
    ensures calls[i].start >= b.lastFailureAt + (Reached(b, threshold, window, calls[..i]) + 1) * window
  {
    StaysOpen(b, threshold, window, calls[..i]);
    OneMore(Reached(b, threshold, window, calls[..i]), window);
  }

  // ---------------------------------------------------------------------------
  // The breaker as a reading of the calls
  // ---------------------------------------------------------------------------

  /** Call `i` reached the adapter. */
  ghost predicate ReachedAt(threshold: nat, window: int, calls: seq<Call>, i: int) {
    0 <= i < |calls| && Reaches(FRESH, threshold, window, calls, i)
  }

  /** No call from `m` on succeeded at the adapter. */
  ghost predicate NoSuccessFrom(threshold: nat, window: int, calls: seq<Call>, m: int) {
    forall i :: m <= i && ReachedAt(threshold, window, calls, i) ==> !calls[i].ok
  }

  /** Where the calls since the last success begin. */
  ghost predicate SinceSuccess(threshold: nat, window: int, calls: seq<Call>, m: nat) {
    && m <= |calls| && NoSuccessFrom(threshold, window, calls, m)
    && (m == 0 || (ReachedAt(threshold, window, calls, m - 1) && calls[m - 1].ok))
  }

  /** How many of the calls `m..n` reached the adapter. */
  ghost function ReachedBetween(threshold: nat, window: int, calls: seq<Call>, m: nat, n: nat): nat
    requires m <= n <= |calls|
  {
    if m == n then 0
    else ReachedBetween(threshold, window, calls, m, n - 1) +
         (if ReachedAt(threshold, window, calls, n - 1) then 1 else 0)
  }

  ghost predicate LastFailure(threshold: nat, window: int, calls: seq<Call>, i: int) {
    && ReachedAt(threshold, window, calls, i) && !calls[i].ok
    && forall j :: i < j && ReachedAt(threshold, window, calls, j) ==> calls[j].ok
  }

  lemma ReachedSnoc(threshold: nat, window: int, calls: seq<Call>, i: int)
    requires calls != [] && i < |calls| - 1
    ensures ReachedAt(threshold, window, calls, i) <==> ReachedAt(threshold, window, calls[..|calls| - 1], i)
  {
    if 0 <= i { assert calls[..|calls| - 1][..i] == calls[..i]; }
  }

  lemma {:induction false} ReachedBetweenSnoc(threshold: nat, window: int, calls: seq<Call>, m: nat, n: nat)
    requires calls != [] && m <= n < |calls|
    ensures ReachedBetween(threshold, window, calls, m, n) ==
            ReachedBetween(threshold, window, calls[..|calls| - 1], m, n)
  {
    if m < n {
      ReachedBetweenSnoc(threshold, window, calls, m, n - 1);
      ReachedSnoc(threshold, window, calls, n - 1);
    }
  }

  lemma SinceSuccessSnoc(threshold: nat, window: int, calls: seq<Call>, m: nat)
    requires calls != [] && SinceSuccess(threshold, window, calls[..|calls| - 1], m)
    ensures var n := |calls| - 1;
            SinceSuccess(threshold, window, calls,
                         if ReachedAt(threshold, window, calls, n) && calls[n].ok then |calls| else m)
  {
    forall i | i < |calls| - 1
      ensures ReachedAt(threshold, window, calls, i) <==> ReachedAt(threshold, window, calls[..|calls| - 1], i)
    {
      ReachedSnoc(threshold, window, calls, i);
    }
  }

  /** One more call counts if it reached the adapter and failed, and starts over if it succeeded. */
  lemma CountNext(threshold: nat, window: int, calls: seq<Call>)
    requires calls != [] && threshold >= 1
    ensures var n := |calls| - 1;
            Run(FRESH, threshold, window, calls).failures ==
            if !ReachedAt(threshold, window, calls, n) then Run(FRESH, threshold, window, calls[..n]).failures
            else if calls[n].ok then 0
            else Run(FRESH, threshold, window, calls[..n]).failures + 1
  {
  }

  /** The count is the number of failing adapter calls since the last success. */
  lemma {:induction false} CountReading(threshold: nat, window: int, calls: seq<Call>) returns (m: nat)
    requires threshold >= 1
    ensures SinceSuccess(threshold, window, calls, m)
    ensures Run(FRESH, threshold, window, calls).failures == ReachedBetween(threshold, window, calls, m, |calls|)
  {
    if calls == [] {
      m := 0;
    } else {
      var n := |calls| - 1;
      m := CountReading(threshold, window, calls[..n]);
      SinceSuccessSnoc(threshold, window, calls, m);
      CountNext(threshold, window, calls);
      ReachedBetweenSnoc(threshold, window, calls, m, n);
      if ReachedAt(threshold, window, calls, n) && calls[n].ok { m := n + 1; }
    }
  }

  /** The time stamp is when the last failing adapter call ended. */
  lemma {:induction false} StampReading(threshold: nat, window: int, calls: seq<Call>, i: nat)
    requires LastFailure(threshold, window, calls, i)
    ensures Run(FRESH, threshold, window, calls).lastFailureAt == calls[i].end
  {
    var n := |calls| - 1;
    if i < n {
      forall j | j < n
        ensures ReachedAt(threshold, window, calls, j) <==> ReachedAt(threshold, window, calls[..n], j)
      {
        ReachedSnoc(threshold, window, calls, j);
      }
      StampReading(threshold, window, calls[..n], i);
      assert ReachedAt(threshold, window, calls, n) ==> calls[n].ok;
    }
  }

  /** A call is refused exactly when at least `threshold` adapter calls failed since the last success
      and the last of them ended less than a window ago. */
  lemma RefusedIff(threshold: nat, window: int, calls: seq<Call>, i: nat, m: nat)
    requires threshold >= 1 && i < |calls| && SinceSuccess(threshold, window, calls[..i], m)
    ensures !Reaches(FRESH, threshold, window, calls, i) <==>
            && ReachedBetween(threshold, window, calls[..i], m, i) >= threshold
            && exists k :: LastFailure(threshold, window, calls[..i], k) && calls[i].start - calls[k].end < window
  {
    var past := calls[..i];
    var m' := CountReading(threshold, window, past);
    assert m == m';
    ClosedIffBelowThreshold(threshold, window, past);
    if ReachedBetween(threshold, window, past, m, i) >= threshold {
      var k := SomeLastFailure(threshold, window, past, m, i);
      StampReading(threshold, window, past, k);
      assert forall k' :: LastFailure(threshold, window, past, k') ==> k' == k;
      assert past[k] == calls[k];
    }
  }

  lemma {:induction false} SomeLastFailure(threshold: nat, window: int, calls: seq<Call>, m: nat, n: nat)
    returns (k: nat)
    requires m <= n <= |calls| && NoSuccessFrom(threshold, window, calls, m)
    requires ReachedBetween(threshold, window, calls, m, n) > 0
    requires forall j :: n <= j ==> !ReachedAt(threshold, window, calls, j)
    ensures LastFailure(threshold, window, calls, k)
    decreases n
  {
    if ReachedAt(threshold, window, calls, n - 1) {
      k := n - 1;
    } else {
      k := SomeLastFailure(threshold, window, calls, m, n - 1);
    }
  }

  class RedisBreaker {
    const failureThreshold: nat
    const recoveryWindowMs: int
    var mode: Mode
    var failures: nat
    var lastFailureAt: int

    ghost function View(): Breaker
      reads this
    {
      Breaker(mode, failures, lastFailureAt)
    }

    constructor (threshold: nat, windowMs: int)
      ensures View() == FRESH && failureThreshold == threshold && recoveryWindowMs == windowMs
    {
      failureThreshold, recoveryWindowMs := threshold, windowMs;
      mode, failures, lastFailureAt := Closed, 0, 0;
    }

    method AllowCall(now: int) returns (allowed: bool)
      modifies this`mode
      ensures allowed == Admits(old(View()), recoveryWindowMs, now)
      ensures View() == AfterAllow(old(View()), recoveryWindowMs, now)
      ensures allowed <==> old(mode) == Open ==> now - old(lastFailureAt) >= recoveryWindowMs
      ensures mode == if old(mode) == Open && allowed then HalfOpen else old(mode)
    {
      if mode == Closed {
        return true;
      }
      if mode == Open {
        if now - lastFailureAt >= recoveryWindowMs {
          mode := HalfOpen;
          return true;
        }
        return false;
      }
      return true;
    }

    method OnSuccess()
      modifies this`mode, this`failures
      ensures View() == AfterSuccess(old(View()))
      ensures mode == Closed && failures == 0
    {
      mode := Closed;
      failures := 0;
    }

    method OnFailure(now: int)
      modifies this
      ensures View() == AfterFailure(old(View()), failureThreshold, now)
      ensures failures == old(failures) + 1 && lastFailureAt == now
      ensures mode == if old(mode) == HalfOpen || failures >= failureThreshold then Open else old(mode)
    {
      failures := failures + 1;
      lastFailureAt := now;
      if mode == HalfOpen || failures >= failureThreshold {
        mode := Open;
      }
    }

    /** withFallback; `called` tells whether the adapter was reached. */
    method WithFallback(c: Call) returns (called: bool)
      modifies this
      ensures called == Admits(old(View()), recoveryWindowMs, c.start)
      ensures View() == AfterCall(old(View()), failureThreshold, recoveryWindowMs, c)
    {
      called := AllowCall(c.start);
      if called {
        if c.ok {
          OnSuccess();
        } else {
          OnFailure(c.end);
        }
      }
    }
  }
}
