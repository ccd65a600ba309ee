/** The growing delays between retries against the Kubernetes API. */
module Backoff {

  const MAX_INT64: int := 0x7FFF_FFFF_FFFF_FFFF
  const SECOND: int := 1_000_000_000
  const MAX_SLEEP: int := 300 * SECOND
  const MAX_FIBONACCI: int := 400

  /** The next pair of delays; a pair whose sum is too large is kept, a negative one is reset. */
  function GetNextFibonacciValues(m: int, n: int): (int, int) {
    if m < 0 || n < 0 then (0, 1) else if m + n > MAX_FIBONACCI then (m, n) else (n, m + n)
  }

  function GetSleepDuration(base: int, multiplier: int): int
    requires 0 < base <= MAX_INT64
  {
    if multiplier > MAX_INT64 / base then MAX_SLEEP
    else if base * multiplier > MAX_SLEEP then MAX_SLEEP
    else base * multiplier
  }

  function Fib(k: nat): nat {
    if k < 2 then k else Fib(k - 2) + Fib(k - 1)
  }

  /** The pair after k retries, from the pair a run of retries starts with. */
  function After(m: int, n: int, k: nat): (int, int) {
    if k == 0 then (m, n)
    else
      var (a, b) := After(m, n, k - 1);
      GetNextFibonacciValues(a, b)
  }

  function Index(first: nat, k: nat): nat {
    if first + k < 13 then first + k else 13
  }

  lemma FibValues()
    ensures Fib(13) == 233 && Fib(14) == 377 && Fib(12) == 144
  {
    assert Fib(6) == 8 && Fib(7) == 13;
    assert Fib(8) == 21 && Fib(9) == 34;
    assert Fib(10) == 55 && Fib(11) == 89;
  }

  lemma {:induction false} FibGrows(j: nat, k: nat)
    requires j <= k
    ensures Fib(j) <= Fib(k)
  {
    if j < k {
      FibGrows(j, k - 1);
      assert k >= 2 ==> Fib(k) == Fib(k - 2) + Fib(k - 1);
    }
  }

  lemma NextPair(i: nat)
    requires i <= 13
    ensures GetNextFibonacciValues(Fib(i), Fib(i + 1)) ==
            if i < 13 then (Fib(i + 1), Fib(i + 2)) else (Fib(i), Fib(i + 1))
    ensures Fib(i + 1) <= 377
  {
    FibValues();
    FibGrows(i + 1, 14);
    if i < 13 {
      FibGrows(i + 2, 14);
    }
  }

  /**
    A pair with a negative value starts over; any other stays non-negative, and its second value
    never falls or passes the limit.
   */
  lemma NextIsSafe(m: int, n: int)
    ensures var next := GetNextFibonacciValues(m, n);
            if m < 0 || n < 0 then next == (0, 1)
            else 0 <= next.0 && n <= next.1 && (next == (m, n) || (next == (n, m + n) && m + n <= 400))
  {
  }

  /**
    Both starting pairs the code uses, (0, 1) and (1, 1), run through the Fibonacci sequence and
    stay at 233 and 377.
   */
  lemma {:induction false} DelaysAreFibonacci(m: int, n: int, first: nat, k: nat)
    requires first <= 1 && m == Fib(first) && n == Fib(first + 1)
    ensures After(m, n, k) == (Fib(Index(first, k)), Fib(Index(first, k) + 1))
    ensures Fib(Index(first, k) + 1) <= 377
  {
    NextPair(Index(first, k));
    if k > 0 {
      DelaysAreFibonacci(m, n, first, k - 1);
      NextPair(Index(first, k - 1));
    }
  }

  /** The product never leaves the range of a 64-bit integer, and a larger multiplier never gives a shorter sleep. */
  lemma SleepIsSafe(base: int, a: int, b: int)
    requires 0 < base <= MAX_INT64 && 0 <= a <= b
    ensures 0 <= GetSleepDuration(base, a) <= GetSleepDuration(base, b) <= MAX_SLEEP
    ensures a <= MAX_INT64 / base ==> 0 <= base * a <= MAX_INT64
  {
    if a <= MAX_INT64 / base {
      Monotone(base, a, MAX_INT64 / base);
    }
    Monotone(base, a, b);
  }

  /** The sleep is the product, or five minutes if the product is longer, even where it does not fit 64 bits. */
  lemma SleepIsProduct(base: int, m: int)
    requires 0 < base <= MAX_INT64 && 0 <= m
    ensures GetSleepDuration(base, m) == if base * m <= 300_000_000_000 then base * m else 300_000_000_000
  {
    var q := MAX_INT64 / base;
    if m > q {
      Monotone(base, q + 1, m);
      assert base * (q + 1) > MAX_INT64;
    }
  }

  lemma Monotone(base: int, a: int, b: int)
    requires 0 < base && 0 <= a <= b
    ensures 0 <= base * a <= base * b
  {
    assert base * b == base * a + base * (b - a);
    assert 0 <= base * (b - a);
  }

  lemma DelaysGrow(base: int, delays: seq<int>)
    requires 0 < base <= MAX_INT64
    requires forall i :: 0 <= i < |delays| ==> delays[i] == GetSleepDuration(base, Fib(Index(1, i) + 1))
    ensures forall i, j :: 0 <= i <= j < |delays| ==> 0 <= delays[i] <= delays[j] <= MAX_SLEEP
  {
    forall i, j | 0 <= i <= j < |delays|
      ensures 0 <= delays[i] <= delays[j] <= MAX_SLEEP
    {
      FibGrows(Index(1, i) + 1, Index(1, j) + 1);
      SleepIsSafe(base, Fib(Index(1, i) + 1), Fib(Index(1, j) + 1));
    }
  }

  /** How an attempt to stream ends, and whether the context is cancelled during the sleep that follows a failure. */
  datatype Attempt = Streamed | Failed | FailedAndCancelled

  /** Streaming stdin; `attempt` says how the i-th attempt goes. */
  method StreamStdinWithRetry(base: int, retryCount: int, attempt: nat -> Attempt)
    returns (ok: bool, attempts: nat, delays: seq<int>)
    requires 0 < base <= MAX_INT64
    ensures attempts <= if retryCount > 0 then retryCount else 0
    ensures ok <==> attempts > 0 && attempt(attempts - 1).Streamed?
    ensures forall i :: 0 <= i < attempts - 1 ==> attempt(i).Failed?
    ensures !ok && attempts < retryCount ==> attempts > 0 && attempt(attempts - 1).FailedAndCancelled?
    ensures attempts - 1 <= |delays| <= attempts
    ensures forall i :: 0 <= i < |delays| ==> delays[i] == GetSleepDuration(base, Fib(Index(1, i) + 1))
    ensures forall i, j :: 0 <= i <= j < |delays| ==> 0 <= delays[i] <= delays[j] <= MAX_SLEEP
  {
    var prevDelay, curDelay := 1, 1;
    var retries := retryCount;
    ok, attempts, delays := false, 0, [];
    while retries > 0
      invariant retryCount > 0 ==> attempts + retries == retryCount && retries > 0
      invariant retryCount <= 0 ==> attempts == 0 && retries == retryCount
      invariant !ok && |delays| == attempts
      invariant (prevDelay, curDelay) == After(1, 1, attempts)
      invariant forall i :: 0 <= i < attempts ==> attempt(i).Failed?
      invariant forall i :: 0 <= i < |delays| ==> delays[i] == GetSleepDuration(base, Fib(Index(1, i) + 1))
    {
      var outcome := attempt(attempts);
      attempts := attempts + 1;
      if outcome.Streamed? {
        ok := true;
        break;
      }
      if retries == 1 {
        break;
      }
      assert Fib(1) == 1 && Fib(2) == 1;
      DelaysAreFibonacci(1, 1, 1, attempts - 1);
      delays := delays + [GetSleepDuration(base, curDelay)];
      if outcome.FailedAndCancelled? {
        break;
      }
      var next := GetNextFibonacciValues(prevDelay, curDelay);
      prevDelay, curDelay := next.0, next.1;
      retries := retries - 1;
    }
    DelaysGrow(base, delays);
  }
}
