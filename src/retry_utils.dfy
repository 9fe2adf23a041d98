/** Android `RetryUtils`: run an operation up to `maxRetries + 1` times,
    waiting `initialDelayMs * delayFactor^i` milliseconds after failed
    attempt `i` when another attempt follows. */
module RetryUtils {
  import opened Wrappers
  import opened Seqs
  import opened Arith

  const LONG_MIN: int := -0x8000_0000_0000_0000
  const LONG_MAX: int := 0x7FFF_FFFF_FFFF_FFFF

  /** What one call of the operation under `withTimeoutOrNull` comes to: a
      value, null, the timeout (which also gives null), or an exception. */
  datatype Attempt<T> = Returned(value: T) | ReturnedNull | TimedOut | Threw(message: string)

  /** `c * Math.pow(x, i)` for a whole exponent, computed exactly. */
  function Scaled(c: real, x: real, i: nat): real
  {
    if i == 0 then c else x * Scaled(c, x, i - 1)
  }

  /** `Double.toLong()`: truncation toward zero, saturated at the Long range. */
  function ToLong(x: real): int
  {
    if x >= LONG_MAX as real then LONG_MAX
    else if x <= LONG_MIN as real then LONG_MIN
    else if x >= 0.0 then x.Floor
    else -((-x).Floor)
  }

  /** The conversion saturates outside the Long range and drops the fraction,
      toward zero, inside it. */
  lemma ToLongTruncates(x: real)
    ensures LONG_MIN <= ToLong(x) <= LONG_MAX
    ensures 0.0 <= x < LONG_MAX as real ==> ToLong(x) as real <= x < ToLong(x) as real + 1.0
    ensures LONG_MIN as real < x < 0.0 ==> ToLong(x) as real - 1.0 < x <= ToLong(x) as real
    ensures x >= LONG_MAX as real ==> ToLong(x) == LONG_MAX
    ensures x <= LONG_MIN as real ==> ToLong(x) == LONG_MIN
  {
  }

  /** The conversion keeps the order. */
  lemma ToLongMonotone(x: real, y: real)
    requires x <= y
    ensures ToLong(x) <= ToLong(y)
  {
  }

  /** The delay after failed attempt `i`. */
  function DelayMs(initialDelayMs: int, delayFactor: real, i: nat): int
  {
    ToLong(Scaled(initialDelayMs as real, delayFactor, i))
  }

  /** The delays after the first `m` attempts. */
  function Delays(initialDelayMs: int, delayFactor: real, m: nat): (r: seq<int>)
    ensures |r| == m
    ensures forall i :: 0 <= i < m ==> r[i] == DelayMs(initialDelayMs, delayFactor, i)
  {
    if m == 0 then [] else Delays(initialDelayMs, delayFactor, m - 1) + [DelayMs(initialDelayMs, delayFactor, m - 1)]
  }

  /** `for (retryCount in 0..maxRetries)`: the number of attempts allowed
      (none for a negative `maxRetries`). */
  function AttemptBudget(maxRetries: int): nat
  {
    if maxRetries < 0 then 0 else maxRetries + 1
  }

  /** The first of the first `n` attempts that returns a value, or `n`. */
  function FirstSuccess<T>(outcome: nat -> Attempt<T>, n: nat): (k: nat)
    ensures k <= n
    ensures forall i :: 0 <= i < k ==> !outcome(i).Returned?
    ensures k < n ==> outcome(k).Returned?
  {
    if n == 0 then 0
    else
      var k := FirstSuccess(outcome, n - 1);
      if k < n - 1 then k else if outcome(n - 1).Returned? then n - 1 else n
  }

  /** The message of the last exception among the first `n` attempts. */
  function LastThrown<T>(outcome: nat -> Attempt<T>, n: nat): (r: Option<string>)
    ensures r.Some? ==> exists i :: 0 <= i < n && outcome(i) == Threw(r.value)
    ensures r.None? <==> forall i :: 0 <= i < n ==> !outcome(i).Threw?
  {
    if n == 0 then None
    else if outcome(n - 1).Threw? then Some(outcome(n - 1).message)
    else LastThrown(outcome, n - 1)
  }

  /** `retry(maxRetries, initialDelayMs, delayFactor, timeoutMs, operation)`,
      where `outcome(i)` is what attempt `i` gives. Besides the result it
      returns how often the operation ran, the delays waited, and the last
      exception's message. */
  method Retry<T>(maxRetries: int, initialDelayMs: int, delayFactor: real, outcome: nat -> Attempt<T>)
    returns (result: Option<T>, calls: nat, delays: seq<int>, lastError: Option<string>)
    ensures var n := AttemptBudget(maxRetries); var k := FirstSuccess(outcome, n);
      && (k < n ==> result == Some(outcome(k).value) && calls == k + 1
                    && delays == Delays(initialDelayMs, delayFactor, k))
      && (k == n ==> result == None && calls == n
                     && delays == Delays(initialDelayMs, delayFactor, Max(maxRetries, 0)))
    ensures calls <= AttemptBudget(maxRetries)
    ensures calls > 0 ==> |delays| == calls - 1
    ensures lastError == LastThrown(outcome, calls)
  {
    result, calls, delays, lastError := None, 0, [], None;
    var retryCount := 0;
    while retryCount <= maxRetries
      invariant 0 <= retryCount <= AttemptBudget(maxRetries)
      invariant calls == retryCount
      invariant FirstSuccess(outcome, retryCount) == retryCount
      invariant delays == Delays(initialDelayMs, delayFactor, Min(retryCount, Max(maxRetries, 0)))
      invariant lastError == LastThrown(outcome, retryCount)
      decreases maxRetries - retryCount
    {
      var a := outcome(retryCount);
      calls := calls + 1;
      match a {
        case Returned(v) =>
          result := Some(v);
          return;
        case Threw(m) =>
          lastError := Some(m);
        case ReturnedNull =>
        case TimedOut =>
      }
      if retryCount < maxRetries {
        delays := delays + [DelayMs(initialDelayMs, delayFactor, retryCount)];
      }
      retryCount := retryCount + 1;
    }
  }

  /** `{ if (operation()) true else null }`: false becomes null. */
  function Nullable(outcome: nat -> Attempt<bool>): nat -> Attempt<bool>
  {
    (i: nat) => if outcome(i) == Returned(false) then ReturnedNull else outcome(i)
  }

  /** `retryBoolean(...)`: true exactly when one of the allowed attempts
      returns true; the attempts stop at the first true. */
  method RetryBoolean(maxRetries: int, initialDelayMs: int, delayFactor: real, outcome: nat -> Attempt<bool>)
    returns (ok: bool, calls: nat, delays: seq<int>)
    ensures ok <==> exists i :: 0 <= i < AttemptBudget(maxRetries) && outcome(i) == Returned(true)
    ensures ok ==> (calls > 0 && outcome(calls - 1) == Returned(true)
                    && forall i :: 0 <= i < calls - 1 ==> outcome(i) != Returned(true))
    ensures !ok ==> calls == AttemptBudget(maxRetries)
    ensures calls > 0 ==> |delays| == calls - 1
  {
    var r, lastError;
    r, calls, delays, lastError := Retry(maxRetries, initialDelayMs, delayFactor, Nullable(outcome));
    ok := r.GetOr(false);
    var n := AttemptBudget(maxRetries);
    var k := FirstSuccess(Nullable(outcome), n);
    forall i | 0 <= i < k ensures outcome(i) != Returned(true) {
      assert !Nullable(outcome)(i).Returned?;
    }
    if k < n {
      assert Nullable(outcome)(k).Returned?;
      assert outcome(k) == Returned(true);
    } else {
      forall i | 0 <= i < n ensures outcome(i) != Returned(true) {
        assert !Nullable(outcome)(i).Returned?;
      }
    }
  }

  /** Doubling is exact. */
  lemma {:induction false} ScaledByTwo(c: nat, i: nat)
    ensures Scaled(c as real, 2.0, i) == (c * Pow2(i)) as real
  {
    if i > 0 {
      ScaledByTwo(c, i - 1);
      assert c * Pow2(i) == 2 * (c * Pow2(i - 1));
    }
  }

  /** With factor 2 and a non-negative initial delay, the delays double,
      up to the Long limit. */
  lemma DelayDoubles(initialDelayMs: nat, i: nat)
    ensures DelayMs(initialDelayMs, 2.0, i) == Min(initialDelayMs * Pow2(i), LONG_MAX)
  {
    ScaledByTwo(initialDelayMs, i);
  }

  /** The defaults (`maxRetries` 3, 1000 ms, factor 2) wait 1, 2 and 4 seconds. */
  lemma DefaultSchedule()
    ensures Delays(1000, 2.0, Max(3, 0)) == [1000, 2000, 4000]
  {
    DelayDoubles(1000, 0);
    DelayDoubles(1000, 1);
    DelayDoubles(1000, 2);
  }

  /** `p <= x * p` for `x >= 1` and `p >= 0`. */
  lemma MulAtLeast(x: real, p: real)
    requires x >= 1.0 && p >= 0.0
    ensures p <= x * p
  {
    assert x * p == p + (x - 1.0) * p;
  }

  /** A non-negative start and a factor of at least 1 give a non-negative
      sequence that grows. */
  lemma {:induction false} ScaledGrows(c: real, x: real, i: nat)
    requires c >= 0.0 && x >= 1.0
    ensures 0.0 <= Scaled(c, x, i) <= Scaled(c, x, i + 1)
  {
    if i > 0 {
      ScaledGrows(c, x, i - 1);
    }
    MulAtLeast(x, Scaled(c, x, i));
  }

  /** A factor of at least 1 and a non-negative initial delay never shorten
      the wait. */
  lemma DelaysNonDecreasing(initialDelayMs: nat, delayFactor: real, i: nat)
    requires delayFactor >= 1.0
    ensures 0 <= DelayMs(initialDelayMs, delayFactor, i) <= DelayMs(initialDelayMs, delayFactor, i + 1)
  {
    var a, b := Scaled(initialDelayMs as real, delayFactor, i), Scaled(initialDelayMs as real, delayFactor, i + 1);
    ScaledGrows(initialDelayMs as real, delayFactor, i);
    ToLongMonotone(0.0, a);
    ToLongMonotone(a, b);
  }
}
