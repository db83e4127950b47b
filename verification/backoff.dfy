/** Retry delays: capped exponential back-off, jitter and the Retry-After header. */
module Backoff {
  import opened Contracts

  /** Go's `int`, `int64` and `time.Duration` on a 64-bit platform. */
  newtype Int64 = x: int | -0x8000_0000_0000_0000 <= x < 0x8000_0000_0000_0000

  const CAP_MS: int := 60_000
  const MAX_RETRY_DELAY: int := 60 * SECOND
  const MAX_INT64: int := 0x7fff_ffff_ffff_ffff

  function Pow2(n: nat): nat {
    if n == 0 then 1 else 2 * Pow2(n - 1)
  }

  /** The documented delay 1s, 2s, 4s ... capped at 60s, in milliseconds. */
  function BackoffMs(attempt: int): int {
    if attempt <= 1 then 1000
    else if 1000 * Pow2(attempt - 1) > CAP_MS then CAP_MS
    else 1000 * Pow2(attempt - 1)
  }

  lemma {:induction false} Pow2Grows(m: nat, n: nat)
    requires m <= n
    ensures 1 <= Pow2(m) <= Pow2(n)
    decreases n
  {
    if m < n {
      Pow2Grows(m, n - 1);
    } else if n > 0 {
      Pow2Grows(n - 1, n - 1);
    }
  }

  /** Later attempts never wait less, and every base delay lies between one and sixty seconds. */
  lemma BackoffMonotone(a: int, b: int)
    requires a <= b
    ensures 1000 <= BackoffMs(a) <= BackoffMs(b) <= CAP_MS
  {
    if b > 1 {
      Pow2Grows(0, b - 1);
      if a > 1 {
        Pow2Grows(a - 1, b - 1);
        Pow2Grows(0, a - 1);
      }
    }
  }

  /**
   The doubling loop. `Int64` makes the verifier show that no intermediate
   value wraps, for every attempt number; `delay` in fact stays below 64001.
   */
  method RetryDelayMs(attempt: Int64) returns (delay: Int64)
    ensures delay as int == BackoffMs(attempt as int)
  {
    delay := 1000;
    var i: Int64 := 1;
    while i < attempt
      invariant 1 <= i && (i <= attempt || i == 1)
      invariant delay as int == 1000 * Pow2(i as int - 1)
      invariant i <= 7 && delay <= 64_000
    {
      if delay >= 60_000 {
        Pow2Grows(i as int - 1, attempt as int - 1);
        BackoffMonotone(i as int, attempt as int);
        return 60_000;
      }
      assert Pow2(6) == 64;
      assert i != 7;
      Pow2Grows(i as int, 6);
      delay := delay * 2;
      i := i + 1;
    }
    if delay > 60_000 {
      return 60_000;
    }
  }

  /** What the delay before the next attempt must be: the header if there is one, else the jitter, capped. */
  function Delay(jitter: int, header: Option<int>): int {
    var wanted := if header.Some? && header.value >= 0 then header.value else jitter;
    if wanted > MAX_RETRY_DELAY then MAX_RETRY_DELAY else wanted
  }

  /**
   `jitter` is the drawn random number, any value up to the base delay. The
   conversion to nanoseconds stays inside 64 bits and the delay inside [0, 60s].
   */
  method RetryDelay(attempt: Int64, jitter: Int64, header: Option<Int64>) returns (delay: Int64)
    requires 0 <= jitter as int <= BackoffMs(attempt as int) * MILLISECOND
    ensures delay as int == Delay(jitter as int, if header.Some? then Some(header.value as int) else None)
    ensures 0 <= delay as int <= 60_000_000_000
    ensures header.None? ==> delay == jitter
  {
    var base := RetryDelayMs(attempt);
    BackoffMonotone(attempt as int, attempt as int);
    var baseDelay := base * (MILLISECOND as Int64);
    assert baseDelay > 0;
    delay := jitter;
    if header.Some? && header.value >= 0 {
      delay := header.value;
    }
    if delay > MAX_RETRY_DELAY as Int64 {
      delay := MAX_RETRY_DELAY as Int64;
    }
  }

  /**
   The numeric form of Retry-After (section 10.2.3 of RFC 9110). A number of
   seconds whose duration does not fit in 64 bits is dropped, and only then.
   */
  method RetryAfterSeconds(seconds: Int64) returns (delay: Option<Int64>)
    requires seconds >= 0
    ensures delay.Some? <==> seconds as int * SECOND <= MAX_INT64
    ensures delay.Some? ==> delay.value as int == seconds as int * SECOND
  {
    if seconds > (0x7fff_ffff_ffff_ffff as Int64) / (SECOND as Int64) {
      return None;
    }
    return Some(seconds * (SECOND as Int64));
  }
}
