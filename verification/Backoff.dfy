/** Capped exponential backoff: the worker delays and the SQS visibility timeout. */
module Backoff {
  import opened Monetary
  import opened Model

  function Pow2(n: nat): (r: nat)
    ensures r >= 1
  {
    if n == 0 then 1 else 2 * Pow2(n - 1)
  }

  lemma {:induction false} Pow2Monotone(m: nat, n: nat)
    requires m <= n
    ensures Pow2(m) <= Pow2(n)
  {
    if m < n { Pow2Monotone(m, n - 1); }
  }

  function Min(a: int, b: int): int { if a < b then a else b }

  /** 2^(attempt - 1) seconds, at most five minutes. */
  function DelaySeconds(attempt: int): (s: nat)
    ensures 1 <= s <= 300
  {
    if attempt <= 1 then 1 else Min(Pow2(attempt - 1), 300)
  }

  lemma SmallPowers()
    ensures Pow2(0) == 1 && Pow2(1) == 2 && Pow2(2) == 4 && Pow2(3) == 8 && Pow2(4) == 16
    ensures Pow2(5) == 32 && Pow2(6) == 64 && Pow2(7) == 128 && Pow2(8) == 256 && Pow2(9) == 512
  {
    assert Pow2(2) == 4;
    assert Pow2(4) == 16;
    assert Pow2(6) == 64;
    assert Pow2(8) == 256;
  }

  lemma DelayCases(attempt: int)
    ensures attempt >= 10 ==> DelaySeconds(attempt) == 300
    ensures attempt <= 9 ==> DelaySeconds(attempt) <= 256
    ensures DelaySeconds(attempt) > 128 <==> attempt >= 9
    ensures attempt == 9 ==> DelaySeconds(attempt) == 256
  {
    SmallPowers();
    if attempt >= 10 {
      Pow2Monotone(9, attempt - 1);
    } else if 1 < attempt < 9 {
      Pow2Monotone(attempt - 1, 7);
    }
  }

  const FIVE_MINUTES: int64 := 300_000_000_000

  /** `backoff` of the reference worker, repeated in the outbox worker: the loop computes the
      closed form without overflow, jitter adds at most a quarter and nothing at the cap. The
      delay passes the documented five minutes exactly when the ninth attempt draws more than 44
      seconds of jitter. */
  method WorkerBackoff(attempt: int, jitter: int64 -> int64) returns (delay: int64)
    requires forall m: int64 :: m > 0 ==> 0 <= jitter(m) < m
    ensures var base := DelaySeconds(attempt) * SECOND;
            delay as int == if base == FIVE_MINUTES as int then base
                            else base + jitter((base / 4 + 1) as int64) as int
    ensures DelaySeconds(attempt) * SECOND <= delay as int <= 320 * SECOND
    ensures delay > FIVE_MINUTES <==> attempt == 9 && jitter(64_000_000_001) > 44_000_000_000
  {
    delay := 1_000_000_000;
    var i := 1;
    SmallPowers();
    while i < attempt && delay < FIVE_MINUTES
      invariant 1 <= i && (i <= attempt || i == 1)
      invariant delay as int == Min(Pow2(i - 1), 300) * SECOND
    {
      delay := delay * 2;
      if delay > FIVE_MINUTES {
        delay := FIVE_MINUTES;
      }
      i := i + 1;
    }
    if i < attempt {
      Pow2Monotone(i - 1, attempt - 1);
    }
    DelayCases(attempt);
    if delay == FIVE_MINUTES {
      return;
    }
    delay := delay + jitter(delay / 4 + 1);
  }

  /** Go's `int32`. */
  newtype int32 = x: int | -0x8000_0000 <= x <= 0x7FFF_FFFF

  function VisibilitySeconds(received: int): nat {
    if received <= 1 then 5 else Min(5 * Pow2(received - 1), 300)
  }

  /** `retryVisibilitySeconds`. */
  method RetryVisibility(received: int) returns (seconds: int32)
    ensures seconds as int == VisibilitySeconds(received)
    ensures 5 <= seconds <= 300
  {
    seconds := 5;
    var attempt := 1;
    while attempt < received && seconds < 300
      invariant 1 <= attempt && (attempt <= received || attempt == 1)
      invariant seconds as int == Min(5 * Pow2(attempt - 1), 300)
    {
      seconds := seconds * 2;
      if seconds > 300 {
        seconds := 300;
      }
      attempt := attempt + 1;
    }
    if attempt < received {
      Pow2Monotone(attempt - 1, received - 1);
    }
  }

  /** A message received more often is never retried sooner. */
  lemma VisibilityMonotone(a: int, b: int)
    requires a <= b
    ensures VisibilitySeconds(a) <= VisibilitySeconds(b)
  {
    if a > 1 { Pow2Monotone(a - 1, b - 1); }
  }

  /** Seconds that must pass before the next attempt after `n` reschedules, jitter aside. */
  function TotalDelay(n: nat): nat {
    if n == 0 then 0 else TotalDelay(n - 1) + DelaySeconds(n)
  }

  lemma {:induction false} TotalDelayFrom9(n: nat)
    requires n >= 9
    ensures TotalDelay(n) == 511 + 300 * (n - 9)
  {
    if n == 9 {
      SmallPowers();
      assert TotalDelay(3) == 7;
      assert TotalDelay(6) == 63;
      assert TotalDelay(9) == 511;
    } else {
      TotalDelayFrom9(n - 1);
      DelayCases(n);
    }
  }

  /** 24 hours less the first second leave room for 295 delays, not for 296. */
  lemma DelaysWithinTtl(n: nat)
    ensures TotalDelay(n) < 24 * 3600 - 1 <==> n <= 295
  {
    if n >= 9 {
      TotalDelayFrom9(n);
    } else {
      TotalDelayMonotone(n, 9);
      TotalDelayFrom9(9);
    }
  }

  lemma {:induction false} TotalDelayMonotone(m: nat, n: nat)
    requires m <= n
    ensures TotalDelay(m) <= TotalDelay(n)
  {
    if m < n { TotalDelayMonotone(m, n - 1); }
  }

  /** The worker's delays before jitter: 1, 2, 4, ... 256 and then 300 seconds. */
  lemma DelayTable(attempt: int)
    ensures attempt <= 1 ==> DelaySeconds(attempt) == 1
    ensures 1 <= attempt < 9 ==> DelaySeconds(attempt + 1) == 2 * DelaySeconds(attempt)
    ensures attempt > 9 ==> DelaySeconds(attempt) == 300
  {
    DelayCases(attempt);
    DelayCases(attempt + 1);
    SmallPowers();
  }

  /** The visibility timeouts: 5, 10, 20, ... 160 and then 300 seconds. */
  lemma VisibilityTable(received: int)
    ensures received <= 1 ==> VisibilitySeconds(received) == 5
    ensures 1 <= received < 6 ==> VisibilitySeconds(received + 1) == 2 * VisibilitySeconds(received)
    ensures received > 6 ==> VisibilitySeconds(received) == 300
  {
    SmallPowers();
    if received > 6 {
      Pow2Monotone(6, received - 1);
    } else if received > 1 {
      Pow2Monotone(received - 1, 5);
      Pow2Monotone(received, 6);
    }
  }
}
