/** The retry delay `onError` asks the host for (OpenAIController.js:295). */
module Backoff {
  import opened Values

  const MAX_DELAY: int := 120000
  const DEFAULT_INTERVAL: int := 5000
  /** The number of failures after which the delay starts to grow. */
  const GRACE: int := 12
  /** From this many failures on, `onError` takes the controller offline. */
  const OFFLINE_AFTER: int := 3

  /** `config.error_interval || 5000`: an absent or zero interval gives the default. The
      last clause ties this to the same `||` that resolves the request parameters. */
  function Base(errorInterval: Option<int>): (b: int)
    ensures errorInterval.Some? && errorInterval.value != 0 ==> b == errorInterval.value
    ensures errorInterval.None? || errorInterval.value == 0 ==> b == DEFAULT_INTERVAL
    ensures Num(b as real) == Or(if errorInterval.Some? then Num(errorInterval.value as real) else Undefined,
                                 Num(DEFAULT_INTERVAL as real))
  {
    if errorInterval.Some? && errorInterval.value != 0 then errorInterval.value else DEFAULT_INTERVAL
  }

  function Min(a: int, b: int): int { if a <= b then a else b }
  function Max(a: int, b: int): int { if a >= b then a else b }

  /** `Math.min(120000, base * Math.max(1, failures - 12))`, for the already incremented
      failure count. */
  function Delay(failures: int, errorInterval: Option<int>): (d: int)
    ensures d <= MAX_DELAY
    ensures failures <= GRACE + 1 ==> d == Min(MAX_DELAY, Base(errorInterval))
    ensures Base(errorInterval) > 0 ==> d > 0
    ensures failures > GRACE ==> d == Min(MAX_DELAY, Base(errorInterval) * (failures - GRACE))
  {
    var b := Base(errorInterval);
    var steps := Max(1, failures - GRACE);
    Positive(b, steps);
    Min(MAX_DELAY, b * steps)
  }

  lemma Positive(b: int, n: int)
    requires n >= 1
    ensures b > 0 ==> b * n > 0
    ensures b * n >= b || b < 0
  {
    if b > 0 {
      assert b * n == b * (n - 1) + b;
      assert b * (n - 1) >= 0;
    }
  }

  /** With a non-negative base the delay never shrinks as failures accumulate. */
  lemma DelayMonotone(f1: int, f2: int, errorInterval: Option<int>)
    requires f1 <= f2 && Base(errorInterval) >= 0
    ensures Delay(f1, errorInterval) <= Delay(f2, errorInterval)
  {
    var b := Base(errorInterval);
    var s1, s2 := Max(1, f1 - GRACE), Max(1, f2 - GRACE);
    assert s1 <= s2;
    assert b * s2 == b * s1 + b * (s2 - s1);
    assert b * (s2 - s1) >= 0;
  }

  /** With the default interval: 65000 ms at 25 failures, the cap from 36 failures on. */
  lemma DefaultSchedule(failures: int)
    ensures Delay(25, None) == 65000
    ensures failures >= 36 ==> Delay(failures, None) == MAX_DELAY
  {
    if failures >= 36 {
      assert DEFAULT_INTERVAL * (failures - GRACE) == 120000 + DEFAULT_INTERVAL * (failures - 36);
    }
  }
}
