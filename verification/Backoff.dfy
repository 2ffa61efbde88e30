/** The capped exponential back-off loop shared by authentication and teleporter upload. */
module Backoff {

  const MAX_INT64: int := 0x7FFF_FFFF_FFFF_FFFF
  const MILLISECOND: int := 1_000_000
  const SECOND: int := 1000 * MILLISECOND

  /** Durations are signed 64-bit nanosecond counts. */
  type Duration = d: int | -MAX_INT64 - 1 <= d <= MAX_INT64

  /** Doubling in two's complement: the result wraps around outside the range. */
  function Double(d: Duration): (r: Duration)
    ensures r == 2 * d <==> -MAX_INT64 - 1 <= 2 * d <= MAX_INT64
  {
    if 2 * d > MAX_INT64 then 2 * d - 2 * (MAX_INT64 + 1)
    else if 2 * d < -MAX_INT64 - 1 then 2 * d + 2 * (MAX_INT64 + 1)
    else 2 * d
  }

  datatype Config = Config(maxRetries: int, initial: Duration, max: Duration)

  datatype Attempt<+E> = Succeeded | Failed(error: E)

  datatype Outcome<+E> = Ok | Exhausted(attempts: int, error: E) | Cancelled

  /** The configuration both callers use. */
  const DEFAULT_CONFIG := Config(5, 500 * MILLISECOND, 5 * SECOND)

  function NextWait(cfg: Config, wait: Duration): Duration {
    var doubled := Double(wait);
    if doubled > cfg.max then cfg.max else doubled
  }

  /** The interval waited after failed attempt number k. */
  function Wait(cfg: Config, k: nat): Duration {
    if k == 0 then cfg.initial else NextWait(cfg, Wait(cfg, k - 1))
  }

  ghost predicate OnSchedule(cfg: Config, waits: seq<Duration>) {
    forall k | 0 <= k < |waits| :: waits[k] == Wait(cfg, k)
  }

  function Sum(waits: seq<Duration>): int {
    if waits == [] then 0 else Sum(waits[..|waits| - 1]) + waits[|waits| - 1]
  }

  /** x * 2^k */
  function Scaled(x: int, k: nat): int {
    if k == 0 then x else 2 * Scaled(x, k - 1)
  }

  function Min(a: int, b: int): int {
    if a <= b then a else b
  }

  /**
   * `attempts` says how each call of the retried function ends, and `cancelled` at which
   * wait the context is done first.  `waits` lists the waits that were started.
   */
  method RetryWithBackoff<E>(cfg: Config, attempts: nat -> Attempt<E>, cancelled: nat -> bool)
    returns (outcome: Outcome<E>, calls: nat, waits: seq<Duration>)
    ensures cfg.maxRetries < 0 ==> outcome.Ok? && calls == 0 && waits == []
    ensures cfg.maxRetries >= 0 ==> 1 <= calls <= cfg.maxRetries + 1
    ensures forall i | 0 <= i < calls - 1 :: attempts(i).Failed? && !cancelled(i)
    ensures cfg.maxRetries >= 0 ==> (outcome.Ok? <==> attempts(calls - 1).Succeeded?)
    ensures outcome.Exhausted? ==>
              calls == outcome.attempts == cfg.maxRetries + 1 && attempts(calls - 1) == Failed(outcome.error)
    ensures outcome.Cancelled? ==> calls <= cfg.maxRetries && cancelled(calls - 1)
    ensures |waits| == if calls == 0 || outcome.Cancelled? then calls else calls - 1
    ensures OnSchedule(cfg, waits)
  {
    calls, waits := 0, [];
    var backOff := cfg.initial;
    var attempt := 0;
    while attempt <= cfg.maxRetries
      invariant 0 <= attempt == calls == |waits|
      invariant attempt == 0 || attempt <= cfg.maxRetries
      invariant backOff == Wait(cfg, attempt)
      invariant forall i | 0 <= i < attempt :: attempts(i).Failed? && !cancelled(i)
      invariant OnSchedule(cfg, waits)
      decreases cfg.maxRetries - attempt
    {
      var result := attempts(attempt);
      calls := calls + 1;
      if result.Succeeded? {
        return Ok, calls, waits;
      }
      if attempt == cfg.maxRetries {
        return Exhausted(attempt + 1, result.error), calls, waits;
      }
      waits := waits + [backOff];
      if cancelled(attempt) {
        return Cancelled, calls, waits;
      }
      backOff := Double(backOff);
      if backOff > cfg.max {
        backOff := cfg.max;
      }
      attempt := attempt + 1;
    }
    outcome := Ok;
  }

  lemma {:induction false} ScaledGrows(x: int, k: nat)
    requires x > 0
    ensures Scaled(x, k) > k
  {
    if k > 0 {
      ScaledGrows(x, k - 1);
    }
  }

  ghost predicate Sensible(cfg: Config) {
    0 < cfg.initial <= cfg.max && 2 * cfg.max <= MAX_INT64
  }

  ghost predicate ClosedForm(cfg: Config, k: nat) {
    Wait(cfg, k) == Min(cfg.max, Scaled(cfg.initial, k))
  }

  lemma {:induction false} WaitClosedForm(cfg: Config, k: nat)
    requires Sensible(cfg)
    ensures ClosedForm(cfg, k)
    ensures 0 < Wait(cfg, k) <= Wait(cfg, k + 1) <= cfg.max
    ensures Double(Wait(cfg, k)) == 2 * Wait(cfg, k)
  {
    if k > 0 {
      WaitClosedForm(cfg, k - 1);
    }
  }

  /**
   * Over 64-bit durations the schedule is the capped power series at every index exactly
   * when the first wait is not above the cap and doubling the cap does not overflow.
   */
  lemma ClosedFormIffSensible(cfg: Config)
    requires 0 < cfg.initial && 0 < cfg.max
    ensures (forall k: nat :: ClosedForm(cfg, k)) <==> Sensible(cfg)
  {
    if Sensible(cfg) {
      forall k: nat ensures ClosedForm(cfg, k) {
        WaitClosedForm(cfg, k);
      }
    } else if cfg.initial > cfg.max {
      assert !ClosedForm(cfg, 0);
    } else {
      var k: nat := cfg.max;
      ScaledGrows(cfg.initial, k);
      ScaledGrows(cfg.initial, k + 1);
      assert !(ClosedForm(cfg, k) && ClosedForm(cfg, k + 1));
    }
  }

  lemma {:induction false} SumOfPrefix(waits: seq<Duration>, more: seq<Duration>)
    requires waits <= more && forall k | 0 <= k < |more| :: more[k] >= 0
    ensures Sum(waits) <= Sum(more)
  {
    if waits != more {
      SumOfPrefix(waits, more[..|more| - 1]);
    }
  }

  /** With the configuration in use: at most five waits, together at most 12.5 seconds. */
  lemma DefaultTotalWait(waits: seq<Duration>)
    requires |waits| <= DEFAULT_CONFIG.maxRetries
    requires OnSchedule(DEFAULT_CONFIG, waits)
    ensures Sum(waits) <= 12 * SECOND + 500 * MILLISECOND
    ensures |waits| == DEFAULT_CONFIG.maxRetries ==> Sum(waits) == 12 * SECOND + 500 * MILLISECOND
  {
    var all := [500 * MILLISECOND, 1000 * MILLISECOND, 2000 * MILLISECOND, 4000 * MILLISECOND, 5 * SECOND];
    DefaultWaits();
    assert waits == all[..|waits|];
    SumOfPrefix(waits, all);
    assert |waits| == 5 ==> waits == all;
    assert Sum(all) == 12 * SECOND + 500 * MILLISECOND by {
      assert all[..4] == [500 * MILLISECOND, 1000 * MILLISECOND, 2000 * MILLISECOND, 4000 * MILLISECOND];
      assert all[..4][..3] == [500 * MILLISECOND, 1000 * MILLISECOND, 2000 * MILLISECOND];
      assert all[..4][..3][..2] == [500 * MILLISECOND, 1000 * MILLISECOND];
      assert Sum(all[..4][..3][..2]) == 1500 * MILLISECOND;
    }
  }

  lemma DefaultWaits()
    ensures Wait(DEFAULT_CONFIG, 0) == 500 * MILLISECOND
    ensures Wait(DEFAULT_CONFIG, 1) == 1000 * MILLISECOND
    ensures Wait(DEFAULT_CONFIG, 2) == 2000 * MILLISECOND
    ensures Wait(DEFAULT_CONFIG, 3) == 4000 * MILLISECOND
    ensures Wait(DEFAULT_CONFIG, 4) == 5 * SECOND
  {
    assert Wait(DEFAULT_CONFIG, 1) == 1000 * MILLISECOND;
    assert Wait(DEFAULT_CONFIG, 3) == 4000 * MILLISECOND;
  }
}
