/** The retry delay in the source's 64-bit arithmetic (internal/engine/retry.go). */
module Backoff {
  /** Nanoseconds, as time.Duration counts them. */
  const SECOND := 1_000_000_000
  const MINUTE := 60_000_000_000
  const HOUR := 3_600_000_000_000
  const TWO_63 := 0x8000_0000_0000_0000
  const TWO_64 := 0x1_0000_0000_0000_0000

  /** The value a 64-bit signed product keeps. */
  function Wrap(x: int): int {
    (x + TWO_63) % TWO_64 - TWO_63
  }

  function Pow2(n: nat): nat {
    if n == 0 then 1 else 2 * Pow2(n - 1)
  }

  function Shift(attempt: int): nat {
    if attempt < 0 then 0 else if attempt > 30 then 30 else attempt
  }

  /** The delay before jitter: the wrapped product, clamped above but not below. */
  function BaseDelay(attempt: int): int {
    var delay := Wrap(MINUTE * Pow2(Shift(attempt)));
    if delay > HOUR then HOUR else delay
  }

  /** rand.Int63n(1s) is the jitter. */
  function RetryDelay(attempt: int, jitter: int): int {
    BaseDelay(attempt) + jitter
  }

  lemma Pow2Table()
    ensures Pow2(6) == 64 && Pow2(12) == 4096 && Pow2(18) == 262144
    ensures Pow2(27) == 134217728 && Pow2(28) == 268435456 && Pow2(29) == 536870912 && Pow2(30) == 1073741824
  {
    assert Pow2(3) == 8;
    assert Pow2(6) == 64;
    assert Pow2(9) == 512;
    assert Pow2(12) == 4096;
    assert Pow2(15) == 32768;
    assert Pow2(18) == 262144;
    assert Pow2(21) == 2097152;
    assert Pow2(24) == 16777216;
    assert Pow2(27) == 134217728;
    assert Pow2(28) == 268435456;
    assert Pow2(29) == 536870912;
  }

  lemma {:induction false} Pow2Grows(m: nat, n: nat)
    requires m <= n
    ensures Pow2(m) <= Pow2(n)
  {
    if m < n { Pow2Grows(m, n - 1); }
  }

  function Min(a: int, b: int): int {
    if a < b then a else b
  }

  lemma WrapSmall(x: int)
    requires 0 <= x < TWO_63
    ensures Wrap(x) == x
  {
  }

  lemma SmallDelay(attempt: nat)
    requires attempt <= 27
    ensures BaseDelay(attempt) == Min(MINUTE * Pow2(attempt), HOUR)
  {
    Pow2Table();
    Pow2Grows(attempt, 27);
    var delay := MINUTE * Pow2(attempt);
    assert 0 <= delay <= 134217728 * MINUTE;
    WrapSmall(delay);
    hide Pow2, Wrap;
  }

  lemma LargeDelay(attempt: nat)
    requires attempt >= 30
    ensures BaseDelay(attempt) == HOUR == Min(MINUTE * Pow2(attempt), HOUR)
  {
    Pow2Table();
    Pow2Grows(30, attempt);
    hide Pow2;
    assert Wrap(MINUTE * Pow2(30)) > HOUR;
  }

  /** Outside the overflow window the delay is what the documentation says:
      the doubling minute, at most an hour. */
  lemma DelayIsDocumented(attempt: nat)
    requires attempt <= 27 || attempt >= 30
    ensures BaseDelay(attempt) == Min(MINUTE * Pow2(attempt), HOUR)
  {
    hide *;
    if attempt <= 27 { SmallDelay(attempt); } else { LargeDelay(attempt); }
  }

  /** Attempts 28 and 29 overflow to a negative product: the retry is due at once. */
  lemma DelayOverflows(attempt: int)
    requires attempt == 28 || attempt == 29
    ensures BaseDelay(attempt) < -HOUR
  {
    Pow2Table();
    assert Wrap(MINUTE * Pow2(28)) < -HOUR;
    assert Wrap(MINUTE * Pow2(29)) < -HOUR;
  }

  /** In nanoseconds: one minute, two, four, eight, sixteen, thirty-two, then an hour. */
  lemma FirstDelays(attempt: nat)
    requires attempt <= 27
    ensures BaseDelay(attempt) == match attempt
      case 0 => 60_000_000_000
      case 1 => 120_000_000_000
      case 2 => 240_000_000_000
      case 3 => 480_000_000_000
      case 4 => 960_000_000_000
      case 5 => 1_920_000_000_000
      case _ => 3_600_000_000_000
  {
    DelayIsDocumented(attempt);
    if attempt >= 6 { Pow2Grows(6, attempt); }
    Pow2Table();
    assert Pow2(5) == 32 && Pow2(4) == 16 && Pow2(3) == 8;
    hide BaseDelay;
  }

  /** The documented delay holds exactly outside the overflow window. */
  lemma DelayIsDocumentedIff(attempt: nat)
    ensures BaseDelay(attempt) == Min(MINUTE * Pow2(attempt), HOUR) <==> attempt != 28 && attempt != 29
  {
    if attempt == 28 || attempt == 29 {
      DelayOverflows(attempt);
    } else {
      DelayIsDocumented(attempt);
    }
  }

  /** Every retry the engine schedules with an effective maximum of at most 29
      waits at least a minute and less than an hour and a second. */
  lemma ScheduledDelayBounds(attempt: nat, retryMax: int, jitter: int)
    requires attempt + 1 < retryMax <= 29 && 0 <= jitter < SECOND
    ensures MINUTE <= RetryDelay(attempt, jitter) < HOUR + SECOND
  {
    DelayIsDocumented(attempt);
    Pow2Grows(0, attempt);
  }

  /** ... and 29 is the largest maximum for which that is so. */
  lemma ScheduledDelayBoundsIff(retryMax: int)
    ensures retryMax <= 29 <==>
      forall attempt: nat, jitter :: attempt + 1 < retryMax && 0 <= jitter < SECOND ==> MINUTE <= RetryDelay(attempt, jitter) < HOUR + SECOND
  {
    if retryMax <= 29 {
      forall attempt: nat, jitter | attempt + 1 < retryMax && 0 <= jitter < SECOND
        ensures MINUTE <= RetryDelay(attempt, jitter) < HOUR + SECOND
      {
        ScheduledDelayBounds(attempt, retryMax, jitter);
      }
    } else {
      DelayOverflows(28);
      assert RetryDelay(28, 0) < MINUTE;
    }
  }

  /** The sum of the delays before retries 0 .. k-1, without jitter. */
  function TotalDelay(k: nat): int {
    if k == 0 then 0 else TotalDelay(k - 1) + BaseDelay(k - 1)
  }

  lemma {:induction false} TotalDelayDoubling(k: nat)
    requires k <= 6
    ensures TotalDelay(k) == (Pow2(k) - 1) * MINUTE
  {
    if k > 0 {
      TotalDelayDoubling(k - 1);
      DelayIsDocumented(k - 1);
      Pow2Grows(k - 1, 5);
      assert Pow2(5) == 32 && Pow2(k) == 2 * Pow2(k - 1);
      hide Pow2, BaseDelay;
    }
  }

  lemma {:induction false} TotalDelayCapped(k: nat)
    requires 6 <= k <= 28
    ensures TotalDelay(k) == (63 + 60 * (k - 6)) * MINUTE
  {
    Pow2Table();
    if k == 6 {
      TotalDelayDoubling(6);
    } else {
      TotalDelayCapped(k - 1);
      DelayIsDocumented(k - 1);
      Pow2Grows(6, k - 1);
      hide Pow2, BaseDelay;
    }
  }

  function Sum(jitters: seq<int>): int {
    if |jitters| == 0 then 0 else Sum(jitters[..|jitters| - 1]) + jitters[|jitters| - 1]
  }

  function TotalWithJitter(jitters: seq<int>): int {
    if |jitters| == 0 then 0 else
    TotalWithJitter(jitters[..|jitters| - 1]) + RetryDelay(|jitters| - 1, jitters[|jitters| - 1])
  }

  /** The whole back-off of k retries: the closed form, plus up to a second each. */
  lemma {:induction false} TotalBackoff(jitters: seq<int>)
    requires |jitters| <= 28 && forall i :: 0 <= i < |jitters| ==> 0 <= jitters[i] < SECOND
    ensures var k := |jitters|;
      var base := if k <= 6 then (Pow2(k) - 1) * MINUTE else (63 + 60 * (k - 6)) * MINUTE;
      base <= TotalWithJitter(jitters) <= base + k * SECOND
  {
    if |jitters| <= 6 { TotalDelayDoubling(|jitters|); } else { TotalDelayCapped(|jitters|); }
    JitterAdds(jitters);
  }

  lemma {:induction false} JitterAdds(jitters: seq<int>)
    requires forall i :: 0 <= i < |jitters| ==> 0 <= jitters[i] < SECOND
    ensures TotalDelay(|jitters|) <= TotalWithJitter(jitters) <= TotalDelay(|jitters|) + |jitters| * SECOND
  {
    if |jitters| > 0 {
      JitterAdds(jitters[..|jitters| - 1]);
    }
  }
}
