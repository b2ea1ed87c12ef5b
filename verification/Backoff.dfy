/** Retry delays of the Relay and of the consumer: two routines for the same capped
    exponential. Durations are 64-bit nanosecond counts; factors are exact reals. */
module Backoff {
  import opened Types

  const INT64_MAX: int := 0x7FFF_FFFF_FFFF_FFFF

  function Pow2(n: nat): (p: int)
    ensures p > 0
  {
    if n == 0 then 1 else 2 * Pow2(n - 1)
  }

  /** The delay before jitter: base doubled once per earlier attempt, capped. */
  function Capped(base: Time, maximum: Time, doublings: nat): (d: Time) {
    Min(maximum, base * Pow2(doublings))
  }

  /** One-based attempts; anything below one counts as the first. */
  function Doublings(attempt: int): nat {
    if attempt < 1 then 0 else attempt - 1
  }

  lemma {:induction false} Pow2Grows(a: nat, b: nat)
    requires a <= b
    ensures Pow2(a) <= Pow2(b)
    decreases b - a
  {
    if a < b { Pow2Grows(a, b - 1); }
  }

  lemma DoublingReaches(base: Time, maximum: Time, a: nat, b: nat)
    requires base > 0 && a <= b && base * Pow2(a) >= maximum
    ensures base * Pow2(b) >= maximum
  {
    Pow2Grows(a, b);
    assert base * Pow2(a) <= base * Pow2(b);
  }

  /** Later attempts never wait less. */
  lemma DelaysNeverShrink(base: Time, maximum: Time, a: nat, b: nat)
    requires base > 0 && a <= b
    ensures Capped(base, maximum, a) <= Capped(base, maximum, b)
  {
    Pow2Grows(a, b);
    assert base * Pow2(a) <= base * Pow2(b);
  }

  /** The consumer's doubling loop. Every intermediate value fits 64 bits. */
  method RetryCap(attempt: int, base: Time, maximum: Time) returns (capDelay: Time)
    requires 0 < base <= INT64_MAX && 0 < maximum <= INT64_MAX
    ensures capDelay == Capped(base, maximum, Doublings(attempt))
    ensures 0 < capDelay <= maximum
  {
    var n := if attempt < 1 then 1 else attempt;
    capDelay := base;
    var current := 1;
    while current < n && capDelay < maximum
      invariant 1 <= current <= n && 0 < capDelay <= INT64_MAX
      invariant capDelay == base * Pow2(current - 1) || (capDelay == maximum && base * Pow2(n - 1) >= maximum)
      decreases n - current
    {
      if capDelay > maximum / 2 {
        DoublingReaches(base, maximum, current, n - 1);
        capDelay := maximum;
        break;
      }
      assert base * Pow2(current) == 2 * (base * Pow2(current - 1));
      assert capDelay * 2 <= INT64_MAX;
      capDelay := capDelay * 2;
      current := current + 1;
    }
    if capDelay >= maximum && capDelay == base * Pow2(current - 1) {
      DoublingReaches(base, maximum, current - 1, n - 1);
    }
    if capDelay > maximum { capDelay := maximum; }
  }

  /** The Relay's branch form, in exact arithmetic. */
  function CappedExp(attempt: int, base: Time, maximum: Time): (d: Time) {
    if base <= 0 then 0
    else if maximum < base then maximum
    else if attempt <= 0 then base
    else if attempt > 62 then maximum
    else if Pow2(attempt) as real >= maximum as real / base as real then maximum
    else base * Pow2(attempt)
  }

  lemma RatioTest(base: Time, maximum: Time, p: int)
    requires base > 0
    ensures p as real >= maximum as real / base as real <==> base * p >= maximum
  {
    var b, m, q := base as real, maximum as real, p as real;
    assert (base * p) as real == b * q;
    assert m == (m / b) * b;
    if q >= m / b { assert q * b >= (m / b) * b; }
    if q < m / b { assert q * b < (m / b) * b; }
  }

  lemma TenDoublings(n: nat)
    ensures Pow2(n + 10) == 1024 * Pow2(n)
  {
    assert Pow2(n + 10) == 2 * Pow2(n + 9) == 4 * Pow2(n + 8) == 8 * Pow2(n + 7) == 16 * Pow2(n + 6);
    assert Pow2(n + 6) == 2 * Pow2(n + 5) == 4 * Pow2(n + 4) == 8 * Pow2(n + 3) == 16 * Pow2(n + 2);
    assert Pow2(n + 2) == 2 * Pow2(n + 1) == 4 * Pow2(n);
  }

  /** 2^63 is past the 64-bit range. */
  lemma Pow2Of63()
    ensures Pow2(63) == INT64_MAX + 1
  {
    assert Pow2(3) == 8 by { assert Pow2(0) == 1 && Pow2(1) == 2 && Pow2(2) == 4; }
    TenDoublings(3);
    TenDoublings(13);
    TenDoublings(23);
    TenDoublings(33);
    TenDoublings(43);
    TenDoublings(53);
  }

  /** Both routines compute the capped exponential, and so agree with each other. */
  lemma BackoffsAgree(attempt: int, base: Time, maximum: Time)
    requires 0 < base <= maximum <= INT64_MAX
    ensures CappedExp(Doublings(attempt), base, maximum) == Capped(base, maximum, Doublings(attempt))
  {
    var n := Doublings(attempt);
    if n > 62 {
      Pow2Of63();
      Pow2Grows(63, n);
      assert base * Pow2(n) >= Pow2(n);
    } else if n > 0 {
      RatioTest(base, maximum, Pow2(n));
    }
  }

  /** Clamp a sample to the unit interval. */
  function Unit(sample: real): (f: real)
    ensures 0.0 <= f <= 1.0
  {
    if sample < 0.0 then 0.0 else if sample > 1.0 then 1.0 else sample
  }

  /** Full jitter: the Relay's delay, truncated to whole nanoseconds. */
  function RelayDelay(attempt: int, base: Time, maximum: Time, sample: real): (d: Time) {
    var cap := CappedExp(Doublings(attempt), base, maximum);
    if cap <= 0 then 0 else (Unit(sample) * cap as real).Floor
  }

  /** Proportional jitter: the consumer's delay around its cap. */
  function ConsumerDelay(cap: Time, jitter: real, sample: real): (d: Time) {
    ((1.0 - jitter + jitter * Unit(sample)) * cap as real).Floor
  }

  lemma FactorStaysBelow(factor: real, cap: Time)
    requires 0.0 <= factor <= 1.0 && cap >= 0
    ensures 0 <= (factor * cap as real).Floor <= cap
  {
    var c := cap as real;
    assert 0.0 <= factor * c <= c;
  }

  lemma CapIsPositive(base: Time, maximum: Time, n: nat)
    requires 0 < base <= maximum
    ensures 0 < Capped(base, maximum, n) <= maximum
  {
    assert base * Pow2(n) > 0;
  }

  /** Full jitter never makes a delay negative or longer than its cap. */
  lemma RelayJitterStaysBelowCap(attempt: int, base: Time, maximum: Time, sample: real)
    requires 0 < base <= maximum <= INT64_MAX
    ensures 0 <= RelayDelay(attempt, base, maximum, sample) <= Capped(base, maximum, Doublings(attempt)) <= maximum
  {
    BackoffsAgree(attempt, base, maximum);
    CapIsPositive(base, maximum, Doublings(attempt));
    FactorStaysBelow(Unit(sample), Capped(base, maximum, Doublings(attempt)));
  }

  lemma ProportionalFactor(jitter: real, f: real)
    requires 0.0 <= jitter <= 1.0 && 0.0 <= f <= 1.0
    ensures 1.0 - jitter <= 1.0 - jitter + jitter * f <= 1.0
  {
    assert 0.0 <= jitter * f;
    assert jitter * f <= jitter * 1.0;
  }

  /** Proportional jitter stays between its floor and the cap. */
  lemma ConsumerJitterStaysBelowCap(cap: Time, jitter: real, sample: real)
    requires cap >= 0 && 0.0 <= jitter <= 1.0
    ensures 0 <= ConsumerDelay(cap, jitter, sample) <= cap
    ensures jitter == 0.0 ==> ConsumerDelay(cap, jitter, sample) == cap
  {
    ProportionalFactor(jitter, Unit(sample));
    FactorStaysBelow(1.0 - jitter + jitter * Unit(sample), cap);
  }

  /** A whole number of nanoseconds just at or below an exact amount. */
  predicate Truncates(d: Time, exact: real) {
    d as real <= exact < d as real + 1.0
  }

  /** Both jitters cut exactly the share of the cap that the sample picks: the Relay's from
      nothing up, the consumer's from what its jitter leaves. */
  lemma JitterIsExact(attempt: int, base: Time, maximum: Time, jitter: real, sample: real)
    requires 0 < base <= maximum <= INT64_MAX && 0.0 <= sample <= 1.0
    ensures var cap := Capped(base, maximum, Doublings(attempt)) as real;
      && Truncates(RelayDelay(attempt, base, maximum, sample), sample * cap)
      && Truncates(ConsumerDelay(Capped(base, maximum, Doublings(attempt)), jitter, sample),
                   (1.0 - jitter) * cap + jitter * sample * cap)
    ensures sample == 1.0 ==> RelayDelay(attempt, base, maximum, sample) == Capped(base, maximum, Doublings(attempt))
    ensures sample == 0.0 ==> RelayDelay(attempt, base, maximum, sample) == 0
  {
    BackoffsAgree(attempt, base, maximum);
    CapIsPositive(base, maximum, Doublings(attempt));
    var cap := Capped(base, maximum, Doublings(attempt)) as real;
    assert (1.0 - jitter + jitter * sample) * cap == (1.0 - jitter) * cap + jitter * sample * cap;
  }

  /** Samples outside the unit interval count as its ends. */
  lemma SamplesAreClamped(attempt: int, base: Time, maximum: Time, cap: Time, jitter: real, sample: real)
    ensures sample <= 0.0 ==> RelayDelay(attempt, base, maximum, sample) == RelayDelay(attempt, base, maximum, 0.0)
    ensures sample >= 1.0 ==> RelayDelay(attempt, base, maximum, sample) == RelayDelay(attempt, base, maximum, 1.0)
    ensures sample <= 0.0 ==> ConsumerDelay(cap, jitter, sample) == ConsumerDelay(cap, jitter, 0.0)
    ensures sample >= 1.0 ==> ConsumerDelay(cap, jitter, sample) == ConsumerDelay(cap, jitter, 1.0)
  {}
}
