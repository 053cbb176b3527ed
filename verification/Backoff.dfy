/** The retry delay of a worker: int64 nanoseconds, doubled after each failed
    attempt and capped. */
module Backoff {

  const TWO_63: int := 0x8000_0000_0000_0000
  const TWO_62: int := 0x4000_0000_0000_0000

  /** The int64 value of an integer under two's complement wrap-around. */
  function Wrap(x: int): (r: int)
    ensures -TWO_63 <= r < TWO_63
    ensures -TWO_63 <= x < TWO_63 ==> r == x
    ensures (x - r) % 0x1_0000_0000_0000_0000 == 0
  {
    (x + TWO_63) % (2 * TWO_63) - TWO_63
  }

  function Min(a: int, b: int): int {
    if a < b then a else b
  }

  /** A normalised pair of bounds: positive, ordered, and int64 values. */
  predicate Bounds(minBackoff: int, maxBackoff: int) {
    0 < minBackoff <= maxBackoff < TWO_63
  }

  /** `min(backoff*2, MaxBackoff)` on int64 values. */
  function Next(delay: int, maxBackoff: int): int {
    Min(Wrap(delay * 2), maxBackoff)
  }

  /** The delay after the (k+1)-th failed attempt, as the retry loop computes it. */
  function Delay(minBackoff: int, maxBackoff: int, k: nat): int {
    if k == 0 then minBackoff else Next(Delay(minBackoff, maxBackoff, k - 1), maxBackoff)
  }

  function Pow2(k: nat): (p: nat)
    ensures p >= 1
  {
    if k == 0 then 1 else 2 * Pow2(k - 1)
  }

  /** The delay that exponential backoff is meant to have. */
  function Capped(minBackoff: int, maxBackoff: int, k: nat): int {
    Min(minBackoff * Pow2(k), maxBackoff)
  }

  lemma CappedStep(minBackoff: int, maxBackoff: int, k: nat)
    requires Bounds(minBackoff, maxBackoff)
    ensures Capped(minBackoff, maxBackoff, k + 1) == Min(Capped(minBackoff, maxBackoff, k) * 2, maxBackoff)
    ensures 0 < Capped(minBackoff, maxBackoff, k)
  {
    var p := minBackoff * Pow2(k);
    assert minBackoff * Pow2(k + 1) == p * 2;
    assert p >= 1 by { ProductPositive(minBackoff, Pow2(k)); }
  }

  lemma ProductPositive(a: int, b: int)
    requires a >= 1 && b >= 1
    ensures a * b >= a && a * b >= b
  {
    assert a * b - a == a * (b - 1);
    assert a * b - b == b * (a - 1);
  }

  /** With a cap below 2^62 nothing overflows: delay k is MinBackoff doubled k
      times and capped, so it is positive, never above the cap and never shrinks. */
  lemma {:induction false} DelayIsCapped(minBackoff: int, maxBackoff: int, k: nat)
    requires Bounds(minBackoff, maxBackoff) && maxBackoff < TWO_62
    ensures Delay(minBackoff, maxBackoff, k) == Capped(minBackoff, maxBackoff, k)
    ensures minBackoff <= Delay(minBackoff, maxBackoff, k) <= maxBackoff
    ensures Delay(minBackoff, maxBackoff, k) <= Delay(minBackoff, maxBackoff, k + 1)
  {
    CappedStep(minBackoff, maxBackoff, k);
    if k == 0 {
      assert Capped(minBackoff, maxBackoff, 0) == minBackoff;
    } else {
      DelayIsCapped(minBackoff, maxBackoff, k - 1);
      CappedStep(minBackoff, maxBackoff, k - 1);
    }
  }

  lemma Pow2Sixty()
    ensures Pow2(62) == TWO_62
  {
    assert Pow2(10) == 1024 by {
      assert Pow2(5) == 32;
    }
    Pow2Add(10, 10);
    Pow2Add(20, 20);
    Pow2Add(40, 20);
    Pow2Add(60, 2);
  }

  lemma {:induction false} Pow2Add(a: nat, b: nat)
    ensures Pow2(a + b) == Pow2(a) * Pow2(b)
  {
    if b == 0 {
    } else {
      Pow2Add(a, b - 1);
      assert Pow2(a + b) == 2 * Pow2(a + b - 1);
      assert Pow2(a) * (2 * Pow2(b - 1)) == 2 * (Pow2(a) * Pow2(b - 1));
    }
  }

  /** Exactly when the backoff is right for ever: the loop's delays are the capped
      doublings for every attempt if and only if the cap is below 2^62. From 2^62
      on, doubling the capped delay wraps to a negative duration. */
  lemma DelayExact(minBackoff: int, maxBackoff: int)
    requires Bounds(minBackoff, maxBackoff)
    ensures (forall k: nat :: Delay(minBackoff, maxBackoff, k) == Capped(minBackoff, maxBackoff, k))
            <==> maxBackoff < TWO_62
  {
    if maxBackoff < TWO_62 {
      forall k: nat {
        DelayIsCapped(minBackoff, maxBackoff, k);
      }
    } else {
      Pow2Sixty();
      var d := Delay(minBackoff, maxBackoff, 62);
      if d == Capped(minBackoff, maxBackoff, 62) {
        ProductPositive(minBackoff, Pow2(62));
        assert TWO_62 <= d < TWO_63;
        assert Wrap(d * 2) == d * 2 - 2 * TWO_63;
        assert Delay(minBackoff, maxBackoff, 63) < 0;
        CappedStep(minBackoff, maxBackoff, 63);
      }
    }
  }

  /** The number of doublings that take `delay` to the cap. */
  function Doublings(delay: int, maxBackoff: int): (n: nat)
    requires 0 < delay
    decreases maxBackoff - delay
  {
    if delay >= maxBackoff then 0 else 1 + Doublings(delay * 2, maxBackoff)
  }

  lemma {:induction false} CappedAfter(minBackoff: int, maxBackoff: int, k: nat)
    requires Bounds(minBackoff, maxBackoff) && maxBackoff < TWO_62
    requires k >= Doublings(minBackoff, maxBackoff)
    ensures Delay(minBackoff, maxBackoff, k) == maxBackoff
  {
    DelayIsCapped(minBackoff, maxBackoff, k);
    DoublingsReach(minBackoff, maxBackoff, Doublings(minBackoff, maxBackoff));
    Pow2Monotone(Doublings(minBackoff, maxBackoff), k);
    MulMonotone(minBackoff, Pow2(Doublings(minBackoff, maxBackoff)), Pow2(k));
  }

  lemma {:induction false} DoublingsReach(delay: int, maxBackoff: int, n: nat)
    requires 0 < delay && n == Doublings(delay, maxBackoff)
    ensures delay * Pow2(n) >= maxBackoff
    decreases n
  {
    if n == 0 {
    } else {
      DoublingsReach(delay * 2, maxBackoff, n - 1);
      assert delay * Pow2(n) == delay * 2 * Pow2(n - 1);
    }
  }

  /** It is the least such number. */
  lemma {:induction false} DoublingsLeast(delay: int, maxBackoff: int, n: nat)
    requires 0 < delay
    ensures delay * Pow2(n) >= maxBackoff <==> n >= Doublings(delay, maxBackoff)
    decreases n
  {
    var least := Doublings(delay, maxBackoff);
    if n >= least {
      DoublingsReach(delay, maxBackoff, least);
      Pow2Monotone(least, n);
      MulMonotone(delay, Pow2(least), Pow2(n));
    } else if n > 0 {
      DoublingsLeast(delay * 2, maxBackoff, n - 1);
      assert delay * Pow2(n) == delay * 2 * Pow2(n - 1);
    }
  }

  lemma {:induction false} Pow2Monotone(a: nat, b: nat)
    requires a <= b
    ensures Pow2(a) <= Pow2(b)
    decreases b
  {
    if a == b {
    } else {
      Pow2Monotone(a, b - 1);
    }
  }

  lemma MulMonotone(x: int, a: int, b: int)
    requires 0 <= x && a <= b
    ensures x * a <= x * b
  {
    assert x * b - x * a == x * (b - a);
  }

  function CeilDiv(a: int, b: int): int
    requires b > 0
  {
    (a + b - 1) / b
  }

  /** The retry loop against an outage that lasts from the first attempt until time
      `outage`, with attempts that take no time: it retries at most once per
      doubling and once per MaxBackoff of outage, and the write lands less than
      MaxBackoff after the database is back. */
  method RideOutOutage(minBackoff: int, maxBackoff: int, outage: nat) returns (retries: nat, landedAt: nat)
    requires Bounds(minBackoff, maxBackoff) && maxBackoff < TWO_62
    ensures retries <= Doublings(minBackoff, maxBackoff) + (outage + maxBackoff - 1) / maxBackoff
    ensures outage <= landedAt < outage + maxBackoff
    ensures retries == 0 <==> outage == 0
  {
    var backoff := minBackoff;
    var now: int := 0;
    retries := 0;
    ghost var reach := Doublings(minBackoff, maxBackoff);
    ghost var rounds := CeilDiv(outage, maxBackoff);
    CeilNonNegative(outage, maxBackoff);
    while now < outage
      invariant 0 <= now < outage + maxBackoff
      invariant backoff == Delay(minBackoff, maxBackoff, retries)
      invariant (retries == 0 <==> now == 0) && (retries > 0 ==> outage > 0)
      invariant retries >= reach ==> now >= Span(retries - reach, maxBackoff)
      invariant retries <= reach + rounds
      decreases outage - now
    {
      DelayIsCapped(minBackoff, maxBackoff, retries);
      if retries >= reach {
        CappedAfter(minBackoff, maxBackoff, retries);
        FullDelays(retries - reach, outage, maxBackoff);
      }
      now := now + backoff;
      backoff := Next(backoff, maxBackoff);
      retries := retries + 1;
    }
    landedAt := now;
  }

  /** The time that `n` delays of length `b` take. */
  ghost function Span(n: nat, b: int): int {
    if n == 0 then 0 else Span(n - 1, b) + b
  }

  lemma {:induction false} SpanIsProduct(n: nat, b: int)
    ensures Span(n, b) == n * b
  {
    if n == 0 {
    } else {
      SpanIsProduct(n - 1, b);
      assert n * b == (n - 1) * b + b;
    }
  }

  lemma CeilNonNegative(a: nat, b: int)
    requires b > 0
    ensures 0 <= CeilDiv(a, b)
    ensures a > 0 ==> 1 <= CeilDiv(a, b)
  {
  }

  lemma FullDelays(n: nat, outage: nat, b: int)
    requires b > 0 && Span(n, b) < outage
    ensures n + 1 <= CeilDiv(outage, b)
  {
    SpanIsProduct(n, b);
    var q := CeilDiv(outage, b);
    assert q * b >= outage;
    if n + 1 > q {
      MulMonotone(b, q, n);
      assert false;
    }
  }
}
