/** Capped exponential backoff with jitter. */
module Backoff {

  function Pow2(k: nat): (r: nat)
    ensures r >= 1
  {
    if k == 0 then 1 else 2 * Pow2(k - 1)
  }

  /** Durations are whole nanoseconds; jitter is the draw from [0, 1). */
  method BackoffDelay(attempt0: int, base: nat, max: nat, jitter: real) returns (d: nat)
    requires 0.0 <= jitter < 1.0
    ensures d == Delay(attempt0, base, max, jitter)
    ensures var doubled := base * Pow2(if attempt0 < 1 then 0 else attempt0 - 1);
            var drawn := (jitter * (if doubled > max then max else doubled) as real).Floor;
            d == if drawn < base then base else drawn
  {
    var attempt := attempt0;
    if attempt < 1 {
      attempt := 1;
    }
    var exp := base as real * Pow2(attempt - 1) as real;
    ExactProduct(base, Pow2(attempt - 1));
    assert exp == (base * Pow2(attempt - 1)) as real;
    if exp > max as real {
      exp := max as real;
    }
    ShareExactly(jitter, Ceiling(attempt0, base, max), exp);
    d := (jitter * exp).Floor;
    if d < base {
      d := base;
    }
  }

  lemma ShareExactly(jitter: real, span: nat, exp: real)
    requires 0.0 <= jitter < 1.0 && exp == span as real
    ensures 0 <= (jitter * exp).Floor == Share(jitter, span)
  {
    ShareBounds(jitter, exp);
  }

  lemma ExactProduct(a: nat, b: nat)
    ensures a as real * b as real == (a * b) as real
  {}

  function Ceiling(attempt: int, base: nat, max: nat): nat {
    var exp := base * Pow2((if attempt < 1 then 1 else attempt) - 1);
    if exp > max then max else exp
  }

  /** A jittered share of a span, in whole nanoseconds. */
  function Share(jitter: real, span: nat): (d: nat)
    requires 0.0 <= jitter < 1.0
    ensures d <= span
  {
    ShareBounds(jitter, span as real);
    (jitter * span as real).Floor
  }

  lemma ShareBounds(jitter: real, span: real)
    requires 0.0 <= jitter < 1.0 && span >= 0.0
    ensures 0.0 <= jitter * span <= span
  {}

  function Delay(attempt: int, base: nat, max: nat, jitter: real): nat
    requires 0.0 <= jitter < 1.0
  {
    var d := Share(jitter, Ceiling(attempt, base, max));
    if d < base then base else d
  }

  lemma ScaledAtLeast(base: nat, factor: nat)
    requires factor >= 1
    ensures base * factor >= base
  {}

  /** The window of every draw: at least base, at most the doubled base and at most max. */
  lemma DelayWindow(attempt: int, base: nat, max: nat, jitter: real)
    requires 0.0 <= jitter < 1.0 && base <= max
    ensures base <= Delay(attempt, base, max, jitter) <= max
    ensures attempt >= 1 ==> Delay(attempt, base, max, jitter) <= base * Pow2(attempt - 1)
    ensures attempt <= 1 ==> Delay(attempt, base, max, jitter) == base
  {
    ScaledAtLeast(base, Pow2((if attempt < 1 then 1 else attempt) - 1));
  }

  /** The cap holds exactly when the configured base does not exceed it. */
  lemma CapHoldsIff(attempt: int, base: nat, max: nat, jitter: real)
    requires 0.0 <= jitter < 1.0
    ensures Delay(attempt, base, max, jitter) <= max <==> base <= max
  {
    assert Ceiling(attempt, base, max) <= max;
  }

  lemma Doubling(base: nat, p: nat)
    ensures base * (p - 1) + base * p == base * (2 * p - 1)
  {}

  lemma Stretch(k: int, span: nat)
    ensures (k + 1) * span == k * span + span
  {}

  const NS_PER_MS := 1_000_000

  /** Due times are whole milliseconds. */
  function DelayMs(attempt: int, base: nat, max: nat, jitter: real): nat
    requires 0.0 <= jitter < 1.0
  {
    Delay(attempt, base, max, jitter) / NS_PER_MS
  }

  /** The smallest draw waits for the base. */
  lemma LeastDelay(attempt: int, base: nat, max: nat)
    ensures DelayMs(attempt, base, max, 0.0) == base / NS_PER_MS
  {
    assert Share(0.0, Ceiling(attempt, base, max)) == 0;
  }

  lemma ShareIsSmaller(jitter: real, span: nat)
    requires 0.0 <= jitter < 1.0 && span > 0
    ensures Share(jitter, span) < span
  {
    assert jitter * span as real < span as real;
  }

  lemma WholeShare(d: nat, span: nat)
    requires d < span
    ensures var jitter := d as real / span as real; 0.0 <= jitter < 1.0 && Share(jitter, span) == d
  {
    assert (d as real / span as real) * span as real == d as real;
  }

  /** Which delays of attempt k can be drawn: the base, and all that lie below both the cap and the
      base doubled k - 1 times. */
  lemma DelayDrawnIff(k: int, base: nat, max: nat, d: nat)
    requires k >= 1 && d >= base
    ensures (exists jitter: real :: 0.0 <= jitter < 1.0 && Delay(k, base, max, jitter) == d)
            <==> d == base || (d < max && d < base * Pow2(k - 1))
  {
    var span := Ceiling(k, base, max);
    if jitter: real :| 0.0 <= jitter < 1.0 && Delay(k, base, max, jitter) == d {
      if span > 0 {
        ShareIsSmaller(jitter, span);
      }
    }
    if d == base {
      assert Share(0.0, span) == 0 && Delay(k, base, max, 0.0) == d;
    } else if d < max && d < base * Pow2(k - 1) {
      WholeShare(d, span);
      assert Delay(k, base, max, d as real / span as real) == d;
    }
  }

  lemma {:induction false} Pow2Grows(a: nat, b: nat)
    requires a <= b
    ensures Pow2(a) <= Pow2(b)
    decreases b
  {
    if a < b {
      Pow2Grows(a, b - 1);
    }
  }

  lemma Scale(span: nat, a: nat, b: nat)
    requires a <= b
    ensures span * a <= span * b
  {}
}
