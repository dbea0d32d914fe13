/**
 * The backoff rule of `Client.Backoff` (client.go): the retry decision and
 * the jittered exponential delay. Delays are in seconds over mathematical
 * reals; the source computes the same formula in nanoseconds with float64,
 * and the formula is homogeneous in its unit, so only rounding is lost.
 */
module BackoffPolicy {

  /** The four client settings the backoff rule reads. */
  datatype Policy = Policy(maxRetries: int, minDelay: int, maxDelay: int, factor: real)

  /** The settings under which the delay is meant to stay within its bounds. */
  predicate Sane(p: Policy) {
    0 <= p.minDelay <= p.maxDelay && p.factor >= 1.0
  }

  /** `b` raised to the natural power `n`, as `math.Pow` computes it exactly. */
  function Pow(b: real, n: nat): real {
    if n == 0 then 1.0 else b * Pow(b, n - 1)
  }

  function Min(x: real, y: real): real {
    if x <= y then x else y
  }

  /** The unclamped exponential delay `min * factor^attempts`. */
  function Raw(p: Policy, attempts: nat): real {
    p.minDelay as real * Pow(p.factor, attempts)
  }

  /** The exponential delay, clamped to the maximum delay. */
  function Ceiling(p: Policy, attempts: nat): real {
    if Raw(p, attempts) > p.maxDelay as real then p.maxDelay as real else Raw(p, attempts)
  }

  /** `rand.Float64()/2 + 0.5`, for a random draw `r`. */
  function Jitter(r: real): real {
    r / 2.0 + 0.5
  }

  /** The sleep before the next attempt, for the random draw `r`. */
  function Delay(p: Policy, attempts: nat, r: real): real {
    var min := p.minDelay as real;
    Jitter(r) * (Ceiling(p, attempts) - min) + min
  }

  lemma {:induction false} PowAtLeastOne(b: real, n: nat)
    requires b >= 1.0
    ensures Pow(b, n) >= 1.0
  {
    if n > 0 {
      PowAtLeastOne(b, n - 1);
      assert b * Pow(b, n - 1) >= 1.0 * Pow(b, n - 1);
    }
  }

  lemma {:induction false} PowMonotone(b: real, m: nat, n: nat)
    requires b >= 1.0 && m <= n
    ensures Pow(b, m) <= Pow(b, n)
  {
    if m < n {
      PowMonotone(b, m, n - 1);
      PowAtLeastOne(b, n - 1);
      assert b * Pow(b, n - 1) >= 1.0 * Pow(b, n - 1);
    }
  }

  /** Bernoulli's inequality: the power grows at least linearly. */
  lemma {:induction false} PowAtLeastLinear(b: real, n: nat)
    requires b >= 1.0
    ensures Pow(b, n) >= 1.0 + n as real * (b - 1.0)
  {
    if n > 0 {
      PowAtLeastLinear(b, n - 1);
      var q := Pow(b, n - 1);
      assert q >= 1.0 + (n - 1) as real * (b - 1.0);
      assert b * q == q + (b - 1.0) * q;
      assert (b - 1.0) * q >= (b - 1.0) * 1.0 by {
        PowAtLeastOne(b, n - 1);
      }
    }
  }

  /** The ceiling is the smaller of the maximum and the exponential delay, and never below the minimum. */
  lemma CeilingBounds(p: Policy, attempts: nat)
    requires Sane(p)
    ensures Ceiling(p, attempts) == Min(p.maxDelay as real, Raw(p, attempts))
    ensures p.minDelay as real <= Ceiling(p, attempts) <= p.maxDelay as real
  {
    var min := p.minDelay as real;
    var max := p.maxDelay as real;
    var q := Pow(p.factor, attempts);
    var raw := Raw(p, attempts);
    PowAtLeastOne(p.factor, attempts);
    assert raw == min * q;
    assert raw >= min by {
      assert min * q - min == min * (q - 1.0);
    }
    if raw > max {
      assert Ceiling(p, attempts) == max == Min(max, raw);
    } else {
      assert Ceiling(p, attempts) == raw == Min(max, raw);
    }
  }

  /** A jittered point of `[lo, hi]` lies in its upper half. */
  lemma JitterInUpperHalf(lo: real, hi: real, r: real)
    requires lo <= hi && 0.0 <= r < 1.0
    ensures lo + (hi - lo) / 2.0 <= Jitter(r) * (hi - lo) + lo <= hi
  {
    var j := Jitter(r);
    var w := hi - lo;
    assert j * w - 0.5 * w == (j - 0.5) * w;
    assert (j - 0.5) * w >= 0.0;
    assert w - j * w == (1.0 - j) * w;
    assert (1.0 - j) * w >= 0.0 * w;
    assert j * w + lo <= hi;
  }

  /**
   * The delay lies in the upper half of `[min, ceiling]`, where the ceiling
   * is `min(max, min * factor^attempts)`; so it never leaves `[min, max]`.
   */
  lemma DelayBounds(p: Policy, attempts: nat, r: real)
    requires Sane(p) && 0.0 <= r < 1.0
    ensures var min := p.minDelay as real;
            var c := Ceiling(p, attempts);
            && c == Min(p.maxDelay as real, Raw(p, attempts))
            && min + (c - min) / 2.0 <= Delay(p, attempts, r) <= c
            && min <= Delay(p, attempts, r) <= p.maxDelay as real
  {
    CeilingBounds(p, attempts);
    JitterInUpperHalf(p.minDelay as real, Ceiling(p, attempts), r);
  }

  /** The undithered ceiling never shrinks from one attempt to the next. */
  lemma CeilingMonotone(p: Policy, a: nat, b: nat)
    requires Sane(p) && a <= b
    ensures Ceiling(p, a) <= Ceiling(p, b)
  {
    PowMonotone(p.factor, a, b);
    var min := p.minDelay as real;
    assert min * Pow(p.factor, a) <= min * Pow(p.factor, b);
  }

  /** From attempt `n` on, the ceiling is the maximum delay. */
  ghost predicate SaturatedFrom(p: Policy, n: nat) {
    forall a: nat :: n <= a ==> Ceiling(p, a) == p.maxDelay as real
  }

  /** Past the attempt `n` with `n * min * (factor - 1) > max`, the ceiling is the maximum. */
  lemma CeilingBeyond(p: Policy, n: nat, a: nat)
    requires Sane(p) && p.minDelay > 0 && n <= a
    requires n as real * (p.minDelay as real * (p.factor - 1.0)) > p.maxDelay as real
    ensures Ceiling(p, a) == p.maxDelay as real
  {
    var min := p.minDelay as real;
    var g := p.factor - 1.0;
    var m := n as real;
    PowAtLeastLinear(p.factor, n);
    PowMonotone(p.factor, n, a);
    var q := Pow(p.factor, a);
    var lower := 1.0 + m * g;
    assert q >= lower;
    assert min * q >= min * lower by {
      assert min * q - min * lower == min * (q - lower);
    }
    assert min * lower == min + min * (m * g);
    assert min * (m * g) == m * (min * g);
    assert Raw(p, a) == min * q;
    assert Raw(p, a) > p.maxDelay as real;
  }

  /**
   * With a positive minimum and a factor above one, the ceiling reaches the
   * maximum delay and stays there from some attempt on.
   */
  lemma CeilingSaturates(p: Policy)
    requires Sane(p) && p.minDelay > 0 && p.factor > 1.0
    ensures exists n: nat :: SaturatedFrom(p, n)
  {
    var k := p.minDelay as real * (p.factor - 1.0);
    var x := p.maxDelay as real / k;
    var n: nat := x.Floor + 1;
    assert n as real * k > x * k == p.maxDelay as real;
    forall a: nat | n <= a
      ensures Ceiling(p, a) == p.maxDelay as real
    {
      CeilingBeyond(p, n, a);
    }
    assert SaturatedFrom(p, n);
  }
}
