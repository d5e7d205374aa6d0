/** The numeric helpers the scene and the store use: `Math.max`, `Math.min`,
    the clamp written as `Math.max(lo, Math.min(hi, x))`, and
    `THREE.MathUtils.lerp`. Numbers are modelled as `real`. */
module MathUtils {

  function Max(a: real, b: real): (r: real)
    ensures r >= a && r >= b
    ensures r == a || r == b
  {
    if a >= b then a else b
  }

  function Min(a: real, b: real): (r: real)
    ensures r <= a && r <= b
    ensures r == a || r == b
  {
    if a <= b then a else b
  }

  function Abs(x: real): (r: real)
    ensures r >= 0.0
    ensures r == x || r == -x
  {
    if x >= 0.0 then x else -x
  }

  /** `Math.max(lo, Math.min(hi, x))`: the value of [lo, hi] nearest to `x`. */
  function Clamp(x: real, lo: real, hi: real): (r: real)
    requires lo <= hi
    ensures lo <= r <= hi
    ensures lo <= x <= hi ==> r == x
    ensures x < lo ==> r == lo
    ensures x > hi ==> r == hi
  {
    Max(lo, Min(hi, x))
  }

  /** Clamping twice is clamping once, so a setter that clamps is idempotent. */
  lemma ClampIdempotent(x: real, lo: real, hi: real)
    requires lo <= hi
    ensures Clamp(Clamp(x, lo, hi), lo, hi) == Clamp(x, lo, hi)
  {
  }

  /** Clamping is monotone. */
  lemma ClampMonotone(x: real, y: real, lo: real, hi: real)
    requires lo <= hi && x <= y
    ensures Clamp(x, lo, hi) <= Clamp(y, lo, hi)
  {
  }

  /** `Math.min(Math.max(x, lo), hi)`, the other order of the two calls, gives the
      same value whenever the bounds are ordered. */
  lemma MinMaxIsClamp(x: real, lo: real, hi: real)
    requires lo <= hi
    ensures Min(Max(x, lo), hi) == Clamp(x, lo, hi)
  {
  }

  /** `THREE.MathUtils.lerp(x, y, t)`, defined there as `(1 - t) * x + t * y`.
      The remaining distance to `y` is scaled by `1 - t`. */
  function Lerp(x: real, y: real, t: real): (r: real)
    ensures r - y == (1.0 - t) * (x - y)
    ensures r == x + (y - x) * t
  {
    (1.0 - t) * x + t * y
  }

  /** For a factor in [0, 1] the step lands between the current value and the
      target (no overshoot), and the distance to the target shrinks by `1 - t`. */
  lemma LerpNoOvershoot(x: real, y: real, t: real)
    requires 0.0 <= t <= 1.0
    ensures Min(x, y) <= Lerp(x, y, t) <= Max(x, y)
    ensures Abs(Lerp(x, y, t) - y) == (1.0 - t) * Abs(x - y)
  {
    var d := Abs(x - y);
    MulNonNegative(d, t);
    MulNonNegative(d, 1.0 - t);
    assert d * (1.0 - t) == d - d * t;
  }

  lemma MulNonNegative(a: real, b: real)
    requires a >= 0.0 && b >= 0.0
    ensures a * b >= 0.0
  {
  }

  /** A target that is already reached is a fixed point. */
  lemma LerpAtTarget(y: real, t: real)
    ensures Lerp(y, y, t) == y
  {
  }

  /** `lerp` commutes with negation, which keeps mirrored parts mirrored. */
  lemma LerpNegate(x: real, y: real, t: real)
    ensures Lerp(-x, -y, t) == -Lerp(x, y, t)
  {
  }

  function Pow(b: real, n: nat): real {
    if n == 0 then 1.0 else b * Pow(b, n - 1)
  }

  lemma {:induction false} PowPositive(b: real, n: nat)
    requires b > 0.0
    ensures Pow(b, n) > 0.0
  {
    if n > 0 {
      PowPositive(b, n - 1);
      assert b * Pow(b, n - 1) > 0.0;
    }
  }

  /** The value after `n` frames of `x := lerp(x, y, t)`. */
  function Ease(x: real, y: real, t: real, n: nat): real
    decreases n
  {
    if n == 0 then x else Ease(Lerp(x, y, t), y, t, n - 1)
  }

  /** After `n` frames the distance to the target is `(1 - t)^n` times the
      initial distance. */
  lemma {:induction false} EaseDistance(x: real, y: real, t: real, n: nat)
    ensures Ease(x, y, t, n) - y == Pow(1.0 - t, n) * (x - y)
    decreases n
  {
    if n > 0 {
      var x' := Lerp(x, y, t);
      EaseDistance(x', y, t, n - 1);
      ScaleChain(Ease(x, y, t, n) - y, Pow(1.0 - t, n - 1), 1.0 - t, x' - y, x - y, Pow(1.0 - t, n));
    }
  }

  /** If `e = p·e'`, `e' = a·d` and `q = a·p` then `e = q·d`. */
  lemma ScaleChain(e: real, p: real, a: real, e': real, d: real, q: real)
    requires e == p * e' && e' == a * d && q == a * p
    ensures e == q * d
  {
    assert p * (a * d) == (a * p) * d;
  }

  /** With a factor in [0, 1) a value that starts away from its target never
      reaches it exactly: the easing is asymptotic. */
  lemma EaseNeverArrives(x: real, y: real, t: real, n: nat)
    requires 0.0 <= t < 1.0 && x != y
    ensures Ease(x, y, t, n) != y
  {
    EaseDistance(x, y, t, n);
    PowPositive(1.0 - t, n);
  }
}
