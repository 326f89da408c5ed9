/** Numeric helpers shared by the model: clamps, JavaScript's Math.round and `%` on reals,
    and the transcendental functions, which the model receives as an oracle. */
module Numeric {

  function Min(a: real, b: real): (r: real)
    ensures r <= a && r <= b && (r == a || r == b)
  {
    if a <= b then a else b
  }

  function Max(a: real, b: real): (r: real)
    ensures r >= a && r >= b && (r == a || r == b)
  {
    if a >= b then a else b
  }

  /** Math.max(lo, Math.min(hi, x)) */
  function Clamp(x: real, lo: real, hi: real): (r: real)
    requires lo <= hi
    ensures lo <= r <= hi
    ensures lo <= x <= hi ==> r == x
  {
    Max(lo, Min(hi, x))
  }

  function Abs(x: int): (r: nat)
    ensures r == x || r == -x
  {
    if x < 0 then -x else x
  }

  /** Truncation toward zero, as JavaScript's `%` uses it. */
  function Trunc(x: real): (r: int)
    ensures x >= 0.0 ==> r as real <= x < r as real + 1.0
    ensures x < 0.0 ==> r as real - 1.0 < x <= r as real
  {
    if x >= 0.0 then x.Floor else -((-x).Floor)
  }

  /** JavaScript's `a % b` on numbers: the remainder has the sign of `a`. */
  function JsRem(a: real, b: real): (r: real)
    requires b != 0.0
    ensures a >= 0.0 && b > 0.0 ==> 0.0 <= r < b
    ensures 0.0 <= a < b ==> r == a
  {
    TruncQuotient(a, b);
    a - b * (Trunc(a / b) as real)
  }

  lemma TruncQuotient(a: real, b: real)
    requires b != 0.0
    ensures a >= 0.0 && b > 0.0 ==> 0.0 <= a - b * (Trunc(a / b) as real) < b
    ensures 0.0 <= a < b ==> Trunc(a / b) == 0
  {
    var x := a / b;
    var qr := Trunc(x) as real;
    assert x * b == a;
    if a >= 0.0 && b > 0.0 {
      if x < 0.0 {
        MulStrict(x, 0.0, b);
      }
      MulMonotone(qr, x, b);
      BelowNextMultiple(a, b, x, qr);
      assert b * qr == qr * b;
    }
    if 0.0 <= a < b {
      if x >= 1.0 {
        MulMonotone(1.0, x, b);
      }
      if x < 0.0 {
        MulMonotone(x, 0.0, b);
      }
      assert 0.0 <= qr < 1.0;
    }
  }

  lemma BelowNextMultiple(a: real, b: real, x: real, qr: real)
    requires b > 0.0 && x * b == a && x < qr + 1.0
    ensures a < qr * b + b
  {
    MulStrict(x, qr + 1.0, b);
    assert (qr + 1.0) * b == qr * b + b;
  }

  lemma MulMonotone(x: real, y: real, b: real)
    requires x <= y && b >= 0.0
    ensures x * b <= y * b
  {
    assert (y - x) * b >= 0.0;
  }

  lemma MulStrict(x: real, y: real, b: real)
    requires x < y && b > 0.0
    ensures x * b < y * b
  {
    assert (y - x) * b > 0.0;
  }

  /** Math.round: halves round toward +infinity. */
  function Round(x: real): (r: int)
    ensures x - 0.5 < r as real <= x + 0.5
  {
    (x + 0.5).Floor
  }

  /** JavaScript's `x || d` for a number that is present: 0 is falsy, so the fallback replaces it
      and every other value is kept. A missing or NaN value is an `Option` at the call site and
      is replaced there before this is applied. */
  function OrElse(x: real, d: real): (r: real)
    ensures x != 0.0 ==> r == x
    ensures x == 0.0 ==> r == d
  {
    if x != 0.0 then x else d
  }

  /** Math.hypot, Math.sqrt, Math.pow, Math.log, Math.atan2, Math.cos and Math.sin. Their values
      are not definable in Dafny's real arithmetic, so every operation that uses them takes them
      as a parameter; `Sound` states the few facts the proofs rely on. */
  datatype MathLib = MathLib(
    hypot: (real, real) -> real,
    sqrt: real -> real,
    pow: (real, real) -> real,
    log: real -> real,
    atan2: (real, real) -> real,
    cos: real -> real,
    sin: real -> real)

  ghost predicate Sound(m: MathLib) {
    && (forall x, y :: m.hypot(x, y) >= 0.0)
    && (forall x :: m.sqrt(x) >= 0.0)
    && (forall x :: 0.0 < x <= 1.0 ==> m.log(x) <= 0.0)
  }

  const Pi: real := 3.141592653589793

  /** `xs.reduce((a, b) => a + b, 0)` */
  function Sum(xs: seq<real>): real {
    if xs == [] then 0.0 else Sum(xs[..|xs| - 1]) + xs[|xs| - 1]
  }

  lemma {:induction false} SumNonNegative(xs: seq<real>)
    requires forall i :: 0 <= i < |xs| ==> xs[i] >= 0.0
    ensures Sum(xs) >= 0.0
  {
    if xs != [] {
      SumNonNegative(xs[..|xs| - 1]);
    }
  }
}
