/** Machine-number helpers for the CCDr controller: C++ `unsigned int` and `int`
    widths, the conversions between them, and the idealised `fabs` and `round`
    used on doubles (which the model represents as `real`). */
module Numerics {

  const TWO_32: int := 0x1_0000_0000
  const TWO_31: int := 0x8000_0000

  /** A C++ `unsigned int` (32 bits). */
  type u32 = x: int | 0 <= x < 0x1_0000_0000

  /** A C++ `int` (32 bits, two's complement). */
  type i32 = x: int | -0x8000_0000 <= x < 0x8000_0000

  /** The value an `int` takes when a comparison with an `unsigned int` converts it. */
  function AsUnsigned(x: i32): (r: u32)
    ensures 0 <= x ==> r == x
    ensures x < 0 ==> r == x + TWO_32 && r >= TWO_31
  {
    x % TWO_32
  }

  /** The value an `unsigned int` takes when it is returned as an `int` (modular). */
  function AsSigned(x: u32): (r: i32)
    ensures x < TWO_31 ==> r == x
    ensures TWO_31 <= x ==> r < 0 && r == x - TWO_32
  {
    if x < TWO_31 then x else x - TWO_32
  }

  /** The two conversions are inverse to each other. */
  lemma SignedUnsignedRoundTrip(x: u32, y: i32)
    ensures AsUnsigned(AsSigned(x)) == x
    ensures AsSigned(AsUnsigned(y)) == y
  {
  }

  /** `fabs` on the idealised reals. */
  function Abs(x: real): (r: real)
    ensures 0.0 <= r
    ensures r == x || r == -x
    ensures x <= r && -x <= r
  {
    if x < 0.0 then -x else x
  }

  function Max(x: real, y: real): (r: real)
    ensures x <= r && y <= r
    ensures r == x || r == y
  {
    if x < y then y else x
  }

  /** `round` on the idealised reals: the nearest integer, halves rounded away
      from zero (so values in (-0.5, 0) round to 0). */
  function Round(x: real): (r: int)
    ensures r as real - 0.5 <= x <= r as real + 0.5
    ensures 0.0 <= x ==> 0 <= r && x < r as real + 0.5
    ensures x < 0.0 ==> r <= 0 && r as real - 0.5 < x
  {
    if x < 0.0 then -((-x + 0.5).Floor) else (x + 0.5).Floor
  }

  lemma MulNonNegative(a: real, b: real)
    requires 0.0 <= a && 0.0 <= b
    ensures 0.0 <= a * b
  {
  }

  /** Rounding `alpha * p` with `alpha` in [0, 1] never exceeds `p`, so the edge
      budget of a model with `p` nodes is between 0 and `p`. */
  lemma {:induction false} RoundedFractionWithin(alpha: real, p: nat)
    requires 0.0 <= alpha <= 1.0
    ensures 0 <= Round(alpha * (p as real)) <= p
  {
    var q := p as real;
    var x := alpha * q;
    MulNonNegative(alpha, q);
    MulNonNegative(1.0 - alpha, q);
    assert (1.0 - alpha) * q == q - x;
    var r := Round(x);
    assert r as real < q + 1.0;
  }

  /** The edge budget `round(alpha * p)` of a model with `p` nodes. */
  function EdgeBudget(alpha: real, p: nat): (r: int)
    ensures r as real - 0.5 <= alpha * (p as real) <= r as real + 0.5
    ensures 0.0 <= alpha <= 1.0 ==> 0 <= r <= p
  {
    var r := Round(alpha * (p as real));
    assert 0.0 <= alpha <= 1.0 ==> 0 <= r <= p by {
      if 0.0 <= alpha <= 1.0 {
        RoundedFractionWithin(alpha, p);
      }
    }
    r
  }
}
