/** Arithmetic shared by the limiters and the load test. Floats are modelled as reals. */
module Reals {

  function Min(a: real, b: real): real { if a < b then a else b }

  function Max(a: real, b: real): real { if a > b then a else b }

  /** Python's `round(x, 2)`: to the nearest hundredth, ties to the even one. */
  function Round2(x: real): real {
    var f := (x * 100.0).Floor;
    var d := x * 100.0 - f as real;
    (if d < 0.5 || (d == 0.5 && f % 2 == 0) then f as real else f as real + 1.0) / 100.0
  }

  lemma Scale(a: real, b: real, k: real)
    requires a <= b && k >= 0.0
    ensures a * k <= b * k
  {}

  lemma Cancel(a: real, b: real, c: real)
    requires c > 0.0
    ensures a <= b <==> a * c <= b * c
  {}

  lemma NonNegative(a: real, b: real)
    requires a >= 0.0 && b >= 0.0
    ensures a * b >= 0.0
  {}

  /** Rounding moves a number by at most half a hundredth, and not below a twentieth. */
  lemma RoundIsNear(x: real)
    ensures -0.005 <= Round2(x) - x <= 0.005
    ensures x >= 0.05 ==> Round2(x) >= 0.05
    ensures Round2(0.05) == 0.05
  {
    var y := x * 100.0;
    assert Round2(x) * 100.0 == y.Floor as real || Round2(x) * 100.0 == y.Floor as real + 1.0;
    assert 0.05 * 100.0 == 5.0;
  }
}
