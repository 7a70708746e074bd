/** Python's `round(x, 2)`, which the calculator applies to every money amount it
    reports, taken on the exact value of its argument: to the nearest cent, and a
    value exactly halfway between two cents goes to the even one. */
module Arredondamento {

  /** `x` is a whole number of cents. */
  predicate EmCentavos(x: real) {
    (x * 100.0).Floor as real == x * 100.0
  }

  /** Python's `abs`. */
  function Abs(x: real): (r: real)
    ensures r >= 0.0 && (r == x || r == -x)
  {
    if x < 0.0 then -x else x
  }

  /** The whole number of cents nearest to `y` cents; a tie goes to the even one. */
  function CentavosMaisProximos(y: real): (n: int)
    ensures -0.5 <= n as real - y <= 0.5
    ensures n as real - y == 0.5 || n as real - y == -0.5 ==> n % 2 == 0
  {
    var f := y.Floor;
    var d := y - f as real;
    if d < 0.5 then f
    else if d > 0.5 then f + 1
    else if f % 2 == 0 then f
    else f + 1
  }

  /** `round(x, 2)`: a whole number of cents, at most half a cent from `x`. */
  function Round2(x: real): (r: real)
    ensures EmCentavos(r)
    ensures Abs(r - x) <= 0.005
    ensures x >= 0.0 ==> r >= 0.0
  {
    var n := CentavosMaisProximos(x * 100.0);
    assert (n as real / 100.0) * 100.0 == n as real;
    assert (n as real).Floor == n;
    assert n as real / 100.0 - x == (n as real - x * 100.0) / 100.0;
    n as real / 100.0
  }

  /** No whole number of cents lies closer to `x` than `Round2(x)` does. */
  lemma Round2MaisProximo(x: real, n: int)
    ensures Abs(Round2(x) - x) <= Abs(n as real / 100.0 - x)
  {
    var m := CentavosMaisProximos(x * 100.0);
    var y := x * 100.0;
    assert Round2(x) - x == (m as real - y) / 100.0;
    assert n as real / 100.0 - x == (n as real - y) / 100.0;
    if n < m {
      assert n as real <= m as real - 1.0;
    } else if n > m {
      assert n as real >= m as real + 1.0;
    }
  }

  /** An amount already in whole cents is reported unchanged. */
  lemma Round2Exato(n: int)
    ensures Round2(n as real / 100.0) == n as real / 100.0
  {
    assert (n as real / 100.0) * 100.0 == n as real;
    assert (n as real).Floor == n;
  }

  /** Rounding twice is rounding once. */
  lemma Round2Idempotente(x: real)
    ensures Round2(Round2(x)) == Round2(x)
  {
    var n := (Round2(x) * 100.0).Floor;
    assert Round2(x) == n as real / 100.0;
    Round2Exato(n);
  }

  /** Rounding keeps the order of amounts (never swaps two of them). */
  lemma Round2Monotono(x: real, y: real)
    requires x <= y
    ensures Round2(x) <= Round2(y)
  {
    var m := CentavosMaisProximos(x * 100.0);
    var n := CentavosMaisProximos(y * 100.0);
    assert x * 100.0 <= y * 100.0;
    if m > n {
      assert false;
    }
  }
}
