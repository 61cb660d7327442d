/**
 * Rounding half to even, the rule of Decimal's `quantize` and of Python's
 * `round(x, n)`, on reals.
 */
module Redondeo {
  /** The integer nearest to `y`, ties to the even one (Decimal's default rounding). */
  function RedondeoPar(y: real): (n: int)
    ensures n as real - 0.5 <= y <= n as real + 0.5
  {
    var f := y.Floor;
    var d := y - f as real;
    if d < 0.5 then f
    else if d > 0.5 then f + 1
    else if f % 2 == 0 then f
    else f + 1
  }

  lemma RedondeoMonotono(y1: real, y2: real)
    requires y1 <= y2
    ensures RedondeoPar(y1) <= RedondeoPar(y2)
  {
    var f1, f2 := y1.Floor, y2.Floor;
    assert f1 <= f2;
  }

  lemma RedondeoEntero(n: int)
    ensures RedondeoPar(n as real) == n
  {
    assert (n as real).Floor == n;
  }

  /** `x.quantize(Decimal(1) / escala)`. */
  function Cuantizar(x: real, escala: nat): real
    requires escala > 0
  {
    RedondeoPar(x * escala as real) as real / escala as real
  }

  lemma CuantizarMonotono(x1: real, x2: real, escala: nat)
    requires escala > 0 && x1 <= x2
    ensures Cuantizar(x1, escala) <= Cuantizar(x2, escala)
  {
    RedondeoMonotono(x1 * escala as real, x2 * escala as real);
  }

  /** A value with at most as many decimals as `escala` allows quantizes to itself. */
  lemma {:induction false} CuantizarExacto(x: real, n: int, escala: nat)
    requires escala > 0 && x * escala as real == n as real
    ensures Cuantizar(x, escala) == x
  {
    RedondeoEntero(n);
    assert RedondeoPar(x * escala as real) == n;
    assert n as real / escala as real == x;
  }

  lemma CuantizarCadena(x1: real, x2: real, x3: real, x4: real, escala: nat)
    requires escala > 0 && x1 <= x2 <= x3 <= x4
    ensures Cuantizar(x1, escala) <= Cuantizar(x2, escala) <= Cuantizar(x3, escala) <= Cuantizar(x4, escala)
  {
    CuantizarMonotono(x1, x2, escala);
    CuantizarMonotono(x2, x3, escala);
    CuantizarMonotono(x3, x4, escala);
  }

  /** Quantizing an already quantized value changes nothing. */
  lemma CuantizarIdempotente(x: real, escala: nat)
    requires escala > 0
    ensures Cuantizar(Cuantizar(x, escala), escala) == Cuantizar(x, escala)
  {
    var n := RedondeoPar(x * escala as real);
    assert Cuantizar(x, escala) * escala as real == n as real;
    CuantizarExacto(Cuantizar(x, escala), n, escala);
  }

  /** A quantized value lies within half a quantum of the value. */
  lemma CuantizarCerca(x: real, escala: nat)
    requires escala > 0
    ensures x * escala as real - 0.5 <= Cuantizar(x, escala) * escala as real <= x * escala as real + 0.5
  {
    var n := RedondeoPar(x * escala as real);
    assert Cuantizar(x, escala) * escala as real == n as real;
  }

  /** `round(n / total * 100, 2)`: a share of `total` as a percentage with two decimals. */
  function Porcentaje(n: int, total: int): (r: real)
    requires total > 0
    ensures n as real / total as real * 100.0 - 0.005 <= r <= n as real / total as real * 100.0 + 0.005
  {
    CuantizarCerca(n as real / total as real * 100.0, 100);
    Cuantizar(n as real / total as real * 100.0, 100)
  }

  /** Dividing by a positive integer and multiplying back gives the numerator. */
  lemma DividirYMultiplicar(n: int, total: int)
    requires total > 0
    ensures n as real / total as real * total as real == n as real
  {
  }

  /** A number whose product with a positive `t` is within half of `t` of zero is within a half of zero. */
  lemma MenosDeMedio(d: real, t: real, k: real)
    requires t > 0.0 && d * t == k && -t < 2.0 * k < t
    ensures -0.5 < d < 0.5
  {
  }

  /**
   * The percentage is `c / 100` when `c` hundredths are less than half a
   * hundredth away from `n / total * 100`.
   */
  lemma PorcentajeExacto(n: int, total: int, c: int)
    requires total > 0 && -total < 2 * (n * 10000 - c * total) < total
    ensures Porcentaje(n, total) == c as real / 100.0
  {
    var t := total as real;
    var q := n as real / t;
    DividirYMultiplicar(n, total);
    var d := q * 100.0 * 100.0 - c as real;
    var k := n * 10000 - c * total;
    assert d * t == q * t * 10000.0 - c as real * t;
    assert d * t == k as real;
    assert -t < 2.0 * k as real < t;
    MenosDeMedio(d, t, k as real);
    assert RedondeoPar(q * 100.0 * 100.0) == c;
  }
}
