/** Decimal rounding as `BigDecimal.divide(divisor, 2, RoundingMode.HALF_UP)`
    performs it on exact decimals, modelled as `real`. */
module Redondeo {
  // ---------------------------------------------------------------------------
  // Decimal rounding (`BigDecimal.divide(divisor, 2, RoundingMode.HALF_UP)`)

  /** `x` has at most two decimals. */
  predicate DosDecimales(x: real)
  {
    (x * 100.0).Floor as real == x * 100.0
  }

  /** The value of `k` hundredths. */
  function Centesimos(k: int): (r: real)
    ensures DosDecimales(r)
    ensures r * 100.0 == k as real
  {
    var r := k as real / 100.0;
    assert r * 100.0 == k as real;
    r
  }

  /** `x` rounded to two decimals, halves away from zero. The two bounds and
      `DosDecimales` together leave exactly one possible result: the
      two-decimal value in the interval of width 0.01 around `x` whose closed
      end lies away from zero. */
  function RedondearDosDecimales(x: real): (r: real)
    ensures DosDecimales(r)
    ensures x >= 0.0 ==> x - 0.005 < r <= x + 0.005
    ensures x < 0.0 ==> x - 0.005 <= r < x + 0.005
  {
    if x >= 0.0 then Centesimos((x * 100.0 + 0.5).Floor)
    else Centesimos(-((-x * 100.0 + 0.5).Floor))
  }

  /** A value that already has two decimals is left as it is. */
  lemma RedondearConserva(x: real)
    requires DosDecimales(x)
    ensures RedondearDosDecimales(x) == x
  {
    var k := (x * 100.0).Floor;
    if x >= 0.0 {
      assert (x * 100.0 + 0.5).Floor == k;
    } else {
      assert (-x * 100.0 + 0.5).Floor == -k;
    }
  }

  lemma SueloMonotono(a: real, b: real)
    requires a <= b
    ensures a.Floor <= b.Floor
  {
  }

  /** Rounding never reverses the order of two values. */
  lemma RedondearMonotono(x: real, y: real)
    requires x <= y
    ensures RedondearDosDecimales(x) <= RedondearDosDecimales(y)
  {
    if x >= 0.0 {
      SueloMonotono(x * 100.0 + 0.5, y * 100.0 + 0.5);
    } else if y < 0.0 {
      SueloMonotono(-y * 100.0 + 0.5, -x * 100.0 + 0.5);
    }
  }
}
