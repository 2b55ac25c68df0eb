/**
 * Money is kept in whole cents. Prices, discounts and tendered amounts arrive as exact
 * rationals and are rounded to the nearest cent, ties going to the even cent, as Python's
 * round(x, 2) does.
 */
module Money {

  function RoundHalfEven(x: real): (n: int)
    ensures -0.5 <= x - n as real <= 0.5
    ensures x - n as real == 0.5 || n as real - x == 0.5 ==> n % 2 == 0
  {
    var f := x.Floor;
    var d := x - f as real;
    if d < 0.5 then f
    else if d > 0.5 then f + 1
    else if f % 2 == 0 then f
    else f + 1
  }

  function ToCents(x: real): int {
    RoundHalfEven(x * 100.0)
  }

  function Amount(cents: int): real {
    cents as real / 100.0
  }

  /** Rounding leaves an amount that is already in whole cents alone. */
  lemma WholeCents(cents: int)
    ensures ToCents(Amount(cents)) == cents
  {
    assert Amount(cents) * 100.0 == cents as real;
  }

  lemma CentError(x: real)
    ensures -0.5 <= x * 100.0 - ToCents(x) as real <= 0.5
  {
  }

  lemma AmountAdds(a: int, b: int)
    ensures Amount(a) + Amount(b) == Amount(a + b)
  {
  }

  /** Rounding keeps the order of amounts. */
  lemma RoundingIsMonotone(x: real, y: real)
    requires x <= y
    ensures RoundHalfEven(x) <= RoundHalfEven(y)
  {
    assert x.Floor <= y.Floor;
  }

  lemma NaturalCents(x: real)
    requires x >= 0.0
    ensures ToCents(x) >= 0
  {
    RoundingIsMonotone(0.0, x * 100.0);
    assert RoundHalfEven(0.0) == 0;
  }

  /** A tender survives rounding exactly when it is above half a cent. */
  lemma TenderSurvivesRounding(given: real)
    ensures ToCents(given) > 0 <==> given > 0.005
  {
    var x := given * 100.0;
    var n := RoundHalfEven(x);
    if given > 0.005 {
      assert x > 0.5;
      assert n as real > 0.0;
    } else {
      RoundingIsMonotone(x, 0.5);
      assert RoundHalfEven(0.5) == 0;
    }
  }
}
