/** Money and quantities in hundredths; `round(x, 2)` is rounding to the nearest whole hundredth. */
module Money {

  /** The integer nearest to `n / d`, a tie going to the even neighbour. */
  function RoundDiv(n: int, d: int): int
    requires d > 0
  {
    var q, r := n / d, n % d;
    if 2 * r < d then q else if 2 * r > d then q + 1 else if q % 2 == 0 then q else q + 1
  }

  lemma Nearest(n: int, d: int)
    requires d > 0
    ensures -d <= 2 * (d * RoundDiv(n, d)) - 2 * n <= d
  {
    var q, r := n / d, n % d;
    assert n == d * q + r;
    assert d * (q + 1) == d * q + d;
  }

  /** Rounding gives the one integer that is nearest, and on a tie the even one. */
  lemma RoundsToEven(n: int, d: int, q: int)
    requires d > 0
    ensures var gap := 2 * (d * q) - 2 * n;
            q == RoundDiv(n, d) <==> (-d < gap < d || ((gap == d || gap == -d) && q % 2 == 0))
  {
    var x := RoundDiv(n, d);
    Nearest(n, d);
    TieIsEven(n, d);
    assert d * (x + 1) == d * x + d && d * (x + 2) == d * x + 2 * d;
    assert d * (x - 1) == d * x - d && d * (x - 2) == d * x - 2 * d;
    if q > x + 1 { TimesOrdered(d, x + 2, q); }
    if q < x - 1 { TimesOrdered(d, q, x - 2); }
  }

  lemma TieIsEven(n: int, d: int)
    requires d > 0
    ensures var gap := 2 * (d * RoundDiv(n, d)) - 2 * n; gap == d || gap == -d ==> RoundDiv(n, d) % 2 == 0
  {
    var q, r := n / d, n % d;
    assert n == d * q + r;
    assert d * (q + 1) == d * q + d;
  }

  lemma TimesOrdered(d: int, a: int, b: int)
    requires d > 0 && a <= b
    ensures d * a <= d * b
  {
    assert d * (b - a) >= 0;
  }

  function Max(a: int, b: int): int { if a < b then b else a }

  function Min(a: int, b: int): int { if a < b then a else b }

  function Abs(a: int): int { if a < 0 then -a else a }

  /** Price or cost per unit times a quantity, both in hundredths. */
  function Amount(quantity: int, unit: int): int { RoundDiv(quantity * unit, 100) }

  /** Tax on an amount at a rate in hundredths of a percent. */
  function TaxOn(amount: int, rate: int): int { RoundDiv(amount * rate, 10000) }
}
