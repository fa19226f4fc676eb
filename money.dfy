// Money as the planners compute it with `Decimal`: exact sums and products, and
// `quantize(Decimal("0.01"))`, which rounds to whole cents with ties to the even cent
// (the default rounding of Python's decimal context).
module Money {
  import opened Quantizer

  /** A whole number of cents. */
  predicate IsCents(x: real)
  {
    x * 100.0 == (x * 100.0).Floor as real
  }

  /** `x.quantize(Decimal("0.01"))`. */
  function Quantize(x: real): (r: real)
    ensures x - 0.005 <= r <= x + 0.005
    ensures IsCents(r)
  {
    var c := PyRound(x * 100.0);
    var r := c as real / 100.0;
    assert r * 100.0 == c as real;
    assert (r * 100.0).Floor == c;
    r
  }

  /** Quantizing an amount already in cents leaves it as it is. */
  lemma QuantizeCents(x: real)
    requires IsCents(x)
    ensures Quantize(x) == x
  {
    PyRoundOfInt((x * 100.0).Floor);
  }

  lemma QuantizeMonotone(x: real, y: real)
    requires x <= y
    ensures Quantize(x) <= Quantize(y)
  {
    PyRoundMonotone(x * 100.0, y * 100.0);
  }

  lemma CentsSum(x: real, y: real)
    requires IsCents(x) && IsCents(y)
    ensures IsCents(x + y)
  {
    assert (x + y) * 100.0 == ((x * 100.0).Floor + (y * 100.0).Floor) as real;
  }

  /** The share of the cost estimate the mover pays: 30% when the employer covers
      the rest, all of it otherwise. */
  function Share(employerCovers: bool): real
  {
    if employerCovers then 0.30 else 1.00
  }

  lemma ZeroCents()
    ensures IsCents(0.0) && Quantize(0.0) == 0.0
  {
    QuantizeCents(0.0);
  }
}
