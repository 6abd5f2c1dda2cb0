/** TextHelpers.NormalizedToPercentageNonRounding: a similarity score shown as
    a percentage, cut (not rounded) to a number of decimal places. */
module TextHelpers {

  /** MathF.Pow(10, d), exact. */
  function Pow10(d: nat): (p: real)
    ensures p >= 1.0
  {
    if d == 0 then 1.0 else 10.0 * Pow10(d - 1)
  }

  /** x scaled up by 10^d. */
  function Scaled(x: real, d: nat): real {
    x * Pow10(d)
  }

  /** The (int) cast: truncation toward zero. */
  function Truncate(x: real): (t: int)
    ensures x >= 0.0 ==> t as real <= x < t as real + 1.0
    ensures x <= 0.0 ==> t as real - 1.0 < x <= t as real
  {
    if x >= 0.0 then x.Floor else -((-x).Floor)
  }

  /** `truncated / divideBy`: scaling back undoes the scaling by 10^d. */
  function ScaleBack(t: int, d: nat): (r: real)
    ensures Scaled(r, d) == t as real
  {
    t as real / Pow10(d)
  }

  /** The number that is printed: value * 100 scaled up by 10^decimalPlaces,
      truncated by the cast and scaled back. It is value * 100 cut toward
      zero to `decimalPlaces` places: it never overshoots the exact
      percentage, misses it by less than one unit in the last place, and
      scaled up by 10^decimalPlaces it is the whole number the cast produced. */
  function PercentageValue(value: real, decimalPlaces: nat := 2): (r: real)
    ensures value >= 0.0 ==> r <= value * 100.0 && Scaled(value * 100.0 - r, decimalPlaces) < 1.0
    ensures value <= 0.0 ==> value * 100.0 <= r && Scaled(r - value * 100.0, decimalPlaces) < 1.0
    ensures Scaled(r, decimalPlaces) == Truncate(Scaled(value * 100.0, decimalPlaces)) as real
  {
    var x := value * 100.0;
    var r := ScaleBack(Truncate(Scaled(x, decimalPlaces)), decimalPlaces);
    ScaledDifference(x, r, decimalPlaces);
    ScaledDifference(r, x, decimalPlaces);
    ScaledSign(x, decimalPlaces);
    ScaledSign(x - r, decimalPlaces);
    ScaledSign(r - x, decimalPlaces);
    r
  }

  lemma ScaledDifference(a: real, b: real, d: nat)
    ensures Scaled(a - b, d) == Scaled(a, d) - Scaled(b, d)
  {
  }

  lemma ScaledSign(a: real, d: nat)
    ensures a >= 0.0 <==> Scaled(a, d) >= 0.0
  {
  }

  /** The text: the number as .NET renders it (`render`), then "%". */
  function NormalizedToPercentageNonRounding(value: real, render: real -> string, decimalPlaces: nat := 2): (text: string)
    ensures |text| >= 1 && text[|text| - 1] == '%'
    ensures text[..|text| - 1] == render(PercentageValue(value, decimalPlaces))
  {
    render(PercentageValue(value, decimalPlaces)) + "%"
  }
}
