/**
 * The value mapper of the slider drag button: pure arithmetic that turns the
 * vertical drag distance into a percentage of the travel, a value in the
 * configured range, and the text shown in the tooltip.
 *
 * JavaScript numbers are modelled as exact reals; `Math.min`, `Math.max` and
 * `Math.round` are written out below.
 */
module ValueMapper {

  /** JavaScript `Math.min` on two numbers. */
  function Min(a: real, b: real): (r: real)
    ensures r <= a && r <= b
    ensures r == a || r == b
  {
    if a <= b then a else b
  }

  /** JavaScript `Math.max` on two numbers. */
  function Max(a: real, b: real): (r: real)
    ensures a <= r && b <= r
    ensures r == a || r == b
  {
    if a <= b then b else a
  }

  /** `Math.max(lo, Math.min(hi, x))`: `x` pulled into the interval `[lo, hi]`. */
  function Clamp(x: real, lo: real, hi: real): (r: real)
    requires lo <= hi
    ensures lo <= r <= hi
    ensures lo <= x <= hi ==> r == x
    ensures x < lo ==> r == lo
    ensures hi < x ==> r == hi
  {
    Max(lo, Min(hi, x))
  }

  /**
   * JavaScript `Math.round`: the nearest integer, halves rounded towards
   * positive infinity. The two bounds determine the result uniquely.
   */
  function Round(x: real): (r: int)
    ensures x - 0.5 < r as real <= x + 0.5
  {
    (x + 0.5).Floor
  }

  lemma RoundIsUnique(x: real, k: int)
    requires x - 0.5 < k as real <= x + 0.5
    ensures k == Round(x)
  {
  }

  /** `Math.round(x * 10) / 10`: `x` to one decimal place. */
  function RoundTenth(x: real): (r: real)
    ensures x - 0.05 < r <= x + 0.05
    ensures (r * 10.0).Floor as real == r * 10.0
  {
    var k := Round(x * 10.0);
    assert (k as real / 10.0) * 10.0 == k as real;
    k as real / 10.0
  }

  /**
   * Share of the travel covered, in percent:
   * `Math.min(100, Math.max(0, (dragDistance / maxDragDistance) * 100))`.
   * The source divides without a guard, so the model asks for a positive
   * maximum.
   */
  function Percentage(dragDistance: real, maxDragDistance: real): (r: real)
    requires maxDragDistance > 0.0
    ensures 0.0 <= r <= 100.0
    ensures 0.0 <= dragDistance <= maxDragDistance ==> r * maxDragDistance == dragDistance * 100.0
    ensures dragDistance <= 0.0 ==> r == 0.0
    ensures maxDragDistance <= dragDistance ==> r == 100.0
  {
    var raw := (dragDistance / maxDragDistance) * 100.0;
    Min(100.0, Max(0.0, raw))
  }

  /** A longer drag never shows a smaller percentage. */
  lemma PercentageMonotone(d1: real, d2: real, maxDragDistance: real)
    requires maxDragDistance > 0.0
    requires d1 <= d2
    ensures Percentage(d1, maxDragDistance) <= Percentage(d2, maxDragDistance)
  {
    var q1, q2 := d1 / maxDragDistance, d2 / maxDragDistance;
    assert q1 * maxDragDistance == d1 && q2 * maxDragDistance == d2;
    assert (q2 - q1) * maxDragDistance == d2 - d1;
    assert q1 <= q2;
  }

  /**
   * `getNumericValue`: `minValue + (percentage / 100) * (maxValue - minValue)`.
   * The result always lies between the two configured bounds, whichever of
   * them is larger, reaches each end of the range at each end of the travel,
   * and in between grows linearly with the distance:
   * `r = minValue + dragDistance / maxDragDistance * (maxValue - minValue)`.
   */
  function ScaledValue(dragDistance: real, maxDragDistance: real, minValue: real, maxValue: real): (r: real)
    requires maxDragDistance > 0.0
    ensures minValue <= maxValue ==> minValue <= r <= maxValue
    ensures maxValue <= minValue ==> maxValue <= r <= minValue
    ensures dragDistance <= 0.0 ==> r == minValue
    ensures maxDragDistance <= dragDistance ==> r == maxValue
    ensures 0.0 <= dragDistance <= maxDragDistance ==>
      r * maxDragDistance == minValue * maxDragDistance + dragDistance * (maxValue - minValue)
  {
    var p := Percentage(dragDistance, maxDragDistance);
    var w := maxValue - minValue;
    assert (p / 100.0) * 100.0 == p;
    assert ((p / 100.0) * w) * maxDragDistance == ((p * maxDragDistance) / 100.0) * w;
    minValue + (p / 100.0) * w
  }

  /**
   * With an ordered range, the value does not decrease as the button is
   * dragged further.
   */
  lemma ScaledValueMonotone(d1: real, d2: real, maxDragDistance: real, minValue: real, maxValue: real)
    requires maxDragDistance > 0.0
    requires minValue <= maxValue
    requires d1 <= d2
    ensures ScaledValue(d1, maxDragDistance, minValue, maxValue) <= ScaledValue(d2, maxDragDistance, minValue, maxValue)
  {
    PercentageMonotone(d1, d2, maxDragDistance);
    var a := Percentage(d1, maxDragDistance) / 100.0;
    var b := Percentage(d2, maxDragDistance) / 100.0;
    var w := maxValue - minValue;
    MulNonneg(b - a, w);
    calc {
      ScaledValue(d2, maxDragDistance, minValue, maxValue) - ScaledValue(d1, maxDragDistance, minValue, maxValue);
      (minValue + b * w) - (minValue + a * w);
      (b - a) * w;
    }
  }

  /** The product of two non-negative numbers is non-negative. */
  lemma MulNonneg(x: real, y: real)
    requires 0.0 <= x && 0.0 <= y
    ensures 0.0 <= x * y
  {
  }

  /** What the tooltip shows: `calculateValue`'s result. */
  datatype Display<T> =
    | PercentText(percent: int)   // `Math.round(percentage) + '%'`; the '%' suffix is presentation
    | Number(value: real)         // the scaled value to one decimal place
    | Formatted(output: T)        // whatever the host's formatter returned

  /**
   * `calculateValue`: the tooltip content for the configured `valueFormat`.
   * "value" shows the scaled value to one decimal, "custom" hands the scaled
   * value to the host's formatter, and "percentage" as well as every other
   * string shows the rounded percentage.
   */
  function CalculateValue<T(==)>(valueFormat: string, dragDistance: real, maxDragDistance: real,
                                 minValue: real, maxValue: real, formatter: real -> T): (r: Display<T>)
    requires maxDragDistance > 0.0
    ensures valueFormat == "value" ==>
      r.Number? &&
      ScaledValue(dragDistance, maxDragDistance, minValue, maxValue) - 0.05 < r.value
        <= ScaledValue(dragDistance, maxDragDistance, minValue, maxValue) + 0.05 &&
      (r.value * 10.0).Floor as real == r.value * 10.0
    ensures valueFormat == "custom" ==>
      r == Formatted(formatter(ScaledValue(dragDistance, maxDragDistance, minValue, maxValue)))
    ensures valueFormat != "value" && valueFormat != "custom" ==>
      r.PercentText? && 0 <= r.percent <= 100 &&
      Percentage(dragDistance, maxDragDistance) - 0.5 < r.percent as real
        <= Percentage(dragDistance, maxDragDistance) + 0.5
  {
    var percentage := Percentage(dragDistance, maxDragDistance);
    if valueFormat == "percentage" then
      PercentText(Round(percentage))
    else if valueFormat == "value" then
      Number(RoundTenth(ScaledValue(dragDistance, maxDragDistance, minValue, maxValue)))
    else if valueFormat == "custom" then
      Formatted(formatter(ScaledValue(dragDistance, maxDragDistance, minValue, maxValue)))
    else
      PercentText(Round(percentage))
  }
}
