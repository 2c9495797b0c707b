/**
 * Percentages and the colour classes chosen from them: `calcPercent` (app.js),
 * `calcularPercentual` (script.js), `getPercentClass` (app.js) and the table-cell
 * highlighting of `atualizarTabela` (script.js).
 *
 * `Math.round((n / d) * 100)` is taken over exact rationals: `Math.round(x)` is
 * `floor(x + 1/2)`, so the result is `floor((200 n + d) / (2 d))`. Floating-point
 * rounding of the quotient is not modelled.
 */
module Percent {
  import opened Wrappers
  import opened Text

  /**
   * `Math.round((n / d) * 100)` for a non-zero `d`: the integer nearest to `100 n / d`,
   * halves rounded up (towards positive infinity, as `Math.round` does).
   */
  function RoundedPercent(n: int, d: int): (r: int)
    requires d != 0
    ensures d > 0 ==> 2 * d * r <= 200 * n + d < 2 * d * r + 2 * d
    ensures d < 0 ==> -2 * d * r <= -(200 * n + d) < -2 * d * r - 2 * d
  {
    if d > 0 then FloorDiv(200 * n + d, 2 * d) else FloorDiv(-(200 * n + d), -2 * d)
  }

  /** `floor(p / q)` for a positive `q`, with the bounds that characterise it. */
  function FloorDiv(p: int, q: int): (r: int)
    requires q > 0
    ensures q * r <= p < q * r + q
  {
    var r := p / q;
    assert p == q * r + p % q;
    r
  }

  /**
   * `calcPercent(n, d)` / `calcularPercentual(parte, total)`: 0 when the denominator is
   * missing (`undefined`, `null`, `NaN`: `None`) or zero, the rounded percentage otherwise.
   */
  function CalcPercent(n: int, d: Option<int>): (r: int)
    ensures d.None? || d.value == 0 ==> r == 0
    ensures d.Some? && d.value > 0 ==> 2 * d.value * r <= 200 * n + d.value < 2 * d.value * (r + 1)
    ensures d.Some? && d.value < 0 ==> -2 * d.value * r <= -(200 * n + d.value) < -2 * d.value * (r + 1)
  {
    if d.None? || d.value == 0 then 0 else RoundedPercent(n, d.value)
  }

  /** For a part between 0 and a positive total the percentage lies between 0 and 100. */
  lemma PercentInRange(n: int, d: int)
    requires 0 <= n <= d && d > 0
    ensures 0 <= CalcPercent(n, Some(d)) <= 100
  {
    var r := CalcPercent(n, Some(d));
    assert 2 * d * r < 2 * d * 101;
    MulCancel(2 * d, r, 101);
    assert 2 * d * 0 < 2 * d * (r + 1);
    MulCancel(2 * d, 0, r + 1);
  }

  /** The percentage of the whole is exactly 100 and that of nothing is exactly 0. */
  lemma PercentEndpoints(d: int)
    requires d > 0
    ensures CalcPercent(d, Some(d)) == 100
    ensures CalcPercent(0, Some(d)) == 0
  {
    var r := CalcPercent(d, Some(d));
    assert 2 * d * r < 2 * d * 101;
    MulCancel(2 * d, r, 101);
    assert 2 * d * 100 < 2 * d * (r + 1);
    MulCancel(2 * d, 100, r + 1);
    var z := CalcPercent(0, Some(d));
    assert 2 * d * z < 2 * d * 1;
    MulCancel(2 * d, z, 1);
    assert 2 * d * 0 < 2 * d * (z + 1);
    MulCancel(2 * d, 0, z + 1);
  }

  /** A larger part of the same positive total never gives a smaller percentage. */
  lemma PercentMonotone(n1: int, n2: int, d: int)
    requires n1 <= n2 && d > 0
    ensures CalcPercent(n1, Some(d)) <= CalcPercent(n2, Some(d))
  {
    var r1 := CalcPercent(n1, Some(d));
    var r2 := CalcPercent(n2, Some(d));
    assert 2 * d * r1 < 2 * d * (r2 + 1);
    MulCancel(2 * d, r1, r2 + 1);
  }

  /** A positive factor can be cancelled from a strict inequality. */
  lemma MulCancel(k: int, a: int, b: int)
    requires k > 0 && k * a < k * b
    ensures a < b
  {
  }

  /** `getPercentClass`: at least 90 is high, at least 80 medium, anything else low. */
  function PercentClass(p: int): (r: string)
    ensures r == "percent-high" <==> p >= 90
    ensures r == "percent-medium" <==> 80 <= p < 90
    ensures r == "percent-low" <==> p < 80
  {
    if p >= 90 then "percent-high" else if p >= 80 then "percent-medium" else "percent-low"
  }

  /**
   * The class `atualizarTabela` gives a cell whose value is the number `v` (`None` for
   * `NaN`, which fails both comparisons).
   */
  function HighlightFor(v: Option<int>): (r: string)
    ensures r == "text-success fw-bold" <==> v.Some? && v.value >= 90
    ensures r == "text-warning fw-bold" <==> v.Some? && 80 <= v.value < 90
    ensures r == "text-danger fw-bold" <==> v.None? || v.value < 80
  {
    if v.Some? && v.value >= 90 then "text-success fw-bold"
    else if v.Some? && v.value >= 80 then "text-warning fw-bold"
    else "text-danger fw-bold"
  }

  /**
   * Table-cell highlighting: a cell whose text contains `%` is classified by the number
   * at its start (`parseFloat`, read here as an integer prefix); other cells get no class.
   */
  function CellHighlight(cell: string): (r: Option<string>)
    ensures r.Some? <==> '%' in cell
  {
    if '%' in cell then
      var parsed := ParseIntPrefix(cell);
      Some(HighlightFor(if parsed.Some? then Some(parsed.value.0) else None))
    else None
  }

  /** A percentage cell built as `calcularPercentual(...) + '%'` is classified by that percentage. */
  lemma PercentCellHighlight(p: int)
    ensures CellHighlight(IntToString(p) + "%") == Some(HighlightFor(Some(p)))
  {
    IntToStringRoundTrip(p, "%");
    var cell := IntToString(p) + "%";
    assert cell[|cell| - 1] == '%';
  }

  /** The table highlighting and `getPercentClass` draw the same two thresholds. */
  lemma HighlightMatchesPercentClass(p: int)
    ensures HighlightFor(Some(p)) == "text-success fw-bold" <==> PercentClass(p) == "percent-high"
    ensures HighlightFor(Some(p)) == "text-warning fw-bold" <==> PercentClass(p) == "percent-medium"
    ensures HighlightFor(Some(p)) == "text-danger fw-bold" <==> PercentClass(p) == "percent-low"
  {
  }
}
