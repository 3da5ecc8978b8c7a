/** Chart layout of the journey map: the affine maps from a rating to a row
    offset and from a step index to a column offset, and the seven rating
    bands. Ratings are already-numeric reals here. */
module Geometry {

  /** The rating rows of the grid, top to bottom. */
  const ROW_VALUES: seq<int> := [5, 4, 3, 2, 1, 0, -1, -2, -3, -4, -5]
  const GRID_HEIGHT: real := 340.0
  const STEP_WIDTH: real := 225.0
  const LEFT_AXIS_WIDTH: real := 36.0
  const TOP_PADDING: real := 16.0
  const SVG_HEIGHT: real := GRID_HEIGHT + TOP_PADDING * 1.25

  /** Vertical offset of a rating: +5 sits at the top padding, -5 at the
      bottom of the grid; nothing is clamped, so a rating outside the range
      is drawn outside the grid. */
  function ValueToY(val: real): (y: real)
    ensures -5.0 <= val <= 5.0 ==> TOP_PADDING <= y <= TOP_PADDING + GRID_HEIGHT
    ensures val > 5.0 ==> y < TOP_PADDING
    ensures val < -5.0 ==> y > TOP_PADDING + GRID_HEIGHT
  {
    TOP_PADDING + ((5.0 - val) / 10.0) * GRID_HEIGHT
  }

  /** Horizontal centre of step column `index`: strictly inside that column
      and no other. */
  function StepToX(index: int): (x: real)
    ensures LEFT_AXIS_WIDTH + (index as real) * STEP_WIDTH < x < LEFT_AXIS_WIDTH + ((index + 1) as real) * STEP_WIDTH
  {
    LEFT_AXIS_WIDTH + (index as real) * STEP_WIDTH + STEP_WIDTH / 2.0
  }

  /** Width of a chart with `dataLength` step columns. */
  function TotalWidth(dataLength: nat): (w: real)
    ensures w >= LEFT_AXIS_WIDTH
    ensures dataLength > 0 ==> w > LEFT_AXIS_WIDTH + STEP_WIDTH / 2.0
  {
    LEFT_AXIS_WIDTH + (dataLength as real) * STEP_WIDTH
  }

  lemma SvgHeightIs360()
    ensures SVG_HEIGHT == 360.0
  {
  }

  lemma ValueToYEndpoints()
    ensures ValueToY(5.0) == TOP_PADDING == 16.0
    ensures ValueToY(-5.0) == TOP_PADDING + GRID_HEIGHT == 356.0
    ensures ValueToY(0.0) == (ValueToY(5.0) + ValueToY(-5.0)) / 2.0 == 186.0
  {
  }

  lemma ValueToYStrictlyDecreasing(a: real, b: real)
    requires a < b
    ensures ValueToY(a) > ValueToY(b)
  {
  }

  /** Every grid row lands inside the drawn grid, and rows are evenly spaced
      one tenth of the grid height apart. */
  lemma RowValuesInsideGrid()
    ensures |ROW_VALUES| == 11
    ensures forall i :: 0 <= i < |ROW_VALUES| ==> ROW_VALUES[i] == 5 - i
    ensures forall v :: v in ROW_VALUES ==>
      16.0 <= ValueToY(v as real) <= 356.0
    ensures forall i :: 0 <= i < |ROW_VALUES| - 1 ==>
      ValueToY(ROW_VALUES[i + 1] as real) - ValueToY(ROW_VALUES[i] as real) == GRID_HEIGHT / 10.0
  {
    forall i | 0 <= i < |ROW_VALUES|
      ensures ROW_VALUES[i] == 5 - i
    {
      assert i == 0 || i == 1 || i == 2 || i == 3 || i == 4 || i == 5
          || i == 6 || i == 7 || i == 8 || i == 9 || i == 10;
    }
  }

  lemma StepToXSpacing(i: int)
    ensures StepToX(i + 1) - StepToX(i) == STEP_WIDTH
    ensures StepToX(0) == LEFT_AXIS_WIDTH + STEP_WIDTH / 2.0 == 148.5
  {
  }

  /** The chart is the axis plus one step width per column, so it ends
      exactly at the right edge of its last column. */
  lemma TotalWidthFormula(n: nat)
    ensures TotalWidth(n) == LEFT_AXIS_WIDTH + (n as real) * STEP_WIDTH
    ensures n > 0 ==> TotalWidth(n) == StepToX(n - 1) + STEP_WIDTH / 2.0
    ensures TotalWidth(3) == 711.0
  {
  }

  /** Every column centre of an n-step chart lies strictly between the axis
      and the right edge. */
  lemma StepInsideChart(i: int, n: nat)
    requires 0 <= i < n
    ensures LEFT_AXIS_WIDTH < StepToX(i) < TotalWidth(n)
  {
  }

  // ---------------------------------------------------------------------
  // Rating labels

  /** The seven labels, from the lowest band to the highest. */
  const LABELS: seq<string> := [
    "Very Negative", "Negative", "Leans Negative", "Neutral / Mixed",
    "Leans Positive", "Positive", "Very Positive"
  ]

  /** First matching threshold wins, top-down. */
  function RatingToLabel(n: real): (r: string)
    ensures r in LABELS
    ensures r == "Very Positive" <==> n >= 4.0
    ensures r == "Positive" <==> 2.0 <= n < 4.0
    ensures r == "Leans Positive" <==> 1.0 <= n < 2.0
    ensures r == "Neutral / Mixed" <==> n == 0.0
    ensures r == "Leans Negative" <==> -1.0 <= n < 1.0 && n != 0.0
    ensures r == "Negative" <==> -3.0 <= n < -1.0
    ensures r == "Very Negative" <==> n < -3.0
  {
    if n >= 4.0 then "Very Positive"
    else if n >= 2.0 then "Positive"
    else if n >= 1.0 then "Leans Positive"
    else if n == 0.0 then "Neutral / Mixed"
    else if n >= -1.0 then "Leans Negative"
    else if n >= -3.0 then "Negative"
    else "Very Negative"
  }

  /** Position of a label in LABELS: 0 for the lowest band, 6 for the highest. */
  function LabelRank(band: string): (k: nat)
    requires band in LABELS
    ensures k < |LABELS| && LABELS[k] == band
  {
    if band == LABELS[0] then 0
    else if band == LABELS[1] then 1
    else if band == LABELS[2] then 2
    else if band == LABELS[3] then 3
    else if band == LABELS[4] then 4
    else if band == LABELS[5] then 5
    else 6
  }

  lemma RatingToLabelExamples()
    ensures RatingToLabel(4.0) == "Very Positive"
    ensures RatingToLabel(0.0) == "Neutral / Mixed"
    ensures RatingToLabel(-2.0) == "Negative"
    ensures RatingToLabel(-5.0) == "Very Negative"
  {
  }

  /** Ratings strictly between 0 and 1 fall through the `>= 1` and `== 0`
      tests and land in the negative band just below neutral. */
  lemma FractionBelowOneLeansNegative(n: real)
    requires 0.0 < n < 1.0
    ensures RatingToLabel(n) == "Leans Negative"
    ensures LabelRank(RatingToLabel(n)) < LabelRank(RatingToLabel(0.0))
  {
  }

  /** Over integer ratings the label never goes down as the rating goes up. */
  lemma LabelMonotoneOnIntegers(a: int, b: int)
    requires a <= b
    ensures LabelRank(RatingToLabel(a as real)) <= LabelRank(RatingToLabel(b as real))
  {
  }

  /** Over real ratings it does not: 0.5 is labelled below 0. */
  lemma LabelNotMonotoneOnReals()
    ensures exists a: real, b: real ::
      (a <= b && LabelRank(RatingToLabel(a)) > LabelRank(RatingToLabel(b)))
  {
    FractionBelowOneLeansNegative(0.5);
    assert LabelRank(RatingToLabel(0.0)) > LabelRank(RatingToLabel(0.5));
  }
}
