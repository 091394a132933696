/** The height rule of the text control: the height the text layout engine
    measures for the current text, clamped between the height of the minimum
    and the height of the maximum number of lines. Heights are points, modelled
    as `real` (floating-point rounding is not modelled). */
module Sizing {

  /** A length that cannot be negative, such as a font's line height. */
  type Length = r: real | 0.0 <= r

  function Max(a: real, b: real): (m: real)
    ensures a <= m && b <= m && (m == a || m == b)
  {
    if a >= b then a else b
  }

  function Min(a: real, b: real): (m: real)
    ensures m <= a && m <= b && (m == a || m == b)
  {
    if a <= b then a else b
  }

  /** The height of `lines` lines of text of the given line height. */
  function LinesHeight(lineHeight: real, lines: int): real
  {
    lineHeight * lines as real
  }

  /** Taller lines or more lines never give a smaller height. */
  lemma LinesHeightMonotone(lineHeight: real, fewer: int, more: int)
    requires 0.0 <= lineHeight && fewer <= more
    ensures LinesHeight(lineHeight, fewer) <= LinesHeight(lineHeight, more)
  {
    assert LinesHeight(lineHeight, more) - LinesHeight(lineHeight, fewer)
        == lineHeight * (more - fewer) as real;
  }

  /** `idealHeight`: the measured height raised to the height of `minLines`
      lines and then cut down to the height of `maxLines` lines. */
  function IdealHeight(lineHeight: real, minLines: int, maxLines: int, measured: real): (h: real)
    // never above the ceiling, whatever the text and the line counts
    ensures h <= LinesHeight(lineHeight, maxLines)
    // never below the floor while the floor is not above the ceiling
    ensures LinesHeight(lineHeight, minLines) <= LinesHeight(lineHeight, maxLines) ==>
              LinesHeight(lineHeight, minLines) <= h
    // a measurement that already fits is reported as it is
    ensures LinesHeight(lineHeight, minLines) <= measured <= LinesHeight(lineHeight, maxLines) ==>
              h == measured
    // text too tall for the ceiling reports the ceiling
    ensures LinesHeight(lineHeight, maxLines) <= measured ==> h == LinesHeight(lineHeight, maxLines)
    // text shorter than the floor reports the floor, if the floor fits
    ensures measured <= LinesHeight(lineHeight, minLines) <= LinesHeight(lineHeight, maxLines) ==>
              h == LinesHeight(lineHeight, minLines)
    // a floor above the ceiling (maximum lowered below minimum) pins the height to the ceiling
    ensures LinesHeight(lineHeight, maxLines) < LinesHeight(lineHeight, minLines) ==>
              h == LinesHeight(lineHeight, maxLines)
  {
    var small := LinesHeight(lineHeight, minLines);
    var big := LinesHeight(lineHeight, maxLines);
    Min(Max(measured, small), big)
  }

  /** With a non-negative line height and `minLines <= maxLines` the ideal
      height lies between the heights of the two line counts. */
  lemma IdealHeightBetweenLineCounts(lineHeight: real, minLines: int, maxLines: int, measured: real)
    requires 0.0 <= lineHeight && minLines <= maxLines
    ensures LinesHeight(lineHeight, minLines) <= IdealHeight(lineHeight, minLines, maxLines, measured)
    ensures IdealHeight(lineHeight, minLines, maxLines, measured) <= LinesHeight(lineHeight, maxLines)
  {
    LinesHeightMonotone(lineHeight, minLines, maxLines);
  }

  /** With a non-negative line height and positive line counts the ideal
      height is never negative, even when the measurement is, and even when
      the maximum has been lowered below the minimum. */
  lemma IdealHeightNonNegative(lineHeight: real, minLines: int, maxLines: int, measured: real)
    requires 0.0 <= lineHeight && 1 <= minLines && 1 <= maxLines
    ensures 0.0 <= IdealHeight(lineHeight, minLines, maxLines, measured)
  {
    LinesHeightMonotone(lineHeight, 0, minLines);
    LinesHeightMonotone(lineHeight, 0, maxLines);
  }

  /** `atMaxHeight`: the ideal height has reached the height of `maxLines`
      lines. */
  function AtMaxHeight(lineHeight: real, minLines: int, maxLines: int, measured: real): (r: bool)
    // since the ideal height never exceeds the ceiling, `>=` is equality
    ensures r <==> IdealHeight(lineHeight, minLines, maxLines, measured) == LinesHeight(lineHeight, maxLines)
    // at the ceiling exactly when the text is too tall or the floor is at or above the ceiling
    ensures r <==> (LinesHeight(lineHeight, maxLines) <= measured
                    || LinesHeight(lineHeight, maxLines) <= LinesHeight(lineHeight, minLines))
  {
    IdealHeight(lineHeight, minLines, maxLines, measured) >= LinesHeight(lineHeight, maxLines)
  }

  /** A worked example: line height 20, between 2 and 6 lines. One line of text is raised to 40, eight lines are cut to
      120 (and that is the maximum), three lines give 60. */
  lemma DefaultLineCountsExample()
    ensures IdealHeight(20.0, 2, 6, 20.0) == 40.0
    ensures IdealHeight(20.0, 2, 6, 160.0) == 120.0 && AtMaxHeight(20.0, 2, 6, 160.0)
    ensures IdealHeight(20.0, 2, 6, 60.0) == 60.0 && !AtMaxHeight(20.0, 2, 6, 60.0)
  {
  }
}
