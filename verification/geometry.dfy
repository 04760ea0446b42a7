/**
  Layout arithmetic of the progress wheel view: the size it asks for when its
  parent measures it, and the rectangle its arcs are drawn in. All quantities
  are Java `int` pixels; overflow is not modelled.
*/
module Geometry {

  /** The three modes a parent's measure specification can impose on one dimension. */
  datatype MeasureMode = Exactly | AtMost | Unspecified

  /** The view's padding on each side, in pixels. */
  datatype Padding = Padding(left: int, top: int, right: int, bottom: int)

  /** A measured width and height. */
  datatype Size = Size(width: int, height: int)

  /** An axis-aligned rectangle given by its four edges. */
  datatype Rect = Rect(left: int, top: int, right: int, bottom: int) {
    function Width(): int { right - left }
    function Height(): int { bottom - top }
  }

  function Min(a: int, b: int): (m: int)
    ensures m <= a && m <= b
    ensures m == a || m == b
  {
    if a <= b then a else b
  }

  /** Java's `a / 2` on `int`, which truncates toward zero. */
  function Half(a: int): (q: int)
    ensures a >= 0 ==> 0 <= 2 * q <= a <= 2 * q + 1
    ensures a < 0 ==> 2 * q - 1 <= a <= 2 * q <= 0
  {
    if a >= 0 then a / 2 else -((-a) / 2)
  }

  /** What a measure specification allows: EXACTLY fixes the size, AT_MOST bounds it, UNSPECIFIED leaves it free. */
  predicate Honours(mode: MeasureMode, size: int, measured: int)
  {
    match mode
    case Exactly => measured == size
    case AtMost => measured <= size
    case Unspecified => true
  }

  /**
    The size the view reports from onMeasure. The size it wants is the circle
    radius plus the padding on both sides. When the width mode is EXACTLY the
    height is taken from the height specification whatever its mode.
  */
  function Measure(circleRadius: int, pad: Padding,
                   widthMode: MeasureMode, widthSize: int,
                   heightMode: MeasureMode, heightSize: int): (s: Size)
    ensures widthMode == Exactly ==> s.width == widthSize
    ensures widthMode == AtMost ==>
      var wanted := circleRadius + pad.left + pad.right;
      s.width <= widthSize && s.width <= wanted && (s.width == widthSize || s.width == wanted)
    ensures widthMode == Unspecified ==> s.width == circleRadius + pad.left + pad.right
    ensures heightMode == Exactly || widthMode == Exactly ==> s.height == heightSize
    ensures heightMode == AtMost && widthMode != Exactly ==>
      var wanted := circleRadius + pad.top + pad.bottom;
      s.height <= heightSize && s.height <= wanted && (s.height == heightSize || s.height == wanted)
    ensures heightMode == Unspecified && widthMode != Exactly ==>
      s.height == circleRadius + pad.top + pad.bottom
  {
    var viewWidth := circleRadius + pad.left + pad.right;
    var viewHeight := circleRadius + pad.top + pad.bottom;
    var width :=
      if widthMode == Exactly then widthSize
      else if widthMode == AtMost then Min(viewWidth, widthSize)
      else viewWidth;
    var height :=
      if heightMode == Exactly || widthMode == Exactly then heightSize
      else if heightMode == AtMost then Min(viewHeight, heightSize)
      else viewHeight;
    Size(width, height)
  }

  /** The measured size obeys both measure specifications it was given. */
  lemma MeasureHonoursSpecs(circleRadius: int, pad: Padding,
                            widthMode: MeasureMode, widthSize: int,
                            heightMode: MeasureMode, heightSize: int)
    ensures var s := Measure(circleRadius, pad, widthMode, widthSize, heightMode, heightSize);
      Honours(widthMode, widthSize, s.width) && Honours(heightMode, heightSize, s.height)
  {
  }

  /** The diameter of the wheel when it does not fill the view: the smaller padded side, capped by the radius less the bar. */
  function CircleDiameter(layoutWidth: int, layoutHeight: int, pad: Padding,
                          circleRadius: int, barWidth: int): (d: int)
    ensures d <= layoutWidth - pad.left - pad.right
    ensures d <= layoutHeight - pad.top - pad.bottom
    ensures d <= circleRadius * 2 - barWidth * 2
    ensures d == layoutWidth - pad.left - pad.right
         || d == layoutHeight - pad.top - pad.bottom
         || d == circleRadius * 2 - barWidth * 2
  {
    var minValue := Min(layoutWidth - pad.left - pad.right, layoutHeight - pad.bottom - pad.top);
    Min(minValue, circleRadius * 2 - barWidth * 2)
  }

  /**
    The rectangle the arcs are drawn in. Without fillRadius it is a square of
    side circleDiameter - 2 * barWidth centred in the padded area (the spare
    pixel of an odd remainder going to the right or bottom); with fillRadius it
    is the padded area inset by barWidth on every side.
  */
  function SetupBounds(layoutWidth: int, layoutHeight: int, pad: Padding,
                       circleRadius: int, barWidth: int, fillRadius: bool): (r: Rect)
    ensures !fillRadius ==>
      var d := CircleDiameter(layoutWidth, layoutHeight, pad, circleRadius, barWidth);
      r.Width() == d - 2 * barWidth && r.Height() == d - 2 * barWidth
    ensures !fillRadius ==>
      var leftMargin := r.left - barWidth - pad.left;
      var rightMargin := (layoutWidth - pad.right) - (r.right + barWidth);
      0 <= leftMargin <= rightMargin <= leftMargin + 1
    ensures !fillRadius ==>
      var topMargin := r.top - barWidth - pad.top;
      var bottomMargin := (layoutHeight - pad.bottom) - (r.bottom + barWidth);
      0 <= topMargin <= bottomMargin <= topMargin + 1
    ensures fillRadius ==>
      && r.left - pad.left == barWidth
      && r.top - pad.top == barWidth
      && (layoutWidth - pad.right) - r.right == barWidth
      && (layoutHeight - pad.bottom) - r.bottom == barWidth
  {
    if !fillRadius then
      var circleDiameter := CircleDiameter(layoutWidth, layoutHeight, pad, circleRadius, barWidth);
      var xOffset := Half(layoutWidth - pad.left - pad.right - circleDiameter) + pad.left;
      var yOffset := Half(layoutHeight - pad.top - pad.bottom - circleDiameter) + pad.top;
      Rect(xOffset + barWidth, yOffset + barWidth,
           xOffset + circleDiameter - barWidth, yOffset + circleDiameter - barWidth)
    else
      Rect(pad.left + barWidth, pad.top + barWidth,
           layoutWidth - pad.right - barWidth, layoutHeight - pad.bottom - barWidth)
  }

  /** In both modes the arc rectangle, grown by barWidth on every side, stays inside the padded area. */
  lemma BoundsInsidePaddedArea(layoutWidth: int, layoutHeight: int, pad: Padding,
                               circleRadius: int, barWidth: int, fillRadius: bool)
    ensures var r := SetupBounds(layoutWidth, layoutHeight, pad, circleRadius, barWidth, fillRadius);
      && pad.left <= r.left - barWidth
      && pad.top <= r.top - barWidth
      && r.right + barWidth <= layoutWidth - pad.right
      && r.bottom + barWidth <= layoutHeight - pad.bottom
  {
  }
}
