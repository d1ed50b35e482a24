/**
 The pure arithmetic of the slide switch: the measuring rule, the range of
 positions the thumb's left edge may take, the clamp applied while dragging,
 the track alpha derived from the thumb position and the edge chosen when the
 pointer is released.
 */
module Geometry {

  /** Shape codes of the switch. Any code other than ShapeRect is laid out as
      a circle by the range computation; only ShapeCircle gets the width
      correction when measuring. */
  const ShapeRect: int := 1
  const ShapeCircle: int := 2

  /** Inset between the track and the thumb. */
  const RimSize: int := 6

  /** Preferred size of the control when the parent does not impose one. */
  const DefaultWidth: int := 280
  const DefaultHeight: int := 140

  /** Track alpha when the switch is fully open. */
  const FullAlpha: int := 255

  /** A release whose total horizontal travel is below this is a tap. */
  const TapSlop: int := 3

  /** How far the thumb moves on each tick of the settle animation. */
  const SettleStep: int := 3

  function Abs(x: int): (r: int)
    ensures r >= 0 && (r == x || r == -x)
  {
    if x < 0 then -x else x
  }

  // ---------------------------------------------------------------------------
  // Measuring

  /** The mode half of a layout measure specification. */
  datatype SpecMode = Unspecified | Exactly | AtMost

  /** A layout measure specification: a mode and a (non-negative) size. */
  datatype MeasureSpec = MeasureSpec(mode: SpecMode, size: nat)

  /** Size the control takes in one dimension: the imposed size when the parent
      fixes it, the preferred size `p` capped by the limit when the parent gives
      an upper bound, and `p` itself otherwise. */
  function MeasureDimension(p: int, spec: MeasureSpec): (r: int)
    ensures spec.mode == Exactly ==> r == spec.size
    ensures spec.mode == AtMost ==> r <= p && r <= spec.size && (r == p || r == spec.size)
    ensures spec.mode == Unspecified ==> r == p
  {
    if spec.mode == Exactly then spec.size
    else if spec.mode == AtMost && spec.size < p then spec.size
    else p
  }

  /** Measured (width, height) of the control. A circle never ends up narrower
      than it is tall: a width below the height is replaced by twice the
      height. */
  function MeasuredSize(shape: int, widthSpec: MeasureSpec, heightSpec: MeasureSpec): (wh: (nat, nat))
    ensures wh.1 == MeasureDimension(DefaultHeight, heightSpec)
    ensures shape != ShapeCircle ==> wh.0 == MeasureDimension(DefaultWidth, widthSpec)
    ensures shape == ShapeCircle ==> wh.1 <= wh.0
    ensures shape == ShapeCircle && MeasureDimension(DefaultWidth, widthSpec) >= wh.1
            ==> wh.0 == MeasureDimension(DefaultWidth, widthSpec)
    ensures shape == ShapeCircle && MeasureDimension(DefaultWidth, widthSpec) < wh.1
            ==> wh.0 == 2 * wh.1
  {
    var width := MeasureDimension(DefaultWidth, widthSpec);
    var height := MeasureDimension(DefaultHeight, heightSpec);
    if shape == ShapeCircle && width < height then (2 * height, height)
    else (width, height)
  }

  // ---------------------------------------------------------------------------
  // Thumb range

  /** Rightmost position of the thumb's left edge. A rectangle thumb is half
      the track wide and may go as far as the middle; a circle thumb is a
      square of side `viewHeight - 2 * RimSize` that stops one rim short of the
      right end. `viewHeight` is the laid-out height of the view, which the
      source reads here instead of the measured height. */
  function MaxLeft(shape: int, width: nat, viewHeight: int): (m: int)
    ensures shape == ShapeRect ==> 2 * m <= width < 2 * m + 2
    ensures shape != ShapeRect ==> m + (viewHeight - 2 * RimSize) + RimSize == width
  {
    if shape == ShapeRect then width / 2
    else width - (viewHeight - 2 * RimSize) - RimSize
  }

  /** Resting position of the thumb's left edge for the given open state. */
  function RestLeft(isOpen: bool, maxLeft: int): (left: int)
    ensures isOpen ==> left == maxLeft
    ensures !isOpen ==> left == RimSize
  {
    if isOpen then maxLeft else RimSize
  }

  /** Horizontal extent of the thumb as drawn: a rectangle thumb is half the
      measured width less one rim, a circle thumb is the measured height less
      two rims. */
  function ThumbWidth(shape: int, width: nat, height: nat): (w: int)
    ensures shape == ShapeRect ==> 2 * (w + RimSize) <= width < 2 * (w + RimSize) + 2
    ensures shape != ShapeRect ==> w + 2 * RimSize == height
  {
    if shape == ShapeRect then width / 2 - RimSize else height - 2 * RimSize
  }

  /** At either end of the range the thumb stays inside the track, one rim away
      from its left end and at least one rim away from its right end. For a
      circle this holds once the laid-out height equals the measured height. */
  lemma RestingThumbInsideTrack(shape: int, width: nat, height: nat)
    requires shape == ShapeRect || (shape == ShapeCircle && height <= width)
    requires RimSize <= MaxLeft(shape, width, height)
    ensures RimSize + ThumbWidth(shape, width, height) <= width - RimSize
    ensures MaxLeft(shape, width, height) + ThumbWidth(shape, width, height) <= width - RimSize
    ensures shape == ShapeCircle ==>
              MaxLeft(shape, width, height) + ThumbWidth(shape, width, height) == width - RimSize
  {
  }

  /** The range computed for a measured size is usable (its maximum reaches the
      rim) exactly when a rectangle is at least two rims wide, or, for a circle
      laid out at its measured height, always. */
  lemma MeasuredRangeUsable(shape: int, widthSpec: MeasureSpec, heightSpec: MeasureSpec)
    requires shape == ShapeRect || shape == ShapeCircle
    ensures var (w, h) := MeasuredSize(shape, widthSpec, heightSpec);
            (RimSize <= MaxLeft(shape, w, h)) <==> (shape == ShapeCircle || 2 * RimSize <= w)
  {
  }

  // ---------------------------------------------------------------------------
  // Dragging

  /** The dragged position clamped into [lo, hi]: first capped at `hi`, then
      raised to `lo`. When the range is inverted the result is `lo`, which
      then lies outside it. */
  function ClampThumb(v: int, lo: int, hi: int): (r: int)
    ensures (lo <= r <= hi) <==> lo <= hi
    ensures lo <= v <= hi ==> r == v
    ensures v < lo ==> r == lo
    ensures lo <= hi && hi < v ==> r == hi
    ensures hi < lo ==> r == lo
  {
    var capped := if v > hi then hi else v;
    if capped < lo then lo else capped
  }

  /** Track alpha for a thumb at `left`: the fraction `left / maxLeft` of full
      opacity, rounded down. The divisor is the right end of the range, not its
      width, so the alpha at the left end is small but not always zero. Inside
      the range the alpha is at most full; a thumb past the end of the range
      (possible only when the range is inverted) gets at least full, and more
      once it is far enough past. */
  function Alpha(left: int, maxLeft: int): (a: int)
    requires 0 <= left && 0 < maxLeft
    ensures 0 <= a
    ensures a * maxLeft <= FullAlpha * left < (a + 1) * maxLeft
    ensures left <= maxLeft ==> a <= FullAlpha
    ensures left <= maxLeft ==> (a == FullAlpha <==> left == maxLeft)
    ensures maxLeft < left ==> FullAlpha <= a
  {
    AlphaBounds(left, maxLeft);
    FullAlpha * left / maxLeft
  }

  lemma AlphaBounds(left: int, maxLeft: int)
    requires 0 <= left && 0 < maxLeft
    ensures 0 <= FullAlpha * left / maxLeft
    ensures (FullAlpha * left / maxLeft) * maxLeft <= FullAlpha * left
    ensures FullAlpha * left < (FullAlpha * left / maxLeft + 1) * maxLeft
    ensures left <= maxLeft ==> FullAlpha * left / maxLeft <= FullAlpha
    ensures left <= maxLeft ==> (FullAlpha * left / maxLeft == FullAlpha <==> left == maxLeft)
    ensures maxLeft < left ==> FullAlpha <= FullAlpha * left / maxLeft
  {
    var n := FullAlpha * left;
    var a := n / maxLeft;
    assert n == a * maxLeft + n % maxLeft;
    assert (a + 1) * maxLeft == a * maxLeft + maxLeft;
    MulCancel(0, a + 1, maxLeft);
    if left < maxLeft {
      MulMonotone(left, maxLeft - 1, FullAlpha);
      MulCancel(a, FullAlpha, maxLeft);
    } else if left == maxLeft {
      MulCancel(a, FullAlpha + 1, maxLeft);
      MulCancel(FullAlpha, a + 1, maxLeft);
    } else {
      MulMonotone(maxLeft + 1, left, FullAlpha);
      MulCancel(FullAlpha, a + 1, maxLeft);
    }
  }

  /** Multiplying by a non-negative factor keeps the order. */
  lemma MulMonotone(x: int, y: int, m: int)
    requires x <= y && 0 <= m
    ensures x * m <= y * m
  {
    assert y * m == x * m + (y - x) * m;
  }

  /** A strict inequality between multiples of a positive factor carries over
      to the multiplicands. */
  lemma MulCancel(x: int, y: int, m: int)
    requires 0 < m && x * m < y * m
    ensures x < y
  {
    if y <= x {
      MulMonotone(y, x, m);
    }
  }

  /** A thumb further right never gets a smaller alpha. */
  lemma AlphaMonotone(l1: int, l2: int, maxLeft: int)
    requires 0 <= l1 <= l2 && 0 < maxLeft
    ensures Alpha(l1, maxLeft) <= Alpha(l2, maxLeft)
  {
    var a1, a2 := Alpha(l1, maxLeft), Alpha(l2, maxLeft);
    if a2 < a1 {
      MulMonotone(a2 + 1, a1, maxLeft);
    }
  }

  /** Because the divisor is the range end, a thumb at the rim (the left end of
      a usable range) shows a non-zero alpha exactly while the range ends
      within 1530 = 255 * 6. */
  lemma RimAlphaNonZero(maxLeft: int)
    requires 0 < maxLeft
    ensures 0 < Alpha(RimSize, maxLeft) <==> maxLeft <= FullAlpha * RimSize
  {
  }

  // ---------------------------------------------------------------------------
  // Pointer coordinates

  /** A pointer coordinate converted to an integer as a cast does: the
      fraction is dropped, rounding toward zero. */
  function TruncToInt(r: real): (n: int)
    ensures 0.0 <= r ==> n as real <= r < n as real + 1.0
    ensures r < 0.0 ==> n as real - 1.0 < r <= n as real
  {
    if 0.0 <= r then r.Floor else -((-r).Floor)
  }

  /** A travel counts as a tap exactly when it lies strictly between -3 and
      3: rounding toward zero widens the integer window (-3, 3) to the real
      one. */
  lemma TapWindow(travel: real)
    ensures Abs(TruncToInt(travel)) < TapSlop <==> -3.0 < travel < 3.0
  {
  }

  // ---------------------------------------------------------------------------
  // Releasing

  /** Edge chosen when the pointer is released with the thumb at `thumb` after
      a total horizontal travel `wholeX`: a real drag settles on the side of
      the midpoint `maxLeft / 2` the thumb is on (the midpoint itself counts as
      the left side); a tap settles on the other side. The range end is not
      negative, so halving it rounds down as the source's integer division
      does. */
  function SettlesOpen(thumb: int, maxLeft: int, wholeX: int): (toRight: bool)
    requires 0 <= maxLeft
    ensures Abs(wholeX) >= TapSlop ==> (toRight <==> 2 * thumb > maxLeft)
    ensures Abs(wholeX) < TapSlop ==> (toRight <==> 2 * thumb <= maxLeft)
  {
    var nearRight := thumb > maxLeft / 2;
    if Abs(wholeX) < TapSlop then !nearRight else nearRight
  }

  /** A tap on a switch at rest toggles it, except on a closed switch whose
      range ends before twice the rim: there the rest position is already past
      the midpoint, so the tap leaves it closed. */
  lemma TapAtRestToggles(isOpen: bool, maxLeft: int, wholeX: int)
    requires RimSize <= maxLeft
    requires Abs(wholeX) < TapSlop
    ensures SettlesOpen(RestLeft(isOpen, maxLeft), maxLeft, wholeX) == !isOpen
            <==> (isOpen || 2 * RimSize <= maxLeft)
  {
  }
}
