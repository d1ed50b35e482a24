/**
 The slide switch view: its fields change in place as layout passes, pointer
 events, the settle animation and explicit state changes arrive. Redraw
 requests and listener calls are the switch's outputs; they are recorded in
 two logs, `redraws` (a snapshot of the thumb position and alpha at each
 request) and `notifications` (the listener calls, in order).
 */
module Switch {
  import opened Geometry
  import opened Settle

  /** A call made on the registered listener. */
  datatype Notice = Open | Close

  /** The listener calls made when a transition to `opened` completes. */
  function Notify(hasListener: bool, nowOpen: bool): (calls: seq<Notice>)
    ensures |calls| == if hasListener then 1 else 0
    ensures hasListener ==> calls[0] == (if nowOpen then Open else Close)
  {
    if !hasListener then [] else if nowOpen then [Open] else [Close]
  }

  class SlideSwitch {
    var isOpen: bool
    var shape: int
    var slideable: bool
    var hasListener: bool

    var measuredWidth: nat
    var measuredHeight: nat

    var alpha: int
    var minLeft: int
    var maxLeft: int
    var frontRectLeft: int
    var frontRectLeftBegin: int
    var eventStartX: int
    var eventLastX: int
    var diffX: int

    var redraws: seq<Frame>
    var notifications: seq<Notice>

    /** The switch has been laid out with a usable range: the thumb, the drag
        origin and the alpha all lie in their ranges. Every state reached from
        a layout whose range reaches the rim satisfies it. */
    ghost predicate Valid()
      reads this
    {
      0 < minLeft <= maxLeft &&
      minLeft <= frontRectLeft <= maxLeft &&
      minLeft <= frontRectLeftBegin <= maxLeft &&
      0 <= alpha <= FullAlpha
    }

    /** A new switch, not yet measured, with no listener and accepting drags. */
    constructor (initiallyOpen: bool, shapeType: int)
      ensures isOpen == initiallyOpen && shape == shapeType && slideable && !hasListener
      ensures measuredWidth == 0 && measuredHeight == 0
      ensures alpha == 0 && minLeft == 0 && maxLeft == 0 && frontRectLeft == 0
      ensures frontRectLeftBegin == RimSize
      ensures eventStartX == 0 && eventLastX == 0 && diffX == 0
      ensures redraws == [] && notifications == []
    {
      isOpen, shape, slideable, hasListener := initiallyOpen, shapeType, true, false;
      measuredWidth, measuredHeight := 0, 0;
      alpha, minLeft, maxLeft, frontRectLeft := 0, 0, 0, 0;
      frontRectLeftBegin := RimSize;
      eventStartX, eventLastX, diffX := 0, 0, 0;
      redraws, notifications := [], [];
    }

    /** Requests a redraw of the current thumb position and alpha. */
    method InvalidateView()
      modifies this`redraws
      ensures redraws == old(redraws) + [Frame(frontRectLeft, alpha)]
    {
      redraws := redraws + [Frame(frontRectLeft, alpha)];
    }

    /** Computes the thumb range for the measured width and the laid-out
        height `viewHeight`, and puts the thumb, the drag origin and the alpha
        at the resting edge of the current state. */
    method InitDrawingVal(viewHeight: int)
      modifies this`minLeft, this`maxLeft, this`frontRectLeft, this`alpha, this`frontRectLeftBegin
      ensures minLeft == RimSize && maxLeft == MaxLeft(shape, measuredWidth, viewHeight)
      ensures frontRectLeft == RestLeft(isOpen, maxLeft)
      ensures alpha == (if isOpen then FullAlpha else 0)
      ensures frontRectLeftBegin == frontRectLeft
      ensures Valid() <==> RimSize <= maxLeft
    {
      minLeft := RimSize;
      if shape == ShapeRect {
        maxLeft := measuredWidth / 2;
      } else {
        maxLeft := measuredWidth - (viewHeight - 2 * RimSize) - RimSize;
      }
      if isOpen {
        frontRectLeft := maxLeft;
        alpha := FullAlpha;
      } else {
        frontRectLeft := RimSize;
        alpha := 0;
      }
      frontRectLeftBegin := frontRectLeft;
    }

    /** A layout pass: records the measured size and recomputes the range. */
    method OnMeasure(widthSpec: MeasureSpec, heightSpec: MeasureSpec, viewHeight: int)
      modifies this
      ensures (measuredWidth, measuredHeight) == MeasuredSize(shape, widthSpec, heightSpec)
      ensures minLeft == RimSize && maxLeft == MaxLeft(shape, measuredWidth, viewHeight)
      ensures frontRectLeft == RestLeft(isOpen, maxLeft) && frontRectLeftBegin == frontRectLeft
      ensures alpha == (if isOpen then FullAlpha else 0)
      ensures Valid() <==> RimSize <= maxLeft
      ensures isOpen == old(isOpen) && shape == old(shape) && slideable == old(slideable)
      ensures hasListener == old(hasListener)
      ensures eventStartX == old(eventStartX) && eventLastX == old(eventLastX) && diffX == old(diffX)
      ensures redraws == old(redraws) && notifications == old(notifications)
    {
      var width := MeasureDimension(DefaultWidth, widthSpec);
      var height := MeasureDimension(DefaultHeight, heightSpec);
      if shape == ShapeCircle {
        if width < height {
          width := height * 2;
        }
      }
      measuredWidth, measuredHeight := width, height;
      InitDrawingVal(viewHeight);
    }

    /** Pointer down at raw coordinate `rawX`: remembers, as an integer, where
        the gesture starts. Ignored when the switch does not accept drags. */
    method Down(rawX: real)
      modifies this`eventStartX
      ensures eventStartX == if old(slideable) then TruncToInt(rawX) else old(eventStartX)
    {
      if slideable {
        eventStartX := TruncToInt(rawX);
      }
    }

    /** Pointer move: the thumb follows the pointer from where it was when the
        gesture started, clamped into the range; the alpha follows the thumb
        and a redraw is requested. When a narrow layout has inverted the range
        no position passes the range check, and the thumb, the alpha and the
        redraws stay as they were. Ignored when the switch does not accept
        drags. */
    method Move(rawX: real)
      requires 0 < minLeft
      modifies this`eventLastX, this`diffX, this`frontRectLeft, this`alpha, this`redraws
      ensures old(Valid()) ==> Valid()
      ensures !old(slideable) ==> unchanged(this)
      ensures old(slideable) ==> eventLastX == TruncToInt(rawX) && diffX == eventLastX - eventStartX
      ensures old(slideable) && minLeft <= maxLeft ==>
                frontRectLeft == ClampThumb(frontRectLeftBegin + diffX, minLeft, maxLeft) &&
                alpha == Alpha(frontRectLeft, maxLeft) &&
                redraws == old(redraws) + [Frame(frontRectLeft, alpha)]
      ensures maxLeft < minLeft ==>
                frontRectLeft == old(frontRectLeft) && alpha == old(alpha) && redraws == old(redraws)
    {
      if !slideable {
        return;
      }
      eventLastX := TruncToInt(rawX);
      diffX := eventLastX - eventStartX;
      var tempX := diffX + frontRectLeftBegin;
      tempX := if tempX > maxLeft then maxLeft else tempX;
      tempX := if tempX < minLeft then minLeft else tempX;
      if minLeft <= tempX <= maxLeft {
        frontRectLeft := tempX;
        alpha := Alpha(tempX, maxLeft);
        InvalidateView();
      }
    }

    /** Pointer up: the thumb position becomes the next drag origin and the
        switch settles to the edge chosen from that position and the total
        travel of the gesture, the raw distance from the start rounded toward
        zero. Ignored when the switch does not accept drags. */
    method Up(rawX: real)
      requires 0 < minLeft && 0 < maxLeft && 0 <= frontRectLeft
      modifies this
      ensures old(Valid()) ==> Valid()
      ensures minLeft == old(minLeft) && maxLeft == old(maxLeft) && shape == old(shape)
      ensures slideable == old(slideable) && hasListener == old(hasListener)
      ensures eventStartX == old(eventStartX) && eventLastX == old(eventLastX) && diffX == old(diffX)
      ensures measuredWidth == old(measuredWidth) && measuredHeight == old(measuredHeight)
      ensures !old(slideable) ==> unchanged(this)
      ensures old(slideable) ==>
                var toRight := SettlesOpen(old(frontRectLeft), maxLeft, TruncToInt(rawX - eventStartX as real));
                isOpen == toRight &&
                frontRectLeft == frontRectLeftBegin == (if toRight then maxLeft else minLeft) &&
                alpha == (if toRight then FullAlpha else 0) &&
                (Valid() <==> minLeft <= maxLeft) &&
                redraws == old(redraws) + SettleFrames(toRight, old(frontRectLeft), minLeft, maxLeft) &&
                notifications == old(notifications) + Notify(hasListener, toRight)
    {
      if !slideable {
        return;
      }
      var wholeX := TruncToInt(rawX - eventStartX as real);
      frontRectLeftBegin := frontRectLeft;
      var toRight := frontRectLeftBegin > maxLeft / 2;
      if Abs(wholeX) < TapSlop {
        toRight := !toRight;
      }
      MoveToDest(toRight);
    }

    /** The settle animation, run to completion: the thumb moves one step per
        tick towards the chosen edge, redrawing with the alpha of each
        position, until it passes the edge; it is then put exactly on the edge,
        the state is committed and the listener, if any, is told once. No
        redraw is requested after that final snap. */
    method MoveToDest(toRight: bool)
      requires 0 < minLeft && 0 < maxLeft && 0 <= frontRectLeft
      modifies this`alpha, this`frontRectLeft, this`isOpen, this`frontRectLeftBegin, this`redraws,
               this`notifications
      ensures isOpen == toRight
      ensures frontRectLeft == frontRectLeftBegin == (if toRight then maxLeft else minLeft)
      ensures alpha == (if toRight then FullAlpha else 0)
      ensures Valid() <==> minLeft <= maxLeft
      ensures redraws == old(redraws) + SettleFrames(toRight, old(frontRectLeft), minLeft, maxLeft)
      ensures notifications == old(notifications) + Notify(hasListener, toRight)
    {
      ghost var start := frontRectLeft;
      if toRight {
        while frontRectLeft <= maxLeft
          invariant 0 <= frontRectLeft
          invariant redraws + RightwardFrames(frontRectLeft, maxLeft)
                    == old(redraws) + RightwardFrames(start, maxLeft)
          invariant notifications == old(notifications)
          decreases maxLeft - frontRectLeft
        {
          assert RightwardFrames(frontRectLeft, maxLeft)
                 == [Frame(frontRectLeft, Alpha(frontRectLeft, maxLeft))]
                    + RightwardFrames(frontRectLeft + SettleStep, maxLeft);
          alpha := Alpha(frontRectLeft, maxLeft);
          InvalidateView();
          frontRectLeft := frontRectLeft + SettleStep;
        }
        assert RightwardFrames(frontRectLeft, maxLeft) == [];
        alpha := FullAlpha;
        frontRectLeft := maxLeft;
        isOpen := true;
        if hasListener {
          notifications := notifications + [Open];
        }
        frontRectLeftBegin := maxLeft;
      } else {
        while frontRectLeft >= minLeft
          invariant redraws + LeftwardFrames(frontRectLeft, minLeft, maxLeft)
                    == old(redraws) + LeftwardFrames(start, minLeft, maxLeft)
          invariant notifications == old(notifications)
          decreases frontRectLeft
        {
          assert LeftwardFrames(frontRectLeft, minLeft, maxLeft)
                 == [Frame(frontRectLeft, Alpha(frontRectLeft, maxLeft))]
                    + LeftwardFrames(frontRectLeft - SettleStep, minLeft, maxLeft);
          alpha := Alpha(frontRectLeft, maxLeft);
          InvalidateView();
          frontRectLeft := frontRectLeft - SettleStep;
        }
        assert LeftwardFrames(frontRectLeft, minLeft, maxLeft) == [];
        alpha := 0;
        frontRectLeft := minLeft;
        isOpen := false;
        if hasListener {
          notifications := notifications + [Close];
        }
        frontRectLeftBegin := minLeft;
      }
    }

    /** Registers a listener (`present`) or removes it. */
    method SetSlideListener(present: bool)
      modifies this`hasListener
      ensures hasListener == present
    {
      hasListener := present;
    }

    /** Snaps the switch to the requested state without animation: the range
        and resting geometry are recomputed as in a layout, a redraw is
        requested and the listener, if any, is told once. */
    method SetState(isopen: bool, viewHeight: int)
      modifies this
      ensures isOpen == isopen
      ensures minLeft == RimSize && maxLeft == MaxLeft(shape, measuredWidth, viewHeight)
      ensures frontRectLeft == RestLeft(isopen, maxLeft) && frontRectLeftBegin == frontRectLeft
      ensures alpha == (if isopen then FullAlpha else 0)
      ensures Valid() <==> RimSize <= maxLeft
      ensures redraws == old(redraws) + [Frame(frontRectLeft, alpha)]
      ensures notifications == old(notifications) + Notify(hasListener, isopen)
      ensures shape == old(shape) && slideable == old(slideable) && hasListener == old(hasListener)
      ensures measuredWidth == old(measuredWidth) && measuredHeight == old(measuredHeight)
      ensures eventStartX == old(eventStartX) && eventLastX == old(eventLastX) && diffX == old(diffX)
    {
      isOpen := isopen;
      InitDrawingVal(viewHeight);
      InvalidateView();
      if hasListener {
        if isopen {
          notifications := notifications + [Open];
        } else {
          notifications := notifications + [Close];
        }
      }
    }

    /** Changes the shape; the range is recomputed at the next layout. */
    method SetShapeType(shapeType: int)
      modifies this`shape
      ensures shape == shapeType
    {
      shape := shapeType;
    }

    /** Turns drag handling on or off. */
    method SetSlideable(canSlide: bool)
      modifies this`slideable
      ensures slideable == canSlide
    {
      slideable := canSlide;
    }
  }
}
