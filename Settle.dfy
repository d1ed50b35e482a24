/**
 The frames the settle animation asks to be drawn. Each tick of the animation
 sets the track alpha from the current thumb position, requests a redraw and
 then moves the thumb one step towards the chosen edge; the loop stops once the
 thumb has passed that edge. A frame records the thumb position and the alpha
 at the moment of the redraw request.
 */
module Settle {
  import opened Geometry

  datatype Frame = Frame(left: int, alpha: int)

  /** Frames drawn while settling to the right edge from `from`: one per step
      up to the edge, the first showing the start; none when the thumb already
      is past the edge. */
  function RightwardFrames(from: int, maxLeft: int): (fs: seq<Frame>)
    requires 0 <= from && 0 < maxLeft
    ensures |fs| == if from <= maxLeft then (maxLeft - from) / SettleStep + 1 else 0
    ensures |fs| > 0 ==> fs[0] == Frame(from, Alpha(from, maxLeft))
    decreases maxLeft - from
  {
    if from <= maxLeft then [Frame(from, Alpha(from, maxLeft))] + RightwardFrames(from + SettleStep, maxLeft)
    else []
  }

  /** Frames drawn while settling to the left edge `minLeft` from `from`: one
      per step down to the edge, the first showing the start; none when the
      thumb already is left of the edge. */
  function LeftwardFrames(from: int, minLeft: int, maxLeft: int): (fs: seq<Frame>)
    requires 0 < minLeft && 0 < maxLeft
    ensures |fs| == if minLeft <= from then (from - minLeft) / SettleStep + 1 else 0
    ensures |fs| > 0 ==> 0 < from && fs[0] == Frame(from, Alpha(from, maxLeft))
    decreases from
  {
    if minLeft <= from then [Frame(from, Alpha(from, maxLeft))] + LeftwardFrames(from - SettleStep, minLeft, maxLeft)
    else []
  }

  /** Frames drawn while settling towards the chosen edge: some frame is
      drawn unless the thumb starts beyond that edge, and the first one shows
      the thumb where it was released. */
  function SettleFrames(toRight: bool, from: int, minLeft: int, maxLeft: int): (fs: seq<Frame>)
    requires 0 < minLeft && 0 < maxLeft && 0 <= from
    ensures |fs| > 0 <==> (if toRight then from <= maxLeft else minLeft <= from)
    ensures |fs| > 0 ==> fs[0] == Frame(from, Alpha(from, maxLeft))
  {
    if toRight then RightwardFrames(from, maxLeft) else LeftwardFrames(from, minLeft, maxLeft)
  }

  /** Settling right draws one frame per step from `from`: the k-th frame
      shows the thumb k steps along, with the alpha of that position. */
  lemma {:induction false} RightwardFrameAt(from: int, maxLeft: int, k: int)
    requires 0 <= from && 0 < maxLeft
    requires 0 <= k < |RightwardFrames(from, maxLeft)|
    ensures RightwardFrames(from, maxLeft)[k]
            == Frame(from + SettleStep * k, Alpha(from + SettleStep * k, maxLeft))
    decreases k
  {
    if k > 0 {
      RightwardFrameAt(from + SettleStep, maxLeft, k - 1);
    }
  }

  /** Settling left draws one frame per step from `from`: the k-th frame shows
      the thumb k steps back, with the alpha of that position. */
  lemma {:induction false} LeftwardFrameAt(from: int, minLeft: int, maxLeft: int, k: int)
    requires 0 < minLeft && 0 < maxLeft
    requires 0 <= k < |LeftwardFrames(from, minLeft, maxLeft)|
    ensures LeftwardFrames(from, minLeft, maxLeft)[k]
            == Frame(from - SettleStep * k, Alpha(from - SettleStep * k, maxLeft))
    decreases k
  {
    if k > 0 {
      LeftwardFrameAt(from - SettleStep, minLeft, maxLeft, k - 1);
    }
  }

  /** The k-th frame of a settle, in either direction. */
  lemma SettleFrameAt(toRight: bool, from: int, minLeft: int, maxLeft: int, k: int)
    requires 0 < minLeft && 0 < maxLeft && 0 <= from
    requires 0 <= k < |SettleFrames(toRight, from, minLeft, maxLeft)|
    ensures var left := if toRight then from + SettleStep * k else from - SettleStep * k;
            0 <= left &&
            SettleFrames(toRight, from, minLeft, maxLeft)[k] == Frame(left, Alpha(left, maxLeft))
  {
    var fs := SettleFrames(toRight, from, minLeft, maxLeft);
    assert fs[k] in fs;
    if toRight {
      RightwardFrameAt(from, maxLeft, k);
    } else {
      LeftwardFrameAt(from, minLeft, maxLeft, k);
    }
  }

  /** From a thumb inside a usable range, every frame of a settle shows the
      thumb inside the range and an alpha in [0, 255]; at least one frame is
      drawn, and the last one is less than a step away from the edge the thumb
      then snaps to. */
  lemma SettleFramesInRange(toRight: bool, from: int, minLeft: int, maxLeft: int)
    requires 0 < minLeft <= from <= maxLeft
    ensures var fs := SettleFrames(toRight, from, minLeft, maxLeft);
            |fs| > 0 &&
            (forall f :: f in fs ==> minLeft <= f.left <= maxLeft && 0 <= f.alpha <= FullAlpha) &&
            (toRight ==> maxLeft - SettleStep < fs[|fs| - 1].left) &&
            (!toRight ==> fs[|fs| - 1].left < minLeft + SettleStep)
  {
    var fs := SettleFrames(toRight, from, minLeft, maxLeft);
    forall f | f in fs
      ensures minLeft <= f.left <= maxLeft && 0 <= f.alpha <= FullAlpha
    {
      var k :| 0 <= k < |fs| && fs[k] == f;
      SettleFrameAt(toRight, from, minLeft, maxLeft, k);
    }
    SettleFrameAt(toRight, from, minLeft, maxLeft, |fs| - 1);
  }

  /** The track fades monotonically: settling right never lowers the alpha
      from one frame to the next, settling left never raises it. */
  lemma SettleFadeMonotone(toRight: bool, from: int, minLeft: int, maxLeft: int, i: int, j: int)
    requires 0 < minLeft && 0 < maxLeft && 0 <= from
    requires 0 <= i <= j < |SettleFrames(toRight, from, minLeft, maxLeft)|
    ensures var fs := SettleFrames(toRight, from, minLeft, maxLeft);
            toRight ==> fs[i].alpha <= fs[j].alpha
    ensures var fs := SettleFrames(toRight, from, minLeft, maxLeft);
            !toRight ==> fs[j].alpha <= fs[i].alpha
  {
    var fs := SettleFrames(toRight, from, minLeft, maxLeft);
    SettleFrameAt(toRight, from, minLeft, maxLeft, i);
    SettleFrameAt(toRight, from, minLeft, maxLeft, j);
    if toRight {
      AlphaMonotone(fs[i].left, fs[j].left, maxLeft);
    } else {
      AlphaMonotone(fs[j].left, fs[i].left, maxLeft);
    }
  }

  /** When a narrow layout leaves the range inverted (its end left of the rim),
      a switch at rest settles by at most one frame. Settling towards the edge
      where the thumb rests draws exactly one frame: an open switch settles
      right from the range end at full alpha, and a closed one settles left
      from the rim with an alpha above full. Settling away from it draws
      none: both resting positions lie right of the midpoint, so a drag of
      either switch settles right and a tap settles left. */
  lemma NarrowRangeSettle(maxLeft: int, wholeX: int)
    requires 0 < maxLeft < RimSize
    ensures RightwardFrames(maxLeft, maxLeft) == [Frame(maxLeft, FullAlpha)]
    ensures LeftwardFrames(RimSize, RimSize, maxLeft) == [Frame(RimSize, Alpha(RimSize, maxLeft))]
    ensures FullAlpha < Alpha(RimSize, maxLeft)
    ensures SettlesOpen(maxLeft, maxLeft, wholeX) <==> Abs(wholeX) >= TapSlop
    ensures SettlesOpen(RimSize, maxLeft, wholeX) <==> Abs(wholeX) >= TapSlop
    ensures SettleFrames(SettlesOpen(maxLeft, maxLeft, wholeX), maxLeft, RimSize, maxLeft)
            == if Abs(wholeX) >= TapSlop then [Frame(maxLeft, FullAlpha)] else []
    ensures SettleFrames(SettlesOpen(RimSize, maxLeft, wholeX), RimSize, RimSize, maxLeft)
            == if Abs(wholeX) >= TapSlop then [] else [Frame(RimSize, Alpha(RimSize, maxLeft))]
  {
    var a := Alpha(RimSize, maxLeft);
    assert RightwardFrames(maxLeft + SettleStep, maxLeft) == [];
    assert LeftwardFrames(RimSize - SettleStep, RimSize, maxLeft) == [];
    MulMonotone(maxLeft, RimSize - 1, a + 1);
  }
}
