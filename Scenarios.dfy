/**
 Gesture sequences applied to a freshly built switch, each outcome proved
 from the contracts of the switch's methods alone.
 */
module Scenarios {
  import opened Geometry
  import opened Settle
  import opened Switch

  /** A rectangle switch measured at exactly `width` by 140, with a listener. */
  method LaidOutRect(initiallyOpen: bool, width: nat) returns (sw: SlideSwitch)
    requires 2 * RimSize <= width
    ensures fresh(sw) && sw.Valid() && sw.slideable && sw.hasListener
    ensures sw.isOpen == initiallyOpen && sw.notifications == [] && sw.redraws == []
    ensures sw.alpha == if initiallyOpen then FullAlpha else 0
    ensures sw.minLeft == RimSize && sw.maxLeft == width / 2
    ensures sw.frontRectLeft == sw.frontRectLeftBegin == RestLeft(initiallyOpen, width / 2)
  {
    sw := new SlideSwitch(initiallyOpen, ShapeRect);
    sw.SetSlideListener(true);
    sw.OnMeasure(MeasureSpec(Exactly, width), MeasureSpec(Exactly, DefaultHeight), DefaultHeight);
  }

  /** A 280 by 140 rectangle switch, closed, dragged 140 to the right and
      released there, ends open with the thumb at 140, full alpha and one
      `Open` call. */
  method DragAcrossOpens() returns (nowOpen: bool, thumb: int, alpha: int, calls: seq<Notice>)
    ensures nowOpen && thumb == 140 && alpha == FullAlpha && calls == [Open]
  {
    var sw := LaidOutRect(false, DefaultWidth);
    sw.Down(100.0);
    sw.Move(240.0);
    assert sw.frontRectLeft == 140;
    sw.Up(240.0);
    nowOpen, thumb, alpha, calls := sw.isOpen, sw.frontRectLeft, sw.alpha, sw.notifications;
  }

  /** A tap (press and release at the same x) on a switch at rest toggles it,
      whatever the state, once the track is at least four rims wide; the
      listener hears exactly one call, for the new state. */
  method TapToggles(initiallyOpen: bool, width: nat, x: real) returns (nowOpen: bool, calls: seq<Notice>)
    requires 4 * RimSize <= width
    ensures nowOpen == !initiallyOpen
    ensures calls == [if nowOpen then Open else Close]
  {
    var sw := LaidOutRect(initiallyOpen, width);
    sw.Down(x);
    TapAtRestToggles(initiallyOpen, width / 2, 0);
    sw.Up(x);
    nowOpen, calls := sw.isOpen, sw.notifications;
  }

  /** Forcing the state open and then closed tells the listener `Open` and then
      `Close`, once each, with no animation frames in between. */
  method SetStateTwice(width: nat) returns (calls: seq<Notice>, frames: nat)
    requires 2 * RimSize <= width
    ensures calls == [Open, Close]
    ensures frames == 2
  {
    var sw := LaidOutRect(false, width);
    sw.SetState(true, DefaultHeight);
    sw.SetState(false, DefaultHeight);
    calls, frames := sw.notifications, |sw.redraws|;
  }

  /** Repeating the same move leaves the thumb and alpha where the first one
      put them, and no move notifies the listener or changes the state. */
  method RepeatedMoveIdempotent(initiallyOpen: bool, width: nat, startX: real, x: real)
    returns (first: (int, int), second: (int, int), nowOpen: bool, calls: seq<Notice>)
    requires 2 * RimSize <= width
    ensures first == second
    ensures RimSize <= first.0 <= width / 2 && 0 <= first.1 <= FullAlpha
    ensures nowOpen == initiallyOpen && calls == []
  {
    var sw := LaidOutRect(initiallyOpen, width);
    sw.Down(startX);
    sw.Move(x);
    first := (sw.frontRectLeft, sw.alpha);
    sw.Move(x);
    second := (sw.frontRectLeft, sw.alpha);
    nowOpen, calls := sw.isOpen, sw.notifications;
  }

  /** With drags turned off a whole gesture leaves the thumb, the alpha and the
      state where they were and neither redraws nor notifies. */
  method GestureIgnoredWhenNotSlideable(initiallyOpen: bool, width: nat, x0: real, x1: real, x2: real)
    returns (thumb: int, alpha: int, nowOpen: bool, frames: nat, calls: seq<Notice>)
    requires 2 * RimSize <= width
    ensures thumb == RestLeft(initiallyOpen, width / 2)
    ensures alpha == if initiallyOpen then FullAlpha else 0
    ensures nowOpen == initiallyOpen && frames == 0 && calls == []
  {
    var sw := LaidOutRect(initiallyOpen, width);
    sw.SetSlideable(false);
    sw.Down(x0);
    sw.Move(x1);
    sw.Up(x2);
    thumb, alpha, nowOpen := sw.frontRectLeft, sw.alpha, sw.isOpen;
    frames, calls := |sw.redraws|, sw.notifications;
  }
}
