# SlideSwitch: a verified model of the slide switch's interaction state machine

`XamarinSlideSwitch/SlideSwitch.cs` is an Android view for an on/off toggle.
The view draws a thumb over a track. The thumb is a rectangle half the track
wide, or a circle. The user drags the thumb or taps the switch. On release,
an animation slides the thumb to one edge, commits the new state and calls a
listener. This project models the part of the view that has logic:

- the measuring rule, and the range `[minLeft, maxLeft]` of the thumb's left edge;
- the handling of pointer Down, Move and Up;
- the settle animation (`MoveToDest`), run synchronously to completion;
- the explicit `SetState`, and the setters for shape, slideability and listener.

## Files

- `Geometry.dfy` (module `Geometry`) holds the pure arithmetic:
  - the source's constants (rim 6, default size 280 x 140, shape codes 1 and 2, alpha 255, tap slop 3, settle step 3);
  - `MeasureDimension` and the measured size;
  - the range formulas;
  - the clamp applied while dragging;
  - the track alpha `255 * left / maxLeft`, rounded down;
  - the edge chosen on release.
- `Settle.dfy` (module `Settle`) gives the frames the settle animation redraws, in each direction. Its lemmas give the frame count, each frame's position and alpha, and the fact that the fade is monotone.
- `SlideSwitch.dfy` (module `Switch`) holds the class `SlideSwitch`. Its fields are the view's fields. The source updates them in place. The smaller methods name in `modifies` exactly the fields they change. `OnMeasure`, `Up` and `SetState` use `modifies this` and list in their `ensures` the fields they leave unchanged. The view's two outputs are modelled as logs:
  - `redraws` records a snapshot `Frame(left, alpha)` for each redraw request;
  - `notifications` records the listener calls (`Open`, `Close`) in order.
- `Scenarios.dfy` (module `Scenarios`) applies gesture sequences to a freshly built switch. Each outcome is proved from the method contracts alone.

The invariant `SlideSwitch.Valid()` says the range is usable: `0 < minLeft <= maxLeft`. It also says the thumb and the drag origin lie in that range, and that the alpha lies in `[0, 255]`. `InitDrawingVal`, `OnMeasure` and `SetState` establish `Valid()` exactly when the computed `maxLeft` reaches the rim. `Move` and `Up` keep it.

`Move` and `Up` do not require `Valid()`. They also cover a narrow layout that leaves `0 < maxLeft < 6`, for example a rectangle 2 to 11 wide. `Move` needs only `minLeft > 0`. With an inverted range no clamped position passes the guard at line 180, so the thumb, the alpha and the redraws stay put. `Up` needs `0 < maxLeft` and a non-negative thumb. From rest it then settles with at most one frame, commits an edge and notifies once. `Settle.NarrowRangeSettle` gives those frames. A settle towards the edge where the thumb rests draws one frame, and for a closed switch that frame's alpha is above 255. A settle away from it (an open switch tapped, a closed one dragged) draws none. The states left out are those before the first layout, where `minLeft` is still 0, and a layout that leaves `maxLeft <= 0`: a rectangle 0 or 1 wide, or a circle whose laid-out height exceeds its width by 6 or more. There the alpha at lines 183, 227 and 247 divides by zero or by a negative number in floating point.

Pointer coordinates are real numbers, cast to integers as the source casts them. `Down` and `Move` truncate the raw coordinate toward zero. `Up` truncates the real travel `rawX - eventStartX` toward zero. A release therefore counts as a tap exactly when its real travel lies strictly between -3 and 3 (`Geometry.TapWindow`).

On these points the model follows the code, which may surprise a reader:
- The alpha divides by `maxLeft`, not by `maxLeft - minLeft`. It is rounded down, not to the nearest integer. As a result, a thumb dragged to the left end shows a small alpha, non-zero while `maxLeft <= 1530` (`Geometry.RimAlphaNonZero`), while a switch at rest when closed shows alpha 0.
- The circle range reads the view's laid-out `Height`, not the measured height. Before the first layout that height is 0. The model passes it as the separate parameter `viewHeight`.
- A tap is meant to toggle the switch. On a closed switch, it does so only when `maxLeft >= 12`: with a smaller range, the rest position 6 already lies past the midpoint. `Geometry.TapAtRestToggles` states this as an if-and-only-if.
- An inverted range is not clamped to a single point. `InitDrawingVal` stores it as it is. `Move`'s guard (line 180) would then skip the update; `ClampThumb` states that case.
- No `isOpen` round trip through saved state exists: `OnSaveInstanceState` returns the base state and drops the bundle that holds the flag.
- The settle never requests a redraw after its final snap to the edge (lines 236-241, 256-261). The last frame requested can stop short of the edge by up to two units. Settling right from 6 to 140, for example, the last frame shows the thumb at 138. `Settle.SettleFramesInRange` states this bound.

## Model

| member | source | states |
|---|---|---|
| `Geometry.MeasureDimension` | XamarinSlideSwitch/SlideSwitch.cs:110-128 | the parent's size in mode Exactly; the smaller of the preferred size and the limit in mode AtMost; the preferred size otherwise |
| `Geometry.MeasuredSize` | XamarinSlideSwitch/SlideSwitch.cs:65-79 | height measured against 140 and width against 280; a circle is never narrower than tall, because a width below the height becomes twice the height |
| `Geometry.RestLeft` | XamarinSlideSwitch/SlideSwitch.cs:97-106 | the thumb rests at `maxLeft` when open and at the rim (6) when closed |
| `Geometry.ThumbWidth` | XamarinSlideSwitch/SlideSwitch.cs:140-156 | the drawn thumb is half the measured width less one rim (rectangle), or the measured height less two rims (circle) |
| `Geometry.MaxLeft` | XamarinSlideSwitch/SlideSwitch.cs:87-95 | a rectangle's range ends at half the width (rounded down); a circle's range ends where a thumb of side `viewHeight - 12` leaves one rim to the right end |
| `Geometry.RestingThumbInsideTrack` | XamarinSlideSwitch/SlideSwitch.cs:140-156 | at both ends of the range the drawn thumb stays inside the track, one rim from the left end and at least one rim from the right; for a laid-out circle, exactly one rim |
| `Geometry.MeasuredRangeUsable` | XamarinSlideSwitch/SlideSwitch.cs:65-95 | after measuring, the range reaches the rim iff the shape is a circle (laid out at its measured height) or the rectangle is at least 12 wide |
| `Geometry.ClampThumb` | XamarinSlideSwitch/SlideSwitch.cs:177-180 | the dragged position lies in `[lo, hi]` iff the range is not inverted; it is unchanged inside the range, `lo` below it and `hi` above it |
| `Geometry.Alpha` | XamarinSlideSwitch/SlideSwitch.cs:183 | the alpha is the floor of `255 * left / maxLeft`; inside the range it lies in `[0, 255]` and is 255 iff the thumb is at `maxLeft`; past the range end it is at least 255 |
| `Geometry.AlphaMonotone` | XamarinSlideSwitch/SlideSwitch.cs:227 | a thumb further right never has a smaller alpha |
| `Geometry.RimAlphaNonZero` | XamarinSlideSwitch/SlideSwitch.cs:183 | a thumb at the rim shows a non-zero alpha iff the range ends at or before 1530 |
| `Geometry.TruncToInt` | XamarinSlideSwitch/SlideSwitch.cs:170 | a raw coordinate cast to an integer loses its fraction, rounding toward zero |
| `Geometry.TapWindow` | XamarinSlideSwitch/SlideSwitch.cs:190-194 | a release counts as a tap iff its real travel lies strictly between -3 and 3 |
| `Geometry.SettlesOpen` | XamarinSlideSwitch/SlideSwitch.cs:190-197 | a drag of 3 or more settles right iff the thumb is past `maxLeft / 2`; a shorter travel (a tap) settles right iff it is not |
| `Geometry.TapAtRestToggles` | XamarinSlideSwitch/SlideSwitch.cs:193-197 | a tap on a switch at rest flips its state iff the switch is open or `maxLeft >= 12` |
| `Settle.RightwardFrames` | XamarinSlideSwitch/SlideSwitch.cs:225-235 | settling right from `from` redraws `(maxLeft - from) / 3 + 1` times, or not at all past the edge; the first frame shows the start with its alpha |
| `Settle.LeftwardFrames` | XamarinSlideSwitch/SlideSwitch.cs:245-255 | settling left from `from` redraws `(from - minLeft) / 3 + 1` times, or not at all left of the edge; the first frame shows the start with its alpha |
| `Settle.SettleFrames` | XamarinSlideSwitch/SlideSwitch.cs:223-255 | a settle draws some frame unless the thumb starts beyond the chosen edge, and the first frame shows the release position |
| `Settle.RightwardFrameAt` | XamarinSlideSwitch/SlideSwitch.cs:225-235 | the k-th frame settling right shows the thumb at `from + 3k` with that position's alpha |
| `Settle.LeftwardFrameAt` | XamarinSlideSwitch/SlideSwitch.cs:245-255 | the k-th frame settling left shows the thumb at `from - 3k` with that position's alpha |
| `Settle.SettleFrameAt` | XamarinSlideSwitch/SlideSwitch.cs:223-255 | the k-th frame of a settle in either direction is k steps from the release position, towards the edge, with that position's alpha |
| `Settle.SettleFramesInRange` | XamarinSlideSwitch/SlideSwitch.cs:221-263 | a settle draws at least one frame; every frame's thumb lies in the range and its alpha in `[0, 255]`; the last frame is less than one step from the edge the thumb then snaps to |
| `Settle.SettleFadeMonotone` | XamarinSlideSwitch/SlideSwitch.cs:225-255 | the alpha never decreases from frame to frame when settling right, and never increases when settling left |
| `Settle.NarrowRangeSettle` | XamarinSlideSwitch/SlideSwitch.cs:221-263 | with an inverted range (`0 < maxLeft < 6`) a switch at rest settles by at most one frame. A drag settles right and a tap settles left, whatever the state. Settling towards the resting edge (an open switch dragged, a closed one tapped) draws exactly one frame: at `maxLeft` with alpha 255 when open, at 6 with an alpha above 255 when closed. Settling away from it (an open switch tapped, a closed one dragged) draws none |
| `Switch.Notify` | XamarinSlideSwitch/SlideSwitch.cs:236-261 | a completed transition makes exactly one listener call (`Open` iff the switch is now open) when a listener is set, and none otherwise |
| `Switch.SlideSwitch.constructor` | XamarinSlideSwitch/SlideSwitch.cs:38-57 | a new switch has the given state and shape, no listener, accepts drags, has drag origin 6 and zero for the other fields, and has empty logs |
| `Switch.SlideSwitch.InvalidateView` | XamarinSlideSwitch/SlideSwitch.cs:266-276 | a redraw request records the current thumb position and alpha, and changes nothing else |
| `Switch.SlideSwitch.InitDrawingVal` | XamarinSlideSwitch/SlideSwitch.cs:81-108 | `minLeft == 6`; `maxLeft` is the shape's range end; thumb and drag origin sit at the resting edge (`maxLeft` when open, 6 when closed), with alpha 255 or 0; `Valid()` holds iff `maxLeft >= 6` |
| `Switch.SlideSwitch.OnMeasure` | XamarinSlideSwitch/SlideSwitch.cs:65-79 | records the measured size, then re-derives the range and resting geometry; state, listener, gesture fields and logs are unchanged |
| `Switch.SlideSwitch.Down` | XamarinSlideSwitch/SlideSwitch.cs:164-172 | changes only the drag start, to the raw coordinate truncated toward zero, and only when drags are accepted |
| `Switch.SlideSwitch.Move` | XamarinSlideSwitch/SlideSwitch.cs:173-187 | when drags are accepted: records the truncated coordinate and its distance from the start; with a usable range, thumb = drag origin + distance clamped into the range, alpha is that position's alpha, and there is one redraw; with an inverted range, thumb, alpha and redraws stay. Drag origin, state and listener log never change, so repeating a move is idempotent; nothing at all changes when drags are off; keeps `Valid()` |
| `Switch.SlideSwitch.Up` | XamarinSlideSwitch/SlideSwitch.cs:188-200 | when drags are accepted, settles to the edge `SettlesOpen` picks from the release position and the real travel truncated toward zero, with that edge's final state, frames and single notification; nothing changes when drags are off; keeps `Valid()` |
| `Switch.SlideSwitch.MoveToDest` | XamarinSlideSwitch/SlideSwitch.cs:207-264 | the stepped loop terminates; it redraws exactly the settle frames and nothing after the snap, then ends with thumb = drag origin = the chosen edge, alpha 255 or 0, `isOpen` equal to the direction, and one notification if a listener is set; `Valid()` holds afterwards iff the range is not inverted |
| `Switch.SlideSwitch.SetSlideListener` | XamarinSlideSwitch/SlideSwitch.cs:278-281 | sets or clears the listener |
| `Switch.SlideSwitch.SetState` | XamarinSlideSwitch/SlideSwitch.cs:283-299 | sets `isOpen`; re-derives the range and resting geometry as `InitDrawingVal` does; makes one redraw and one notification (`Open` iff open) when a listener is set; leaves the gesture fields alone |
| `Switch.SlideSwitch.SetShapeType` | XamarinSlideSwitch/SlideSwitch.cs:301-304 | changes only the shape; the range waits for the next layout |
| `Switch.SlideSwitch.SetSlideable` | XamarinSlideSwitch/SlideSwitch.cs:306-309 | changes only whether drags are accepted |
| `Scenarios.DragAcrossOpens` | XamarinSlideSwitch/SlideSwitch.cs:168-198 | a closed 280 x 140 rectangle dragged 140 right and released settles open with thumb 140, alpha 255 and exactly one `Open` |
| `Scenarios.TapToggles` | XamarinSlideSwitch/SlideSwitch.cs:188-198 | a tap on a resting rectangle at least 24 wide flips its state and makes exactly one call, for the new state |
| `Scenarios.SetStateTwice` | XamarinSlideSwitch/SlideSwitch.cs:283-299 | forcing open then closed calls `Open` then `Close`, once each, with one redraw each and no animation |
| `Scenarios.RepeatedMoveIdempotent` | XamarinSlideSwitch/SlideSwitch.cs:173-186 | a second identical move leaves thumb and alpha as the first move left them; moves never notify or change the state |
| `Scenarios.GestureIgnoredWhenNotSlideable` | XamarinSlideSwitch/SlideSwitch.cs:164-165 | with drags off, a Down/Move/Up gesture changes neither thumb, alpha nor state, and neither redraws nor notifies |

## Left out

- Drawing (`OnDraw`, paints, rectangles, the theme colour) is not modelled. Only the thumb's drawn width is used, to state `RestingThumbInsideTrack`.
- Attribute loading in the constructor is not modelled. The initial state and shape are constructor parameters. The theme colour matters only for drawing and is dropped.
- Threading is not modelled: the thread-pool work item, `Thread.Sleep`, the handler that posts listener calls to the UI thread, and the main-looper check in `InvalidateView`. The settle loop runs synchronously to completion, and each redraw request records a snapshot. So the race where a new Down arrives while a settle is still running is not modelled, and neither is the case where the listener changes before a posted call is delivered.
- Saving and restoring instance state is not modelled. It is platform bundle plumbing, and the save path discards the bundle anyway.
- Switch.SlideSwitch.Move: the alpha is computed as integer floor division. The source divides in single-precision floating point and truncates the result. The two agree while coordinates stay below about 16000; floating-point rounding beyond that is not modelled.
- Switch.SlideSwitch.MoveToDest: the same integer alpha replaces the floating-point one on every tick.
- Integers are unbounded. 32-bit overflow of `diffX + frontRect_left_begin`, and `Math.Abs` throwing on the smallest integer, are not modelled. Raw pointer coordinates are exact real numbers rather than single-precision floats. The casts that truncate them toward zero are modelled.
- The `bool` returned by `OnTouchEvent` is not modelled; when drags are off it is the platform's answer. Pointer actions other than Down, Move and Up are not modelled either, since the source ignores them.
- The bit packing of Android measure specifications is not modelled: a specification is a mode and a size. `base.OnMeasure` and `SetMeasuredDimension` become two fields.
- The listener is modelled only by whether one is registered, not by its identity.
- Switch.SlideSwitch.Move requires `minLeft > 0`, and Switch.SlideSwitch.Up requires `0 < minLeft`, `0 < maxLeft` and a non-negative thumb. So events that arrive before the first layout (when `minLeft` is 0) are not modelled. Neither are events after a layout that leaves `maxLeft` at 0 or below (a rectangle 0 or 1 wide, or a circle whose laid-out height exceeds its width by 6 or more). There the source's alpha is a floating-point division by zero (NaN, then cast), or a division by a negative number.
