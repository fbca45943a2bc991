# Hand scanner: verified model of the measurement loop

This project models the logic of a webcam hand-measurement script.
A guide box sits in the middle of each frame and stands for 20 cm.
A hand landmark detector reports 21 points of at most one hand.
When the hand lies well inside the box, the script measures its width and height in inches.
When the fingertip is near the box top and the wrist is near the box bottom, a countdown starts.
The script saves the frame when the countdown runs out, or at once when the operator presses `c`.
ESC quits without saving.

Five modules, following the script's structure:

- `units.dfy` (`Units`): the configuration constants and the conversion helpers. These are pixel distance, pixels to centimetres, centimetres to inches, and the size category (the ceiling of width × height). Python's `int()` truncation and `math.ceil` are written out.
- `geometry.dfy` (`Geometry`): integer pixel geometry. It covers the guide box built with floor division, the containment test with its 11 px margin, and the proximity gate.
- `countdown.dfy` (`Countdown`): the capture gate. A frame, once its geometry is evaluated, is a `Sighting`: no frame, no hand, a hand off centre, or a centred hand with its measurement and the proximity verdict. `Transition` is the countdown state machine plus key handling on a sighting. The state is `State(counting, start)`. The result is `Continue(next)`, `Save(how, category, size)` or `Stop`.
- `scanner.dfy` (`Scanner`): one loop iteration on a raw frame. `Classify` evaluates the guide box, the containment test, the measurement and the proximity gate into a `Sighting`. `Step` is `Classify` followed by `Transition`.
- `session.dfy` (`Session`): `Run` feeds a sequence of observations to `Transition` until one of them saves or stops. Each observation is a classified frame, a clock reading and a key code; `Observe` builds one from a raw frame. Lemmas here cover whole runs.

In these places the script behaves differently from what its constants and messages suggest, and the model follows the code:

- Auto-capture fires once `int(2.0 - elapsed) <= 0`. That happens when more than 1.0 s has elapsed, not at 2.0 s (`Countdown.Remaining`, `Countdown.CloseWhileCounting`).
- A hand that is detected but not centred does not reset the countdown. It leaves the state unchanged, because `hand_scanner.py:62` has no `else` (`Countdown.OutsideBoxKeepsState`). Only a centred hand out of position and a frame without a hand reset it.
- The guide box is 224 px on a side, not 225, because of `225 // 2` (`Geometry.GuideBox`).
- A reset clears `counting_down` and leaves the old `countdown_start` in place. The model keeps that stale value and proves that it is never read (`Countdown.StaleStartIgnored`).

## Model

| member | source | states |
|---|---|---|
| Units.PixelsPerCmValue | utils.py:4-6 | the ratio 225 / 20 is 11.25 and positive, so every pixel-to-cm division is defined |
| Units.Trunc | hand_scanner.py:114 | Python's `int()` on a float truncates toward zero: the result lies within one unit of the input, on the zero side |
| Units.Ceil | utils.py:28 | `math.ceil(x)` lies in `[x, x + 1)` |
| Units.CeilLeast | utils.py:28 | every integer not below `x` is at least `Ceil(x)`, so the ceiling is the least such integer |
| Units.CeilMonotone | utils.py:28 | the ceiling is monotone |
| Units.Distance | utils.py:17-18 | the distance is non-negative and its square is `dx² + dy²`, for any square root satisfying `IsSqrt` |
| Units.DistanceSymmetric | utils.py:17-18 | swapping the two points leaves the distance unchanged |
| Units.DistanceZeroIff | utils.py:17-18 | the distance is zero exactly when the points coincide |
| Units.PixelsToCmWith | utils.py:20-21 | for any non-zero ratio, multiplying the result back by the ratio gives `px` |
| Units.PixelsToCm | utils.py:20-21 | with the default ratio, non-negative pixel lengths give non-negative centimetres |
| Units.PixelsToCmInverse | utils.py:20-21 | multiplying the centimetres back by 11.25 gives the pixel length |
| Units.PixelsToCmLinear | utils.py:20-21 | the conversion is linear, `k·px ↦ k·cm`, and maps 0 to 0 |
| Units.PixelsToCmExample | utils.py:20-21 | 112.5 px is 10 cm |
| Units.CmToInches | utils.py:23-24 | non-negative centimetres give non-negative inches |
| Units.CmToInchesInverse | utils.py:23-24 | multiplying the inches back by 2.54 gives the centimetres |
| Units.CmToInchesStrictlyIncreasing | utils.py:23-24 | the conversion is strictly increasing |
| Units.CmToInchesExamples | utils.py:23-24 | 2.54 cm is 1 inch; 10 cm lies between 3.937 and 3.938 inches |
| Units.WeightCategory | utils.py:26-28 | the category is an integer in `[w·h, w·h + 1)` |
| Units.WeightCategoryUnique | utils.py:26-28 | any integer in `[w·h, w·h + 1)` is the category, so the bounds determine it |
| Units.WeightCategoryMonotone | utils.py:26-28 | for non-negative sizes the category does not decrease when either size grows |
| Units.WeightCategoryExamples | utils.py:26-28 | (3.0, 4.0) gives 12 and (3.1, 4.0) gives 13 |
| Geometry.MarginValue | hand_scanner.py:51 | the margin `int(225 * 0.05)` is 11 px |
| Geometry.ProximityPxValue | utils.py:6-8 | the 1.6 cm threshold at 11.25 px/cm is exactly 18 px |
| Geometry.GuideBox | hand_scanner.py:39-42 | the box is centred on `(w//2, h//2)`, and its side is `BOX_WIDTH_PX - 1` = 224 px, one pixel less than requested, because `225 // 2` is 112 |
| Geometry.Min | hand_scanner.py:53-54 | `min` of a non-empty list is one of its elements and is at most each of them |
| Geometry.Max | hand_scanner.py:53-54 | `max` of a non-empty list is one of its elements and is at least each of them |
| Geometry.IsHandInsideBox | hand_scanner.py:47-55 | comparing min/max landmark coordinates with the shrunk box holds exactly when every landmark lies strictly inside `[x1+11, x2-11] × [y1+11, y2-11]` |
| Geometry.TouchingIsNotInside | hand_scanner.py:52-55 | a landmark on or beyond any edge of the guide box makes the hand not centred |
| Geometry.BoundingBoxEqualIsNotInside | hand_scanner.py:52-55 | landmarks whose bounding box equals the guide box are not centred |
| Geometry.SubsetStaysInside | hand_scanner.py:52-55 | a non-empty subset of a centred landmark set is centred |
| Geometry.TopDistanceCm | hand_scanner.py:94 | the fingertip-to-top distance in cm is non-negative and, multiplied back by 11.25, is the vertical pixel gap `abs(y12 - box_y1)` |
| Geometry.BottomDistanceCm | hand_scanner.py:95 | the wrist-to-bottom distance in cm is non-negative and, multiplied back by 11.25, is the vertical pixel gap `abs(box_y2 - y0)` |
| Geometry.IsProximate | hand_scanner.py:94-108 | both distances are at most 1.6 cm exactly when both vertical pixel gaps are at most 18 |
| Geometry.ProximityBands | hand_scanner.py:108 | for a centred hand that passes the gate, the fingertip is 12 to 18 px below the box top and the wrist is 12 to 18 px above the box bottom |
| Countdown.KeyByte | hand_scanner.py:135 | `key & 0xFF` is the byte congruent to the key modulo 256 |
| Countdown.Remaining | hand_scanner.py:113-118 | the whole seconds left are positive exactly when elapsed ≤ 1.0 s |
| Countdown.Expired | hand_scanner.py:109-118 | a countdown has run out exactly when one is running and more than `COUNTDOWN_SECONDS - 1` = 1.0 s has elapsed since its start |
| Countdown.SaveWith | hand_scanner.py:119-122 | a save reports the category of this frame's measurement; the category is at least 1 |
| Countdown.KeyStep | hand_scanner.py:135-143 | ESC stops; `c` saves exactly when the hand is centred on this frame; any other key keeps the state |
| Countdown.Transition | hand_scanner.py:107-143 | it auto-saves exactly on a centred, close frame with an expired countdown; a manual save needs a centred hand, no expiry and `c`; it stops on a failed read, or on ESC without expiry; a save carries the frame's measurement and a category of at least 1 |
| Countdown.NoHandResets | hand_scanner.py:131-132 | with no hand the countdown is cleared, and `c` does nothing |
| Countdown.OutsideBoxKeepsState | hand_scanner.py:59-63 | a detected hand that is not centred leaves `counting` and `start` unchanged |
| Countdown.NotCloseResets | hand_scanner.py:124-125 | a centred hand that fails the proximity gate clears the countdown |
| Countdown.CloseStartsCountdown | hand_scanner.py:108-111 | the first qualifying frame sets `start := now`, `counting := true` and never auto-saves |
| Countdown.CloseWhileCounting | hand_scanner.py:112-123 | while counting, a qualifying frame auto-saves iff more than 1.0 s has elapsed, and otherwise keeps the state |
| Countdown.StaleStartIgnored | hand_scanner.py:109-113 | states that differ only in a `start` that is not being counted give equivalent outcomes |
| Scanner.Centred | hand_scanner.py:57-63 | `hand_centered` holds exactly when the read succeeded, a hand was detected and every landmark lies strictly inside the guide box shrunk by 11 px |
| Scanner.Close | hand_scanner.py:92-108 | a frame passes the gate exactly when the hand is centred and both the fingertip-to-top and wrist-to-bottom vertical gaps are at most 18 px |
| Scanner.PixelDistance | hand_scanner.py:70-73 | the distance between two landmarks is non-negative and its square is `dx² + dy²` in pixels |
| Scanner.PixelsToInches | hand_scanner.py:75-79 | a non-negative pixel length gives at least the calibration offset |
| Scanner.PixelsToInchesInverse | hand_scanner.py:75-79 | removing the offset and multiplying back by 2.54 and 11.25 gives the pixel length |
| Scanner.Measure | hand_scanner.py:65-79 | the width is at least 0.70 in and the height at least 0.40 in |
| Scanner.MeasureInverse | hand_scanner.py:70-79 | width and height convert back to the index-base/pinky-base and wrist/middle-tip pixel distances |
| Scanner.Classify | hand_scanner.py:59-108 | it separates failed read, no hand, hand not centred and centred hand; for a centred hand it carries the measurement and whether the proximity gate holds |
| Scanner.Step | hand_scanner.py:30-143 | the same gate stated on raw frames: auto-save iff close and expired; manual save iff centred and `c` and not expired; stop iff read failure or ESC without expiry; every save has width ≥ 0.70 in, height ≥ 0.40 in and category = ceil(width·height) ≥ 1 |
| Session.Observe | hand_scanner.py:30-108 | an observation is centred exactly when the raw frame is, keeps the frame's clock and key, and every transition on it is the raw `Step` |
| Session.Run | hand_scanner.py:29-143 | a run ends on an observation it was given, with a save or a stop; a save happens only on a centred frame |
| Session.RunAppend | hand_scanner.py:29-143 | running over `a + b` is running over `a` and then over `b`, unless `a` already ended the loop |
| Session.EndedIgnoresLaterObservations | hand_scanner.py:136-143 | once a save or stop has ended the loop, later observations change nothing |
| Session.EndsAtFirstNonContinue | hand_scanner.py:29-143 | a run ending at iteration `i` is still running after every shorter prefix, so it saves at most once; iteration `i`'s transition produced the outcome |
| Session.FirstExpired | hand_scanner.py:113-118 | the index of the first observation more than 1.0 s after the start, with no earlier one |
| Session.HeldWhileCounting | hand_scanner.py:112-123 | with a countdown running and the hand held in position, the loop auto-saves exactly at the first frame more than 1.0 s after the start; with no such frame it keeps counting |
| Session.HeldFromIdle | hand_scanner.py:107-123 | from a non-counting state, holding the hand starts the countdown at the first frame and saves exactly once, at the first later frame more than 1.0 s after it |
| Session.HeldFromStart | hand_scanner.py:25-26 | from the script's start state, holding the hand in position ends the loop exactly when some later frame is more than 1.0 s after the first one, and then at the first such frame |
| Session.ResetThenRestart | hand_scanner.py:107-132 | after a frame with no hand, or with a centred hand out of position, the next qualifying frame starts the countdown fresh from its own time |

## Left out

- Camera acquisition, the window, `waitKey`'s wait and all drawing (`rectangle`, `putText`, `line`, `draw_landmarks`, `imshow`, `release`) are I/O. The model keeps only the frame size, the detector's result and the key code.
- The landmark detector is an external model. Its result is an input: no hand, or 21 integer pixel points. The float-to-pixel conversion `int(lm.x * w)` happens before the model.
- `cv2.imwrite` and the `print` calls become the `Save` outcome. It carries the size category and whether the save was automatic or manual. The save path is not modelled.
- `time.time()` is replaced by the `now` field of each tick or observation (one reading per iteration; the script reads the clock once on any path that uses it), in seconds as a real.
- Floating point is modelled by exact reals. The model does not follow IEEE rounding in `math.hypot`, in the divisions or in `225 * 0.05`. For the constants used, the rounded and exact comparisons agree (an 18 px gap is exactly 1.6 cm).
- Units.Distance: `math.hypot` becomes a square-root function passed in as a parameter, because Dafny's reals have no square root. `IsSqrt` states what is assumed of it. It also states `root(0) = 0`, which a true square root satisfies.
- Scanner.Step: requires a detected hand to have exactly 21 landmarks, as the hand landmark model always reports. The same requirement sits on Scanner.Centred, Scanner.Close, Scanner.Classify, Scanner.Measure and Session.Observe. With other counts the script does not always fail: an off-centre hand is never indexed, and a centred hand with 18 to 20 points reads landmarks 0, 5, 12 and 17 without error. Only a centred hand with fewer than 18 points raises `IndexError` (hand_scanner.py:66), and an empty list makes `min` raise `ValueError` (hand_scanner.py:53). Those counts are not modelled.
