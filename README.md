# jquery-touchslider: gesture core in Dafny

This project models the core of `jquery.touchslider.js`, a Zepto plugin that turns an element into a horizontally paged carousel. The carousel is dragged with one finger.

- **Bezier** (`bezier.dfy`): the cubic-Bezier emulator of CSS3 timing functions.
  - The polynomial form of a curve through (0,0), (p1,p2), (p3,p4), (1,1): the coefficients `Cx/Bx/Ax`, `Cy/By/Ay`, and `bezier_x`, `bezier_y`, `bezier_x_der`.
  - The bounded Newton loop `find_x_for`: at most five steps, starting from u = t, stopping once |x(u) - t| < 0.001.
  - The timing function `bezier_y(find_x_for(t))`.
  - The polynomial form is proved equal to the Bernstein form of the same control points. From that follow the fixed endpoints and the end slopes of x.
- **TouchSlider** (`touch_slider.dfy`): the `ipadSlider` closure as the class `Slider`.
  - The closure variables become fields, and the four handlers become methods: `touchstart`, `touchmove`, `touchend` and `slideTo`.
  - The handler decisions are also stated as functions: the collapse of an interrupted animation, the half-speed edge resistance, the flick policy, the clamp, the velocity with its 0.1 fallback, and the animation duration.
- **JsNumbers** (`js_numbers.dfy`): JavaScript `undefined` as `Option`, a number that became NaN or infinite as `NonFinite`, and `Math.round`, `Math.floor` and `Math.abs`.
- **TouchSliderScenarios** (`scenarios.dfy`): whole gestures driven through the handlers, each with its stated outcome.

The model keeps the following behaviours of the handler code exactly as written:

- **Shadowed `t`.** In `touchstart` the elapsed time is held in a local `var t`. The assignment at the end of that handler therefore writes the local. The closure's `t` keeps the last move time of the previous gesture, or stays `undefined` on the first gesture. Only `initial_t` and `previous_t` get the new time. The first move of a gesture then copies that stale or undefined `t` into `previous_t`. The release velocity of a gesture with one move of 1 px or more is therefore NaN while no earlier gesture has moved, since `t` is still undefined. Once an earlier gesture has moved, that velocity is divided by the time since the last move of that earlier gesture. A one-move gesture that moved under 1 px gets the 0.1 fallback either way, because the distance test comes first. `FirstGestureSingleMove` and `SecondGestureStaleTime` show the two cases.
- **Fixed completion delay.** `slidTo` is scheduled 500 ms after `slideTo`, whatever the animation's duration. Timers are only ever added, never cancelled.
- **Legacy release policy.** A drag longer than 250 ms lands on the nearest slide (`Math.round`, halves upwards). A quicker flick of under 20 px keeps the starting slide. Any other flick moves to the previous slide when the finger moved right, and to the next slide when it moved left. The velocity is the raw last-sample `Δx/Δt`. Other revisions of this slider rescale the velocity by the distance still to travel and project the target from the velocity. This file does neither, so the model does neither.

Arithmetic is exact over `real` for offsets and positions, and over `int` milliseconds for times. Rounding and overflow of IEEE doubles are not modelled.

## Model

| member | source | states |
|---|---|---|
| JsNumbers.Round | jquery.touchslider.js:166 | `Math.round` gives the integer r with r - 1/2 <= v < r + 1/2: the nearest integer, halves upwards |
| JsNumbers.Abs | jquery.touchslider.js:187 | `Math.abs` gives a non-negative value equal to its argument or to its negation |
| JsNumbers.Floor | jquery.touchslider.js:129 | `Math.floor` gives the greatest integer not above its argument |
| Bezier.Coefficients | jquery.touchslider.js:13-18 | c = 3*q1; the coefficients sum to 1, so the cubic passes through (1,1); b + 2c = 3*q2 |
| Bezier.PolyIsBernstein | jquery.touchslider.js:13-25 | the polynomial form `t*(C + t*(B + t*A))` equals the Bernstein form of a cubic Bezier with end points 0 and 1, for every t |
| Bezier.Curve.X | jquery.touchslider.js:20-22 | `bezier_x(t)` is the Bernstein form of a cubic Bezier with inner x control points p1 and p3 |
| Bezier.Curve.Y | jquery.touchslider.js:23-25 | `bezier_y(t)` is the Bernstein form of a cubic Bezier with inner y control points p2 and p4 |
| Bezier.Curve.XDer | jquery.touchslider.js:28-30 | `bezier_x_der(t)` equals the Bernstein-form derivative 3(1-t)²p1 + 6(1-t)t(p3-p1) + 3t²(1-p3) |
| Bezier.CurveEndpoints | jquery.touchslider.js:20-25 | `bezier_x(0) = bezier_y(0) = 0` and `bezier_x(1) = bezier_y(1) = 1` for all control points |
| Bezier.DerivativeIsLinearTerm | jquery.touchslider.js:20-30 | `bezier_x_der(t)` is the linear coefficient of the exact Taylor expansion of `bezier_x` around t, so it is the derivative |
| Bezier.EndSlopes | jquery.touchslider.js:28-30 | `bezier_x_der(0) = 3*p1` and `bezier_x_der(1) = 3*(1 - p3)` |
| Bezier.Newton | jquery.touchslider.js:32-45 | the Newton iteration takes at most 5 steps; stopping before 5 means a finite parameter u with \|x(u) - t\| < 0.001, and conversely a finite candidate within that tolerance ends the iteration at once, unchanged; once a step divides by a zero derivative the candidate is non-finite and all 5 steps run |
| Bezier.FindXFor | jquery.touchslider.js:32-45 | the `while` loop computes exactly the iteration `Newton` specifies, so it has the same step bound and early-exit guarantee |
| Bezier.Ease | jquery.touchslider.js:47-49 | when the elapsed fraction t is itself within the tolerance (x(t) close to t), the progress is `bezier_y(t)`; the progress is non-finite only after all 5 steps ran |
| Bezier.Evaluate | jquery.touchslider.js:47-49 | the timing function is `bezier_y` at the parameter `find_x_for` returns (non-finite if that is) |
| Bezier.EaseEndpoints | jquery.touchslider.js:32-49 | every curve maps elapsed fraction 0 to progress exactly 0 and 1 to exactly 1; the iteration exits before its first step at both ends |
| Bezier.LinearCurveIsIdentity | jquery.touchslider.js:13-49 | for the curve with control points (1/3,1/3) and (2/3,2/3), x(u) = y(u) = u and the timing function returns u for every u |
| TouchSlider.Collapse | jquery.touchslider.js:115-120 | with no animation running the surface is on the target; while one runs, the surface stays where it was exactly when it was already on the target or the curve's progress is 0 |
| TouchSlider.CollapseAtStart | jquery.touchslider.js:115-117 | a touch at the instant an animation starts leaves the offset unchanged when the curve starts at 0 |
| TouchSlider.CollapseAtEnd | jquery.touchslider.js:115-120 | a touch once the full duration has elapsed puts the offset on the target; the collapse formula meets that value at the boundary when the curve ends at 1 |
| TouchSlider.CollapseExtremes | jquery.touchslider.js:116-117 | while running, curve progress 0 leaves the offset where it was and progress 1 yields the target offset |
| TouchSlider.CollapseBetween | jquery.touchslider.js:115-120 | with curve progress in [0,1] the collapsed offset lies between the old offset and the target |
| TouchSlider.Resist | jquery.touchslider.js:147-154 | inside [0, right_edge] the offset follows the raw drag; past the left edge it is raw/2, past the right edge the excess is halved; either way it lies strictly between the nearer edge and the raw offset |
| TouchSlider.ResistMonotone | jquery.touchslider.js:147-154 | with at least one slide, a larger raw drag always shows a larger offset, so the resistance never reverses the motion |
| TouchSlider.FlickTarget | jquery.touchslider.js:164-176 | after more than 250 ms, the nearest slide to the offset; otherwise within one slide of the starting slide: the same slide exactly when the finger moved under 20 px, the previous slide exactly when it moved 20 px or more to the right, the next slide exactly when it moved 20 px or more to the left |
| TouchSlider.Clamp | jquery.touchslider.js:178-182 | the result lies in [0, last_slide] when there is a slide; an index already in range is kept; below 0 becomes 0, above the last becomes the last |
| TouchSlider.ReleaseTargetBounds | jquery.touchslider.js:164-182 | with at least one slide, the released target is always in [0, last_slide]; a flick from an in-range slide moves at most one slide; a slow drag inside the slider lands on the nearest slide, unclamped |
| TouchSlider.Velocity | jquery.touchslider.js:186-191 | 0.1 when the samples are under 1 px apart or at the same millisecond; otherwise v with v*Δt = Δx, so no division by zero; NaN exactly when a time is undefined and the positions differ by 1 px or more |
| TouchSlider.VelocityDirection | jquery.touchslider.js:186-191 | for samples in time order, the computed velocity is positive exactly when the finger moved right |
| TouchSlider.Duration | jquery.touchslider.js:197-199 | the duration is always positive: 1 ms exactly when `animate === false`, 500 ms otherwise |
| TouchSlider.Slider.constructor | jquery.touchslider.js:97-107 | a new slider is at offset 0, aiming at slide 0, with no animation and an undefined latest time; right_edge = slide_width * (n_slides - 1) |
| TouchSlider.Slider.TouchStart | jquery.touchslider.js:109-131 | not exactly one touch: no state changes; otherwise the offset is collapsed, initial_offset and the rendered offset equal it, initial_slide = floor(target_offset / slide_width) is the target slide, x = previous_x = initial_x = the touch, initial_t = previous_t = now, and `t` keeps its old value |
| TouchSlider.Slider.SlideUnderFinger | jquery.touchslider.js:129 | initial_slide = floor(target_offset / slide_width) is exactly the slide the target offset belongs to |
| TouchSlider.Slider.RecordFirstSample | jquery.touchslider.js:130-131 | the touch becomes initial_x, previous_x and x; its time becomes initial_t and previous_t; the closure's `t` is not written |
| TouchSlider.Slider.InterruptAnimation | jquery.touchslider.js:114-120 | the offset becomes the collapse of the running animation, or the target offset if none is running |
| TouchSlider.Slider.TouchMove | jquery.touchslider.js:134-158 | not exactly one touch: no state changes and no preventDefault; otherwise the old x and t move into previous_x and previous_t, the new sample is stored, the offset is the edge-resisted `initial_offset + (initial_x - x)`, and the initial sample, target and animation are unchanged |
| TouchSlider.Slider.TouchEnd | jquery.touchslider.js:160-193 | aims at `Clamp` of the `FlickTarget` slide and releases with `Velocity` of the last two samples, with its offset inside [0, right_edge] when there is at least one slide; starts a 500 ms animation with a curve for the release velocity; logs `slidingTo` and a `slidTo` due 500 ms later; the samples and current offset are unchanged |
| TouchSlider.Slider.SlideTo | jquery.touchslider.js:194-213 | target_offset = slide * slide_width; the animation starts now with a positive duration and the given curve, or the 0.1-velocity curve; one `slidingTo` is logged and one `slidTo` is scheduled at now + 500 whatever the duration; the current offset and samples are unchanged |
| TouchSlider.SlideOfOffset | jquery.touchslider.js:129 | flooring a slide's offset divided by the slide width gives back that slide |
| TouchSliderScenarios.FlickLeft | jquery.touchslider.js:134-193 | a 60 px flick to the left within 100 ms advances to slide 1, with velocity -30 px / 20 ms = -1.5 |
| TouchSliderScenarios.FirstGestureSingleMove | jquery.touchslider.js:115-145 | on the first gesture, a single move leaves previous_t undefined, so the release velocity is NaN |
| TouchSliderScenarios.SecondGestureStaleTime | jquery.touchslider.js:115-191 | on a later gesture, the first move takes previous_t from the previous gesture, so the velocity is -50/950 instead of -50/50 |
| TouchSliderScenarios.Tap | jquery.touchslider.js:109-191 | a tap keeps slide 0 with the 0.1 fallback velocity; two-finger events change nothing and prevent nothing |
| TouchSliderScenarios.InterruptHalfway | jquery.touchslider.js:114-201 | a `slideTo` given the linear curve (1/3,1/3),(2/3,2/3) as its `bezier` option records that curve; touching 250 ms into its 500 ms animation from 0 to 320 stops the surface at 160, the collapse evaluating the curve through `Linear`, which equals that curve's timing function everywhere |

## Left out

- `bezier_for_velocity` (jquery.touchslider.js:88-95) takes a square root and divides by the velocity in floating point. The curve it builds is recorded as `ForVelocity(v)` and is not evaluated.
- TouchSlider.Slider.TouchStart: the animation's curve is evaluated by a caller-supplied `ease` function, because the velocity curve is not computed. A curve built from a NaN velocity would give NaN progress, which a real-valued `ease` cannot express.
- `toCSS` (jquery.touchslider.js:50-52) depends on JavaScript's number-to-string formatting.
- The CSS writes (jquery.touchslider.js:122-126, 156-158, 203-207) are kept only as the last offset written (`rendered`). The transition duration and timing-function strings are not modelled.
- Zepto's event binding and `trigger` are host plumbing. The handlers are methods. `touchend` calls `SlideTo` directly. `slidingTo` is appended to an event log.
- The `setTimeout` that announces `slidTo` is a timer. It is recorded as a due time and slide in `timers`; the timer firing is not modelled.
- `new Date()` is the clock, passed in as `now`. The two clock reads in `touchstart` (lines 115 and 131) are taken as the same instant.
- `target_distance` (jquery.touchslider.js:184) is computed but never used.
- The numerical accuracy and convergence of `find_x_for` are not modelled: reals are exact, and only the step bound, the early exit and the non-finite step are stated.
- TouchSlider.Slider.TouchMove: requires a prior accepted `touchstart` for a single-touch move. Before one, the source computes with `undefined` samples and gets a NaN offset; that is not modelled.
- TouchSlider.Slider.TouchEnd: requires a prior accepted `touchstart`, for the same reason.
- TouchSlider.Slider.constructor: requires a positive slide width. The source does not check the option, and a zero width would divide by zero.
- TouchSlider.Slider.SlideTo: takes an integer slide. External triggers of `slideTo` could pass any number.
