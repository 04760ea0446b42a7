# ProgressWheel animation and layout, in Dafny

This project models the core of the `ProgressWheel` Android view of
materialish-progress. The view is a circular progress indicator with two modes:

- **Spin mode** (indeterminate). A bar turns at `spinSpeed` full turns per second.
  The bar cycles through three phases, again and again: a 300 ms pause at its
  shortest (40°), growth to 270° from the front, and shrinking back from the rear.
  The pause counter restarts after every shrinking half, so each growth is
  preceded by a new pause.
- **Determinate mode**. An arc drawn from the top (−90°) moves toward a target angle
  at the same rate and stops on it.

The model covers:

- the object state (`isSpinning`, `mProgress`, `mTargetProgress`, `lastTimeAnimated` and the
  bar-growth fields) and the calls that change it (`spin`, `setProgress`,
  `stopSpinning`, `resetCount`, `updateBarLength`, and the update half of `onDraw`);
- `getProgress`;
- the size rules of `onMeasure` and the arc rectangle of `setupBounds`.

Files and modules:

- `geometry.dfy`, module `Geometry`: `onMeasure` and `setupBounds` as pure functions
  on Java `int`. The three measure-spec modes are the datatype `MeasureMode`.
- `animation.dfy`, module `Animation`: the animated fields as the value `Wheel`.
  It has one function per state-changing operation. `Frame` returns the next state
  and the drawn arc (`from`, `sweep`, `mustInvalidate`).
- `progress_wheel.dfy`, module `Widget`: the class `ProgressWheel`. Its fields
  are updated in place, and its methods follow the Java branch by branch. One
  dead store is dropped: `timeStartGrowing -= barSpinCycleTime` at line 286,
  which line 287 overwrites with 0.
  Each method's postcondition ties `Model()`, the fields read as a `Wheel`, to the
  `Animation` function that specifies it.
- `wheel_properties.dfy`, module `WheelProperties`: folds over many frames (`Frames`)
  and over any sequence of calls (`Run`). It also holds the lemmas about them.

Fields are named without the Android `m`/`is` prefixes:

- `mProgress` is `progress`;
- `mTargetProgress` is `targetProgress`;
- `isSpinning` is `spinning`.

Angles and times are Java `float`/`double`/`long` in the source. Here they are `real`
and `int`. The clock is the parameter `now`. Both clock reads in one `onDraw` branch
use the same `now`.

The model keeps these behaviours of the code as written:

- `setProgress` returns early when the raw fraction equals the stored target,
  which is in degrees (`FractionComparedWithDegrees`).
- The new target is clamped from above only.
- A spinning frame subtracts 360 once. This is not a modulo (`SpinFrameCanLeaveTurn`).
- In `onMeasure`, an EXACTLY width forces the height to the height spec's size,
  whatever the height mode.

Three behaviours one might expect of such a widget differ from the code.
The model follows the code in each case:

- One might expect the spinning angle to stay in [0, 360) by a modulo. The code subtracts
  360 once. A frame at 360 exactly keeps 360, and a long gap between frames leaves
  the angle above 360. The shrink compensation can also take the angle below 0.
- One might expect out-of-range progress to be clamped to [0, 1]. The code clamps only from above.
- One might expect a repeated identical `setProgress` to be a no-op. In the code, the second
  call compares the fraction with degrees and so usually does not return early.
  It rewrites the same target and may restart the clock of a wheel at rest.
  `RepeatedSetProgressInvisible` proves that no frame can tell the difference.

## Model

| member | source | states |
|---|---|---|
| `Geometry.Measure` | library/src/main/java/com/pnikosis/materialishprogress/ProgressWheel.java:94-129 | EXACTLY gives the spec size; AT_MOST gives the smaller of the wanted size (radius plus padding) and the spec size; otherwise the wanted size; the height is the height spec's size whenever either mode is EXACTLY |
| `Geometry.MeasureHonoursSpecs` | library/src/main/java/com/pnikosis/materialishprogress/ProgressWheel.java:105-129 | the measured width and height each obey their measure spec (equal under EXACTLY, not above under AT_MOST) |
| `Geometry.Half` | library/src/main/java/com/pnikosis/materialishprogress/ProgressWheel.java:179-180 | Java's `/ 2` truncates toward zero: `2q <= a <= 2q+1` for `a >= 0`, `2q-1 <= a <= 2q` below |
| `Geometry.CircleDiameter` | library/src/main/java/com/pnikosis/materialishprogress/ProgressWheel.java:173-176 | the diameter is at most the padded width, the padded height and `2*circleRadius - 2*barWidth`, and equals one of them |
| `Geometry.SetupBounds` | library/src/main/java/com/pnikosis/materialishprogress/ProgressWheel.java:171-191 | without fillRadius a square of side `diameter - 2*barWidth`, centred in the padded area (the odd pixel to the right/bottom); with fillRadius the padded area inset by barWidth on each side |
| `Geometry.BoundsInsidePaddedArea` | library/src/main/java/com/pnikosis/materialishprogress/ProgressWheel.java:171-191 | in both modes the rectangle grown by barWidth lies inside the padded area |
| `Animation.Spin` | library/src/main/java/com/pnikosis/materialishprogress/ProgressWheel.java:339-343 | sets spin mode and `lastTimeAnimated = now`; both angles and the growth state unchanged |
| `Animation.StopSpinning` | library/src/main/java/com/pnikosis/materialishprogress/ProgressWheel.java:329-334 | not spinning, both angles 0; clock and growth state unchanged |
| `Animation.ResetCount` | library/src/main/java/com/pnikosis/materialishprogress/ProgressWheel.java:320-324 | both angles 0; mode, clock and growth state unchanged |
| `Animation.SetProgress` | library/src/main/java/com/pnikosis/materialishprogress/ProgressWheel.java:348-368 | always leaves spin mode, zeroing the angle if it was spinning (even on the early return); early return (fraction equals stored degrees) changes nothing else; otherwise target is `min(fraction*360, 360)` and the clock restarts exactly when the angle was on the old target |
| `Animation.UpdateBarLength` | library/src/main/java/com/pnikosis/materialishprogress/ProgressWheel.java:279-307 | while paused below 300 ms only the pause counter grows; otherwise the extra length is `ease(t, cycle)*230` in a growing half and `230*(1-ease(t, cycle))` in a shrinking half (t the new timer), so it ends in [0, 230]; the timer ends at most the cycle time, on overflow it restarts at 0, the phase flips and the pause counter restarts only after a shrinking half; a shrinking half moves the angle by what the bar lost |
| `Animation.Frame` | library/src/main/java/com/pnikosis/materialishprogress/ProgressWheel.java:237-276 | a redraw is requested iff spinning or off target; spinning: angle advances by the bar compensation plus `delta*spinSpeed*360/1000`, less 360 once if above 360, clock set, arc from `angle-90` with sweep `40+extra`; determinate off target: angle becomes `min(angle + advance, target)`, clock set; on target: nothing changes; determinate arcs start at −90 with sweep the angle |
| `Animation.SpinAdvance` | library/src/main/java/com/pnikosis/materialishprogress/ProgressWheel.java:243-244 | the spinning advance is `delta*spinSpeed*360/1000` degrees, non-negative for a non-negative delta and speed |
| `Animation.ProgressAdvance` | library/src/main/java/com/pnikosis/materialishprogress/ProgressWheel.java:264-265 | the determinate advance `(delta/1000)*spinSpeed*360` equals the spinning one |
| `Animation.ProgressFraction` | library/src/main/java/com/pnikosis/materialishprogress/ProgressWheel.java:370-372 | the fraction times 360 is the angle, and lies in [0, 1] when the angle lies in [0, 360] |
| `WheelProperties.Frames` | library/src/main/java/com/pnikosis/materialishprogress/ProgressWheel.java:232-277 | no number of frames changes the mode or the target |
| `WheelProperties.BarStaysInRange` | library/src/main/java/com/pnikosis/materialishprogress/ProgressWheel.java:279-307 | with a positive cycle time, no sequence of calls (frames, spin, setProgress, stop, reset) takes the extra bar length out of [0, barMaxLength − barLength] |
| `WheelProperties.SweepAlwaysInRange` | library/src/main/java/com/pnikosis/materialishprogress/ProgressWheel.java:254-255 | with a positive cycle time, from construction on, the spinning sweep stays within [40, 270] |
| `WheelProperties.SettledStaysPut` | library/src/main/java/com/pnikosis/materialishprogress/ProgressWheel.java:259-276 | a determinate wheel on its target is unchanged by any number of frames |
| `WheelProperties.NeverOvershoots` | library/src/main/java/com/pnikosis/materialishprogress/ProgressWheel.java:260-269 | with a non-decreasing clock and speed ≥ 0, a determinate angle at or below its target never decreases and never passes the target |
| `WheelProperties.ReachesTarget` | library/src/main/java/com/pnikosis/materialishprogress/ProgressWheel.java:260-269 | n frames `step` ms apart put the angle exactly on the target once n times the per-frame advance covers the gap |
| `WheelProperties.SetProgressSettles` | library/src/main/java/com/pnikosis/materialishprogress/ProgressWheel.java:348-372 | after setProgress(f) with f ≤ 1 and f different from the stored target in degrees (otherwise the call returns early) and enough frames, getProgress gives f and the next frame draws −90/f·360 and requests no redraw |
| `WheelProperties.GrowthTimerStaysInCycle` | library/src/main/java/com/pnikosis/materialishprogress/ProgressWheel.java:280-292 | with a non-decreasing clock the growth timer stays in [0, barSpinCycleTime] across any frames |
| `WheelProperties.SpinFrameStaysInTurn` | library/src/main/java/com/pnikosis/materialishprogress/ProgressWheel.java:246-251 | a spinning frame whose total turn is within one turn keeps an angle in [0, 360] in [0, 360] (360 included) |
| `WheelProperties.SpinFrameCanLeaveTurn` | library/src/main/java/com/pnikosis/materialishprogress/ProgressWheel.java:243-251 | 3000 ms at 0.75 turns/s from 0 ends at 450°: one subtraction, not a modulo |
| `WheelProperties.SpinScenario` | library/src/main/java/com/pnikosis/materialishprogress/ProgressWheel.java:239-258 | spin at 0, frame at 500 ms at 0.75 turns/s: arc from 45 (angle 135) with sweep 40, redraw requested |
| `WheelProperties.ProgressScenario` | library/src/main/java/com/pnikosis/materialishprogress/ProgressWheel.java:259-271 | setProgress(0.5) from rest targets 180; a frame 16 ms later draws sweep 4.32 and requests a redraw |
| `WheelProperties.RepeatedSetProgressInvisible` | library/src/main/java/com/pnikosis/materialishprogress/ProgressWheel.java:348-368 | a second identical setProgress changes at most the clock, only of a wheel on its target, and the next frame's arc is the same |
| `WheelProperties.FractionComparedWithDegrees` | library/src/main/java/com/pnikosis/materialishprogress/ProgressWheel.java:354-356 | a wheel aimed at 1° keeps that target when asked for fraction 1.0 |
| `WheelProperties.StopThenDrawIsIdle` | library/src/main/java/com/pnikosis/materialishprogress/ProgressWheel.java:329-334 | after stopSpinning the next frame draws −90/0 and requests no redraw |
| `Widget.ProgressWheel.constructor` | library/src/main/java/com/pnikosis/materialishprogress/ProgressWheel.java:27-62 | initial state: not spinning, angles 0, bar at its shortest, growing from the front, speed 0.75 |
| `Widget.ProgressWheel.SetSpinSpeed` | library/src/main/java/com/pnikosis/materialishprogress/ProgressWheel.java:413-415 | stores the speed |
| `Widget.ProgressWheel.GetProgress` | library/src/main/java/com/pnikosis/materialishprogress/ProgressWheel.java:370-372 | the fraction times 360 is the current angle |
| `Widget.ProgressWheel.ResetCount` | library/src/main/java/com/pnikosis/materialishprogress/ProgressWheel.java:320-324 | zeroes both angles; only those two fields may change |
| `Widget.ProgressWheel.StopSpinning` | library/src/main/java/com/pnikosis/materialishprogress/ProgressWheel.java:329-334 | not spinning and both angles 0; only those three fields may change |
| `Widget.ProgressWheel.Spin` | library/src/main/java/com/pnikosis/materialishprogress/ProgressWheel.java:339-343 | spinning with `lastTimeAnimated = now`; only those two fields may change |
| `Widget.ProgressWheel.SetProgress` | library/src/main/java/com/pnikosis/materialishprogress/ProgressWheel.java:348-368 | never spinning afterwards, angle 0 if it was spinning, new state as `Animation.SetProgress` |
| `Widget.ProgressWheel.UpdateBarLength` | library/src/main/java/com/pnikosis/materialishprogress/ProgressWheel.java:279-307 | new state as `Animation.UpdateBarLength`; the extra length is in range after a growing step and stays in range |
| `Widget.ProgressWheel.Frame` | library/src/main/java/com/pnikosis/materialishprogress/ProgressWheel.java:232-277 | returns the arc and redraw flag and leaves the state that `Animation.Frame` gives; redraw iff spinning or off target; preserves the bar-length range |

## Left out

- Drawing: `Canvas.drawArc`, the rim arc, `Paint` setup (`setupPaints`) and `invalidate()`. The redraw request is the returned `mustInvalidate` flag.
- `parseAttributes`: Android resource resolution (`TypedArray`, `DisplayMetrics`, `TypedValue.applyDimension`). Its results are the configuration: the constructor parameters and the layout function parameters.
- `SystemClock.uptimeMillis`: the time is the parameter `now`.
- `Math.cos` at line 294. The easing is the abstract `Easing` type, constrained only to values in [0, 1].
- A zero `barSpinCycleTime` (which attribute parsing at line 214 accepts): line 294 then divides by zero and the source's extra length becomes NaN. The abstract easing still yields a value in [0, 1], so the range lemmas require a positive cycle time.
- Java `float`/`double` rounding and `int`/`long` overflow. Values are exact `real` and unbounded `int`.
- Trivial getters and setters other than the spin speed (radius, bar width, colours, rim width, `isSpinning()`). They read or write a single field.
- The `circleBounds` field. `setupBounds` is modelled as the pure function that computes the rectangle stored there.
- The demo activity of the sample app: it is user interface only.
