/**
  The animation state of the progress wheel as a value, and one function per
  operation that changes it: what `spin`, `setProgress`, `stopSpinning`,
  `resetCount`, `updateBarLength` and the update half of `onDraw` compute.
  Angles and lengths are degrees, times are milliseconds of a monotonic clock
  passed in as `now`. Java `float`/`double` are modelled as `real`.
*/
module Animation {

  /** Sweep of the spinning bar at its shortest, in degrees. */
  const BarLength: real := 40.0
  /** Sweep of the spinning bar at its longest, in degrees. */
  const BarMaxLength: real := 270.0
  /** Milliseconds the bar turns at its shortest before a grow/shrink cycle starts. */
  const PauseGrowingTime: int := 300
  /** Full turns per second unless configured otherwise. */
  const DefaultSpinSpeed: real := 0.75
  /** Duration of one grow or shrink half-cycle unless configured otherwise. */
  const DefaultBarSpinCycleTime: real := 1000.0

  /**
    The easing curve of the bar growth, applied to the time into the current
    half-cycle and the half-cycle duration. The view uses a cosine that rises
    from 0 to 1 over the half-cycle; all the state logic relies on is that its
    value lies in [0, 1].
  */
  type Easing = f: (real, real) -> real | forall t: real, cycle: real :: 0.0 <= f(t, cycle) <= 1.0
    witness (t: real, cycle: real) => 0.0

  /** Configuration the view supplies: turns per second, half-cycle time and easing curve. */
  datatype Config = Config(spinSpeed: real, barSpinCycleTime: real, ease: Easing)

  /** Every field the animation updates. */
  datatype Wheel = Wheel(
    spinning: bool,
    progress: real,                // current angle, degrees
    targetProgress: real,          // angle the determinate mode moves toward, degrees
    lastTimeAnimated: int,
    timeStartGrowing: real,        // time into the current grow or shrink half-cycle
    barExtraLength: real,          // sweep added to BarLength
    barGrowingFromFront: bool,
    pausedTimeWithoutGrowing: int)

  /** What one frame draws, and whether it asks for another frame. */
  datatype Arc = Arc(from: real, sweep: real, mustInvalidate: bool)

  /** The state after a frame and the arc the frame draws. */
  datatype Step = Step(next: Wheel, arc: Arc)

  /** The state of a newly constructed view. */
  const Initial: Wheel := Wheel(false, 0.0, 0.0, 0, 0.0, 0.0, true, 0)

  function RealMin(a: real, b: real): (m: real)
    ensures m <= a && m <= b
    ensures m == a || m == b
  {
    if a <= b then a else b
  }

  /** The extra bar length lies between nothing and the longest sweep less the shortest. */
  predicate BarInRange(w: Wheel)
  {
    0.0 <= w.barExtraLength <= BarMaxLength - BarLength
  }

  /** Whether the growth sub-state (timer, extra length, phase, pause counter) is the same in both states. */
  predicate SameGrowth(w: Wheel, v: Wheel)
  {
    && w.timeStartGrowing == v.timeStartGrowing
    && w.barExtraLength == v.barExtraLength
    && w.barGrowingFromFront == v.barGrowingFromFront
    && w.pausedTimeWithoutGrowing == v.pausedTimeWithoutGrowing
  }

  /** Enter spin mode: the clock restarts at `now`, both angles are kept. */
  function Spin(w: Wheel, now: int): (r: Wheel)
    ensures r.spinning && r.lastTimeAnimated == now
    ensures r.progress == w.progress && r.targetProgress == w.targetProgress
    ensures SameGrowth(r, w)
  {
    w.(spinning := true, lastTimeAnimated := now)
  }

  /** Leave spin mode and zero both angles. */
  function StopSpinning(w: Wheel): (r: Wheel)
    ensures !r.spinning && r.progress == 0.0 && r.targetProgress == 0.0
    ensures r.lastTimeAnimated == w.lastTimeAnimated && SameGrowth(r, w)
  {
    w.(spinning := false, progress := 0.0, targetProgress := 0.0)
  }

  /** Zero both angles, keeping the mode. */
  function ResetCount(w: Wheel): (r: Wheel)
    ensures r.progress == 0.0 && r.targetProgress == 0.0
    ensures r.spinning == w.spinning && r.lastTimeAnimated == w.lastTimeAnimated && SameGrowth(r, w)
  {
    w.(progress := 0.0, targetProgress := 0.0)
  }

  /**
    Set the determinate target. Leaving spin mode zeroes the angle, even when
    the call then returns early. The early return compares the raw fraction
    `progress` with the stored target, which is in degrees. Otherwise the
    target becomes `progress * 360` clamped from above only, and the clock
    restarts when the wheel was at rest on its old target.
  */
  function SetProgress(w: Wheel, progress: real, now: int): (r: Wheel)
    ensures !r.spinning
    ensures r.progress == if w.spinning then 0.0 else w.progress
    ensures SameGrowth(r, w)
    ensures progress == w.targetProgress ==>
      r.targetProgress == w.targetProgress && r.lastTimeAnimated == w.lastTimeAnimated
    ensures progress != w.targetProgress ==>
      && r.targetProgress <= 360.0
      && r.targetProgress <= progress * 360.0
      && (r.targetProgress == 360.0 || r.targetProgress == progress * 360.0)
    ensures progress != w.targetProgress ==>
      r.lastTimeAnimated == if r.progress == w.targetProgress then now else w.lastTimeAnimated
  {
    var left := if w.spinning then w.(progress := 0.0, spinning := false) else w;
    if progress == left.targetProgress then left
    else
      var last := if left.progress == left.targetProgress then now else left.lastTimeAnimated;
      left.(lastTimeAnimated := last, targetProgress := RealMin(progress * 360.0, 360.0))
  }

  /**
    The growth sub-state after `delta` milliseconds of spinning. Until the
    pause has lasted PauseGrowingTime only the pause counter advances. After
    that the half-cycle timer advances; when it passes the cycle time it
    restarts at 0, the phase flips, and the pause counter restarts if the half
    just finished was the shrinking one. A growing half sets the extra length
    from the easing value; a shrinking half sets the complementary length and
    moves the angle forward by what the bar lost, so its head stays put.
  */
  function UpdateBarLength(w: Wheel, delta: int, cycle: real, ease: Easing): (r: Wheel)
    ensures r.spinning == w.spinning && r.targetProgress == w.targetProgress
    ensures r.lastTimeAnimated == w.lastTimeAnimated
    ensures w.pausedTimeWithoutGrowing < PauseGrowingTime ==>
      r == w.(pausedTimeWithoutGrowing := w.pausedTimeWithoutGrowing + delta)
    ensures w.pausedTimeWithoutGrowing >= PauseGrowingTime ==> BarInRange(r)
    ensures w.pausedTimeWithoutGrowing >= PauseGrowingTime && cycle >= 0.0 ==>
      r.timeStartGrowing <= cycle
    ensures w.pausedTimeWithoutGrowing >= PauseGrowingTime ==>
      var t := w.timeStartGrowing + delta as real;
      if t > cycle then
        && r.timeStartGrowing == 0.0
        && r.barGrowingFromFront == !w.barGrowingFromFront
        && r.pausedTimeWithoutGrowing == (if w.barGrowingFromFront then w.pausedTimeWithoutGrowing else 0)
      else
        && r.timeStartGrowing == t
        && r.barGrowingFromFront == w.barGrowingFromFront
        && r.pausedTimeWithoutGrowing == w.pausedTimeWithoutGrowing
    ensures w.pausedTimeWithoutGrowing >= PauseGrowingTime ==>
      var destLength := BarMaxLength - BarLength;
      var distance := ease(r.timeStartGrowing, cycle);
      r.barExtraLength == if r.barGrowingFromFront then distance * destLength else destLength * (1.0 - distance)
    ensures w.pausedTimeWithoutGrowing >= PauseGrowingTime ==>
      if r.barGrowingFromFront then r.progress == w.progress
      else r.progress + r.barExtraLength == w.progress + w.barExtraLength
  {
    if w.pausedTimeWithoutGrowing >= PauseGrowingTime then
      var grown := w.timeStartGrowing + delta as real;
      var w1 :=
        if grown > cycle then
          w.(timeStartGrowing := 0.0,
             pausedTimeWithoutGrowing := if !w.barGrowingFromFront then 0 else w.pausedTimeWithoutGrowing,
             barGrowingFromFront := !w.barGrowingFromFront)
        else w.(timeStartGrowing := grown);
      var distance := ease(w1.timeStartGrowing, cycle);
      var destLength := BarMaxLength - BarLength;
      if w1.barGrowingFromFront then
        w1.(barExtraLength := distance * destLength)
      else
        var newLength := destLength * (1.0 - distance);
        w1.(progress := w1.progress + (w1.barExtraLength - newLength), barExtraLength := newLength)
    else
      w.(pausedTimeWithoutGrowing := w.pausedTimeWithoutGrowing + delta)
  }

  /**
    The state update and the arc of one frame drawn at `now`.
    Spinning: the bar length is updated, the angle advances by the elapsed
    time at spinSpeed turns per second and has 360 taken off once if it then
    exceeds 360, and another frame is always requested.
    Not spinning: an angle short of (or past) its target moves toward it at the
    same rate but never beyond it and another frame is requested; an angle on
    its target changes nothing and requests nothing.
  */
  function Frame(w: Wheel, cfg: Config, now: int): (s: Step)
    ensures s.next.spinning == w.spinning && s.next.targetProgress == w.targetProgress
    ensures s.arc.mustInvalidate <==> (w.spinning || w.progress != w.targetProgress)
    ensures w.spinning ==>
      && s.next.lastTimeAnimated == now
      && s.arc.from == s.next.progress - 90.0
      && s.arc.sweep == BarLength + s.next.barExtraLength
      && s.next == UpdateBarLength(w, now - w.lastTimeAnimated, cfg.barSpinCycleTime, cfg.ease)
                     .(progress := s.next.progress, lastTimeAnimated := now)
    ensures w.spinning ==>
      var grown := UpdateBarLength(w, now - w.lastTimeAnimated, cfg.barSpinCycleTime, cfg.ease);
      var turned := grown.progress + SpinAdvance(now - w.lastTimeAnimated, cfg.spinSpeed);
      s.next.progress == if turned > 360.0 then turned - 360.0 else turned
    ensures !w.spinning ==> s.arc.from == -90.0 && s.arc.sweep == s.next.progress
    ensures !w.spinning && w.progress == w.targetProgress ==> s.next == w
    ensures !w.spinning && w.progress != w.targetProgress ==>
      && s.next.progress <= w.targetProgress
      && s.next.progress <= w.progress + ProgressAdvance(now - w.lastTimeAnimated, cfg.spinSpeed)
      && (s.next.progress == w.targetProgress
          || s.next.progress == w.progress + ProgressAdvance(now - w.lastTimeAnimated, cfg.spinSpeed))
      && s.next == w.(progress := s.next.progress, lastTimeAnimated := now)
  {
    if w.spinning then
      var deltaTime := now - w.lastTimeAnimated;
      var deltaNormalized := SpinAdvance(deltaTime, cfg.spinSpeed);
      var grown := UpdateBarLength(w, deltaTime, cfg.barSpinCycleTime, cfg.ease);
      var turned := grown.progress + deltaNormalized;
      var wrapped := if turned > 360.0 then turned - 360.0 else turned;
      var next := grown.(progress := wrapped, lastTimeAnimated := now);
      Step(next, Arc(wrapped - 90.0, BarLength + next.barExtraLength, true))
    else if w.progress != w.targetProgress then
      var deltaNormalized := ProgressAdvance(now - w.lastTimeAnimated, cfg.spinSpeed);
      var moved := RealMin(w.progress + deltaNormalized, w.targetProgress);
      Step(w.(progress := moved, lastTimeAnimated := now), Arc(-90.0, moved, true))
    else
      Step(w, Arc(-90.0, w.progress, false))
  }

  /** Degrees turned in `delta` milliseconds at `spinSpeed` turns per second, as the spinning branch computes it. */
  function SpinAdvance(delta: int, spinSpeed: real): (a: real)
    ensures delta >= 0 && spinSpeed >= 0.0 ==> a >= 0.0
    ensures a * 1000.0 == delta as real * spinSpeed * 360.0
  {
    delta as real * spinSpeed * 360.0 / 1000.0
  }

  /** Degrees turned in `delta` milliseconds at `spinSpeed` turns per second, as the determinate branch computes it. */
  function ProgressAdvance(delta: int, spinSpeed: real): (a: real)
    ensures a == SpinAdvance(delta, spinSpeed)
  {
    delta as real / 1000.0 * spinSpeed * 360.0
  }

  /** The progress as a fraction of a full turn. */
  function ProgressFraction(w: Wheel): (f: real)
    ensures f * 360.0 == w.progress
    ensures 0.0 <= w.progress <= 360.0 ==> 0.0 <= f <= 1.0
  {
    w.progress / 360.0
  }
}
