/**
  Properties of the animation over many calls: the bar length never leaves
  its range, the determinate angle never passes its target and reaches it,
  a wheel at rest stays at rest, the growth timer stays within a half-cycle,
  and the spin angle is reduced by one turn at most per frame.
*/
module WheelProperties {
  import opened Animation

  /** The state after frames drawn at each of `times` in turn. */
  function Frames(w: Wheel, cfg: Config, times: seq<int>): (r: Wheel)
    ensures r.spinning == w.spinning && r.targetProgress == w.targetProgress
    decreases |times|
  {
    if times == [] then w else Frames(Frame(w, cfg, times[0]).next, cfg, times[1..])
  }

  /** Each time is no earlier than the one before it, and the first no earlier than `start`. */
  predicate Monotone(start: int, times: seq<int>)
    decreases |times|
  {
    times == [] || (start <= times[0] && Monotone(times[0], times[1..]))
  }

  /** `n` frame times, `step` milliseconds apart, the first one `step` after `start`. */
  function Ticks(start: int, step: nat, n: nat): (ts: seq<int>)
    ensures |ts| == n
    ensures n > 0 ==> ts[0] == start + step
    decreases n
  {
    if n == 0 then [] else [start + step] + Ticks(start + step, step, n - 1)
  }

  /** A call the view receives from its owner or from the render loop. */
  datatype Event =
    | Draw(now: int)
    | StartSpin(now: int)
    | SetTarget(fraction: real, now: int)
    | Stop
    | Reset

  function Apply(w: Wheel, cfg: Config, e: Event): Wheel
  {
    match e
    case Draw(now) => Frame(w, cfg, now).next
    case StartSpin(now) => Spin(w, now)
    case SetTarget(fraction, now) => SetProgress(w, fraction, now)
    case Stop => StopSpinning(w)
    case Reset => ResetCount(w)
  }

  /** The state after the events in order. */
  function Run(w: Wheel, cfg: Config, events: seq<Event>): Wheel
    decreases |events|
  {
    if events == [] then w else Run(Apply(w, cfg, events[0]), cfg, events[1..])
  }

  /** No call the view receives takes the extra bar length out of [0, BarMaxLength - BarLength]. */
  lemma {:induction false} BarStaysInRange(w: Wheel, cfg: Config, events: seq<Event>)
    requires cfg.barSpinCycleTime > 0.0
    requires BarInRange(w)
    ensures BarInRange(Run(w, cfg, events))
    decreases |events|
  {
    if events != [] {
      var next := Apply(w, cfg, events[0]);
      assert BarInRange(next) by {
        match events[0]
        case Draw(now) =>
          if w.spinning {
            var grown := UpdateBarLength(w, now - w.lastTimeAnimated, cfg.barSpinCycleTime, cfg.ease);
            assert next.barExtraLength == grown.barExtraLength;
          }
        case StartSpin(now) =>
        case SetTarget(fraction, now) =>
        case Stop =>
        case Reset =>
      }
      BarStaysInRange(next, cfg, events[1..]);
    }
  }

  /** From construction on, the spinning sweep stays within [BarLength, BarMaxLength]. */
  lemma SweepAlwaysInRange(cfg: Config, events: seq<Event>)
    requires cfg.barSpinCycleTime > 0.0
    ensures var w := Run(Initial, cfg, events);
      BarLength <= BarLength + w.barExtraLength <= BarMaxLength
  {
    BarStaysInRange(Initial, cfg, events);
  }

  /** A determinate wheel resting on its target draws the same arc forever and never asks for a frame. */
  lemma {:induction false} SettledStaysPut(w: Wheel, cfg: Config, times: seq<int>)
    requires !w.spinning && w.progress == w.targetProgress
    ensures Frames(w, cfg, times) == w
    decreases |times|
  {
    if times != [] {
      SettledStaysPut(Frame(w, cfg, times[0]).next, cfg, times[1..]);
    }
  }

  /**
    With a clock that never runs backwards and a non-negative speed, a
    determinate angle that starts at or below its target only grows and never
    passes the target.
  */
  lemma {:induction false} NeverOvershoots(w: Wheel, cfg: Config, times: seq<int>)
    requires !w.spinning && w.progress <= w.targetProgress
    requires cfg.spinSpeed >= 0.0
    requires Monotone(w.lastTimeAnimated, times)
    ensures var r := Frames(w, cfg, times);
      w.progress <= r.progress <= r.targetProgress
    decreases |times|
  {
    if times != [] {
      var next := Frame(w, cfg, times[0]).next;
      assert w.progress <= next.progress <= next.targetProgress;
      assert next.lastTimeAnimated <= times[0];
      assert Monotone(next.lastTimeAnimated, times[1..]);
      NeverOvershoots(next, cfg, times[1..]);
    }
  }

  /**
    Frames `step` milliseconds apart bring a determinate angle exactly onto
    its target once their number times the per-frame advance covers the gap.
  */
  lemma {:induction false} ReachesTarget(w: Wheel, cfg: Config, step: nat, n: nat)
    requires !w.spinning && cfg.spinSpeed >= 0.0 && n > 0
    requires n as real * ProgressAdvance(step, cfg.spinSpeed) >= w.targetProgress - w.progress
    ensures Frames(w, cfg, Ticks(w.lastTimeAnimated, step, n)).progress == w.targetProgress
    decreases n
  {
    var ticks := Ticks(w.lastTimeAnimated, step, n);
    if w.progress == w.targetProgress {
      SettledStaysPut(w, cfg, ticks);
    } else {
      var a := ProgressAdvance(step, cfg.spinSpeed);
      var next := Frame(w, cfg, ticks[0]).next;
      assert ticks[1..] == Ticks(next.lastTimeAnimated, step, n - 1);
      if next.progress == next.targetProgress {
        SettledStaysPut(next, cfg, ticks[1..]);
      } else {
        assert next.progress == w.progress + a;
        assert (n - 1) as real * a == n as real * a - a;
        assert n as real * a > a;
        assert n - 1 > 0;
        ReachesTarget(next, cfg, step, n - 1);
      }
    }
  }

  /**
    A determinate target set from any state is reached, unless the call
    returns early: after enough evenly spaced frames the reported fraction is
    the one asked for (a negative one too, as only the top is clamped), and
    the next frame asks for no further frame.
  */
  lemma SetProgressSettles(w: Wheel, cfg: Config, fraction: real, now: int, step: nat, n: nat, later: int)
    requires fraction <= 1.0 && fraction != w.targetProgress
    requires cfg.spinSpeed >= 0.0 && n > 0
    requires n as real * ProgressAdvance(step, cfg.spinSpeed) >= fraction * 360.0 - (if w.spinning then 0.0 else w.progress)
    ensures var aimed := SetProgress(w, fraction, now);
      var r := Frames(aimed, cfg, Ticks(aimed.lastTimeAnimated, step, n));
      && ProgressFraction(r) == fraction
      && Frame(r, cfg, later).arc == Arc(-90.0, fraction * 360.0, false)
  {
    var aimed := SetProgress(w, fraction, now);
    ReachesTarget(aimed, cfg, step, n);
  }

  /**
    With a clock that never runs backwards, the half-cycle timer of the bar
    growth stays within [0, barSpinCycleTime] whatever the mode.
  */
  lemma {:induction false} GrowthTimerStaysInCycle(w: Wheel, cfg: Config, times: seq<int>)
    requires cfg.barSpinCycleTime >= 0.0
    requires 0.0 <= w.timeStartGrowing <= cfg.barSpinCycleTime
    requires Monotone(w.lastTimeAnimated, times)
    ensures var r := Frames(w, cfg, times);
      0.0 <= r.timeStartGrowing <= cfg.barSpinCycleTime
    decreases |times|
  {
    if times != [] {
      var next := Frame(w, cfg, times[0]).next;
      if w.spinning {
        var grown := UpdateBarLength(w, times[0] - w.lastTimeAnimated, cfg.barSpinCycleTime, cfg.ease);
        assert next.timeStartGrowing == grown.timeStartGrowing;
      }
      assert next.lastTimeAnimated <= times[0];
      GrowthTimerStaysInCycle(next, cfg, times[1..]);
    }
  }

  /**
    A spinning frame whose total turn (elapsed time plus shrink compensation)
    is at most one full turn keeps an angle in [0, 360] within [0, 360]; 360
    itself is kept, since only an angle above 360 is reduced.
  */
  lemma SpinFrameStaysInTurn(w: Wheel, cfg: Config, now: int)
    requires w.spinning && 0.0 <= w.progress <= 360.0
    requires var grown := UpdateBarLength(w, now - w.lastTimeAnimated, cfg.barSpinCycleTime, cfg.ease);
      0.0 <= grown.progress - w.progress + SpinAdvance(now - w.lastTimeAnimated, cfg.spinSpeed) <= 360.0
    ensures 0.0 <= Frame(w, cfg, now).next.progress <= 360.0
  {
  }

  /** One turn is taken off once, not modulo: a long gap between frames leaves the angle above 360. */
  lemma SpinFrameCanLeaveTurn(ease: Easing)
    ensures var w := Initial.(spinning := true);
      Frame(w, Config(DefaultSpinSpeed, DefaultBarSpinCycleTime, ease), 3000).next.progress == 450.0
  {
  }

  /** Spinning for 500 ms at the default speed turns 135 degrees while the bar is still paused at its shortest. */
  lemma SpinScenario(ease: Easing)
    ensures var w := Spin(Initial, 0);
      Frame(w, Config(DefaultSpinSpeed, DefaultBarSpinCycleTime, ease), 500).arc == Arc(45.0, BarLength, true)
  {
  }

  /** Aimed at half a turn from rest, a frame 16 ms later at the default speed moves 4.32 degrees and asks for more. */
  lemma ProgressScenario(ease: Easing)
    ensures var w := SetProgress(Initial, 0.5, 0);
      && w.targetProgress == 180.0
      && Frame(w, Config(DefaultSpinSpeed, DefaultBarSpinCycleTime, ease), 16).arc == Arc(-90.0, 4.32, true)
  {
  }

  /** A second identical setProgress call changes nothing a frame can see: at most the clock of a wheel at rest. */
  lemma RepeatedSetProgressInvisible(w: Wheel, cfg: Config, fraction: real, t1: int, t2: int, now: int)
    ensures var a := SetProgress(w, fraction, t1);
      var b := SetProgress(a, fraction, t2);
      && b == a.(lastTimeAnimated := b.lastTimeAnimated)
      && (b.lastTimeAnimated != a.lastTimeAnimated ==> b.progress == b.targetProgress)
      && Frame(b, cfg, now).arc == Frame(a, cfg, now).arc
  {
  }

  /** Because the early return compares the raw fraction with the stored degrees, a wheel aimed at 1 degree ignores a request for the full turn. */
  lemma FractionComparedWithDegrees(w: Wheel, now: int)
    requires !w.spinning && w.targetProgress == 1.0
    ensures SetProgress(w, 1.0, now).targetProgress == 1.0
  {
  }

  /** Stopping always leads to an idle frame that draws nothing from the top. */
  lemma StopThenDrawIsIdle(w: Wheel, cfg: Config, now: int)
    ensures Frame(StopSpinning(w), cfg, now).arc == Arc(-90.0, 0.0, false)
  {
  }
}
