/**
  The progress wheel view as an object: the fields its animation updates in
  place, the calls that update them, and the update half of its draw callback.
  Each method is tied to the function of module Animation that specifies it,
  through Model(), the value of the object's fields.
*/
module Widget {
  import opened Animation

  class ProgressWheel {
    /** Full turns per second. */
    var spinSpeed: real
    /** Duration of one grow or shrink half-cycle of the spinning bar, in milliseconds. */
    const barSpinCycleTime: real
    /** The easing curve of the bar growth. */
    const ease: Easing

    var spinning: bool
    var progress: real
    var targetProgress: real
    var lastTimeAnimated: int
    var timeStartGrowing: real
    var barExtraLength: real
    var barGrowingFromFront: bool
    var pausedTimeWithoutGrowing: int

    /** The animation fields as a value. */
    function Model(): Wheel
      reads this
    {
      Wheel(spinning, progress, targetProgress, lastTimeAnimated,
            timeStartGrowing, barExtraLength, barGrowingFromFront, pausedTimeWithoutGrowing)
    }

    function Cfg(): Config
      reads this
    {
      Config(spinSpeed, barSpinCycleTime, ease)
    }

    /** A new view: not spinning, both angles zero, the bar at its shortest and about to grow from the front. */
    constructor (barSpinCycleTime: real, ease: Easing)
      ensures Model() == Initial && BarInRange(Model())
      ensures spinSpeed == DefaultSpinSpeed
      ensures this.barSpinCycleTime == barSpinCycleTime && this.ease == ease
    {
      this.barSpinCycleTime := barSpinCycleTime;
      this.ease := ease;
      spinSpeed := DefaultSpinSpeed;
      spinning := false;
      progress := 0.0;
      targetProgress := 0.0;
      lastTimeAnimated := 0;
      timeStartGrowing := 0.0;
      barExtraLength := 0.0;
      barGrowingFromFront := true;
      pausedTimeWithoutGrowing := 0;
    }

    method SetSpinSpeed(speed: real)
      modifies this`spinSpeed
      ensures spinSpeed == speed
    {
      spinSpeed := speed;
    }

    /** The progress as a fraction of a full turn. */
    function GetProgress(): (f: real)
      reads this
      ensures f * 360.0 == progress
      ensures 0.0 <= progress <= 360.0 ==> 0.0 <= f <= 1.0
    {
      ProgressFraction(Model())
    }

    /** Zero both angles; the mode is kept. */
    method ResetCount()
      modifies this`progress, this`targetProgress
      ensures progress == 0.0 && targetProgress == 0.0
      ensures Model() == Animation.ResetCount(old(Model()))
    {
      progress := 0.0;
      targetProgress := 0.0;
    }

    /** Leave spin mode and zero both angles. */
    method StopSpinning()
      modifies this`spinning, this`progress, this`targetProgress
      ensures !spinning && progress == 0.0 && targetProgress == 0.0
      ensures Model() == Animation.StopSpinning(old(Model()))
    {
      spinning := false;
      progress := 0.0;
      targetProgress := 0.0;
    }

    /** Enter spin mode at time `now`; both angles are kept. */
    method Spin(now: int)
      modifies this`spinning, this`lastTimeAnimated
      ensures spinning && lastTimeAnimated == now
      ensures Model() == Animation.Spin(old(Model()), now)
    {
      lastTimeAnimated := now;
      spinning := true;
    }

    /** Aim the determinate mode at `fraction` of a turn, at time `now`. */
    method SetProgress(fraction: real, now: int)
      modifies this`spinning, this`progress, this`targetProgress, this`lastTimeAnimated
      ensures !spinning
      ensures old(spinning) ==> progress == 0.0
      ensures Model() == Animation.SetProgress(old(Model()), fraction, now)
    {
      if spinning {
        progress := 0.0;
        spinning := false;
      }
      if fraction == targetProgress {
        return;
      }
      if progress == targetProgress {
        lastTimeAnimated := now;
      }
      targetProgress := RealMin(fraction * 360.0, 360.0);
    }

    /** Advance the growth of the spinning bar by `deltaTime` milliseconds. */
    method UpdateBarLength(deltaTime: int)
      modifies this`progress, this`timeStartGrowing, this`barExtraLength,
               this`barGrowingFromFront, this`pausedTimeWithoutGrowing
      ensures BarInRange(old(Model())) || old(pausedTimeWithoutGrowing) >= PauseGrowingTime ==> BarInRange(Model())
      ensures Model() == Animation.UpdateBarLength(old(Model()), deltaTime, barSpinCycleTime, ease)
    {
      if pausedTimeWithoutGrowing >= PauseGrowingTime {
        timeStartGrowing := timeStartGrowing + deltaTime as real;
        if timeStartGrowing > barSpinCycleTime {
          timeStartGrowing := 0.0;
          if !barGrowingFromFront {
            pausedTimeWithoutGrowing := 0;
          }
          barGrowingFromFront := !barGrowingFromFront;
        }
        var distance := ease(timeStartGrowing, barSpinCycleTime);
        var destLength := BarMaxLength - BarLength;
        if barGrowingFromFront {
          barExtraLength := distance * destLength;
        } else {
          var newLength := destLength * (1.0 - distance);
          progress := progress + (barExtraLength - newLength);
          barExtraLength := newLength;
        }
      } else {
        pausedTimeWithoutGrowing := pausedTimeWithoutGrowing + deltaTime;
      }
    }

    /**
      The update half of drawing a frame at time `now`: the new state, the
      start angle and sweep of the bar's arc, and whether another frame is needed.
    */
    method Frame(now: int) returns (from: real, sweep: real, mustInvalidate: bool)
      modifies this`progress, this`lastTimeAnimated, this`timeStartGrowing, this`barExtraLength,
               this`barGrowingFromFront, this`pausedTimeWithoutGrowing
      ensures mustInvalidate <==> old(spinning) || old(progress) != old(targetProgress)
      ensures !spinning && old(progress) != old(targetProgress) ==> progress <= targetProgress
      ensures BarInRange(old(Model())) ==> BarInRange(Model())
      ensures Animation.Frame(old(Model()), Cfg(), now) == Step(Model(), Arc(from, sweep, mustInvalidate))
    {
      mustInvalidate := false;
      if spinning {
        mustInvalidate := true;
        var deltaTime := now - lastTimeAnimated;
        var deltaNormalized := SpinAdvance(deltaTime, spinSpeed);
        UpdateBarLength(deltaTime);
        progress := progress + deltaNormalized;
        if progress > 360.0 {
          progress := progress - 360.0;
        }
        lastTimeAnimated := now;
        from := progress - 90.0;
        sweep := BarLength + barExtraLength;
      } else {
        if progress != targetProgress {
          mustInvalidate := true;
          var deltaNormalized := ProgressAdvance(now - lastTimeAnimated, spinSpeed);
          progress := RealMin(progress + deltaNormalized, targetProgress);
          lastTimeAnimated := now;
        }
        from := -90.0;
        sweep := progress;
      }
    }
  }
}
