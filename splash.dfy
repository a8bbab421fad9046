/**
 * The start-up splash of `src/ui/splash.py`: a progress bar from 0 to 100 driven by a
 * 30 ms timer, a 3000 ms single-shot safety timer that forces completion, and the
 * `finished` signal. Clock readings are milliseconds passed in by the caller; the
 * 100 ms single-shot that runs `complete_animation` is recorded as scheduled.
 */
module Splash {
  const MinDisplayTime := 1200
  const TickInterval := 30
  const SafetyTimeout := 3000
  const CompleteDelay := 100

  /**
   * The bar's new value after one timer tick: below 100 it advances by 2, or by 5 once
   * the minimum display time has passed while it is still below 90, and is capped at
   * 100; at 100 (or above) a tick leaves it alone.
   */
  function Tick(current: int, elapsed: int): (next: int)
    ensures current >= 100 ==> next == current
    ensures current < 100 ==> current < next <= 100
    ensures current < 100 && next < 100 ==>
      next - current == (if elapsed >= MinDisplayTime && current < 90 then 5 else 2)
  {
    if current < 100 then
      var step := if elapsed >= MinDisplayTime && current < 90 then 5 else 2;
      if current + step < 100 then current + step else 100
    else current
  }

  /** The value after a run of ticks, each at the given elapsed time, starting from `p`. */
  function After(p: int, elapsed: seq<int>): int
    decreases |elapsed|
  {
    if |elapsed| == 0 then p else After(Tick(p, elapsed[0]), elapsed[1..])
  }

  /** A tick never moves a valid value backwards or past 100, and reaches 100 exactly from 98 on (the step of 5 ends below 90). */
  lemma TickBounds(p: int, elapsed: int)
    requires 0 <= p <= 100
    ensures p <= Tick(p, elapsed) <= 100
    ensures Tick(p, elapsed) == 100 <==> p >= 98
    ensures p < 100 ==> Tick(p, elapsed) >= p + 2 || Tick(p, elapsed) == 100
  {
  }

  /**
   * Whatever the clock says, every tick before 100 adds at least 2, so after n ticks the
   * bar stands at least at min(100, p + 2n), and it never decreases or passes 100.
   */
  lemma {:induction false} AfterProgress(p: int, elapsed: seq<int>)
    requires 0 <= p <= 100
    ensures p <= After(p, elapsed) <= 100
    ensures After(p, elapsed) >= (if p + 2 * |elapsed| < 100 then p + 2 * |elapsed| else 100)
    decreases |elapsed|
  {
    if |elapsed| > 0 {
      var q := Tick(p, elapsed[0]);
      TickBounds(p, elapsed[0]);
      AfterProgress(q, elapsed[1..]);
    }
  }

  /** Once at 100, further ticks change nothing. */
  lemma {:induction false} FullStaysFull(elapsed: seq<int>)
    ensures After(100, elapsed) == 100
    decreases |elapsed|
  {
    if |elapsed| > 0 {
      FullStaysFull(elapsed[1..]);
    }
  }

  /** Fifty ticks take the bar from 0 to 100 however slowly the clock runs. */
  lemma FiftyTicksFinish(elapsed: seq<int>)
    requires |elapsed| >= 50
    ensures After(0, elapsed) == 100
  {
    AfterProgress(0, elapsed);
  }

  class SplashWindow {
    /** `progress_bar.value()`. */
    var progress: int
    /** Whether the 30 ms `timer` and the single-shot `safety_timer` are active. */
    var timerActive: bool
    var safetyActive: bool
    /** `start_time`, in milliseconds. */
    var startTime: int
    /** Where `start` moved the window. */
    var x: int
    var y: int
    /** Calls of `complete_animation` scheduled by ticks that reached 100. */
    var completeScheduled: nat
    /** `finished` signals emitted. */
    var finishedEmitted: nat

    ghost predicate Valid()
      reads this
    {
      0 <= progress <= 100
    }

    constructor()
      ensures Valid()
      ensures progress == 0 && !timerActive && !safetyActive && startTime == 0
      ensures completeScheduled == 0 && finishedEmitted == 0
    {
      progress := 0;
      timerActive := false;
      safetyActive := false;
      startTime := 0;
      x := 0;
      y := 0;
      completeScheduled := 0;
      finishedEmitted := 0;
    }

    /**
     * `start`: the start time is the clock, the window is centred on the screen (floor
     * division by 2, as Python's `//`), and both timers run.
     */
    method Start(now: int, screenWidth: int, screenHeight: int, width: int, height: int)
      modifies this`startTime, this`x, this`y, this`timerActive, this`safetyActive
      ensures startTime == now && timerActive && safetyActive
      ensures 2 * x <= screenWidth - width < 2 * x + 2
      ensures 2 * y <= screenHeight - height < 2 * y + 2
    {
      startTime := now;
      x := (screenWidth - width) / 2;
      y := (screenHeight - height) / 2;
      timerActive := true;
      safetyActive := true;
    }

    /**
     * `update_progress` at the clock reading `now`: the bar takes the tick's value, and
     * the tick that brings it to 100 schedules `complete_animation`.
     */
    method UpdateProgress(now: int)
      requires Valid()
      modifies this`progress, this`completeScheduled
      ensures Valid()
      ensures progress == Tick(old(progress), now - startTime)
      ensures old(progress) <= progress
      ensures completeScheduled == old(completeScheduled) + (if old(progress) < 100 && progress == 100 then 1 else 0)
    {
      var elapsed := now - startTime;
      var current := progress;
      if current < 100 {
        var step := 2;
        if elapsed >= MinDisplayTime && current < 90 {
          step := 5;
        }
        var newValue := if current + step < 100 then current + step else 100;
        progress := newValue;
        if newValue == 100 {
          completeScheduled := completeScheduled + 1;
        }
      }
    }

    /** `force_finish`: only while the progress timer runs, it stops it, fills the bar and emits `finished`. */
    method ForceFinish()
      modifies this`timerActive, this`progress, this`finishedEmitted
      ensures old(timerActive) ==> !timerActive && progress == 100 && finishedEmitted == old(finishedEmitted) + 1
      ensures !old(timerActive) ==> !timerActive && progress == old(progress) && finishedEmitted == old(finishedEmitted)
    {
      if timerActive {
        timerActive := false;
        progress := 100;
        finishedEmitted := finishedEmitted + 1;
      }
    }

    /** The single-shot safety timer going off: it is no longer active and runs `force_finish`. */
    method SafetyTimeout()
      modifies this`safetyActive, this`timerActive, this`progress, this`finishedEmitted
      ensures !safetyActive && !timerActive
      ensures old(timerActive) ==> progress == 100 && finishedEmitted == old(finishedEmitted) + 1
      ensures !old(timerActive) ==> progress == old(progress) && finishedEmitted == old(finishedEmitted)
    {
      safetyActive := false;
      ForceFinish();
    }

    /** `complete_animation`: both timers stop and `finished` is emitted, whatever ran before. */
    method CompleteAnimation()
      modifies this`timerActive, this`safetyActive, this`finishedEmitted
      ensures !timerActive && !safetyActive
      ensures finishedEmitted == old(finishedEmitted) + 1
    {
      timerActive := false;
      safetyActive := false;
      finishedEmitted := finishedEmitted + 1;
    }
  }

  /**
   * The progress timer is not stopped when the bar reaches 100, so a safety timeout that
   * falls inside the 100 ms before the scheduled `complete_animation` still finds it
   * active: `finished` is then emitted twice. On-time ticks fill the bar long before the
   * safety timeout; this run has the event loop stall after 39 ticks (a `QTimer` drops the
   * ticks it missed) and resume on the 30 ms grid at 2790 ms, so the bar reaches 100 at 2970.
   */
  method FinishedTwice() returns (emitted: nat, scheduled: nat)
    ensures emitted == 2 && scheduled == 1
  {
    var s := new SplashWindow();
    s.Start(0, 1920, 1080, 400, 300);
    for i := 1 to 40
      invariant s.Valid() && s.progress == 2 * (i - 1) && s.completeScheduled == 0
      invariant s.timerActive && s.startTime == 0 && s.finishedEmitted == 0
    {
      s.UpdateProgress(TickInterval * i);
    }
    for i := 93 to 100
      invariant s.Valid() && s.completeScheduled == (if i == 100 then 1 else 0)
      invariant s.timerActive && s.startTime == 0 && s.finishedEmitted == 0
      invariant s.progress == [78, 83, 88, 93, 95, 97, 99, 100][i - 93]
    {
      s.UpdateProgress(TickInterval * i);
    }
    s.SafetyTimeout();
    s.CompleteAnimation();
    emitted := s.finishedEmitted;
    scheduled := s.completeScheduled;
  }
}
