/**
 The non-graphical lifecycle of `StandardSwingApplication`, the game-loop
 host of the Standards library.

 The frame rate is converted to a timer period in milliseconds. `start`
 marks the application running and creates and starts a timer with that
 period; every tick of a timer either shuts the application down (when it
 is no longer marked running) or calls the user's `run` hook and asks the
 frame to repaint. The window and the timers are abstracted: each timer is
 its period and whether it is still started, and what the frame and the
 process see is recorded as a log of events.
 */
module SwingApplication {
  import opened JavaLang

  /** `SECONDS_TO_MS`: milliseconds per second. */
  const SecondsToMs: int := 1000

  /** What a tick does outside the controller's own fields. */
  datatype Event =
    | Run      // the user's `run()` hook
    | Repaint  // `FRAME.repaint()`
    | Dispose  // `FRAME.dispose()`
    | Exit     // `System.exit(0)`

  /** A `javax.swing.Timer`: its delay, fixed at creation, and whether it is started. */
  datatype Timer = Timer(delay: int, started: bool)

  /** `SECONDS_TO_MS / fps` in Java's truncating integer division. */
  function PeriodMs(fps: int): (ms: int)
    requires fps != 0
    ensures fps > 0 ==> 0 <= ms && ms * fps <= SecondsToMs < (ms + 1) * fps
    ensures fps < 0 ==> ms <= 0 && -ms * -fps <= SecondsToMs < (-ms + 1) * -fps
    ensures fps > SecondsToMs || fps < -SecondsToMs ==> ms == 0
  {
    JavaDiv(SecondsToMs, fps)
  }

  /** The events of `n` ticks that ran: `run()` then `repaint()`, `n` times. */
  function FrameLog(n: nat): (log: seq<Event>)
    ensures |log| == 2 * n
  {
    if n == 0 then [] else FrameLog(n - 1) + [Run, Repaint]
  }

  /** Each tick that ran calls `run()` first and then asks for a repaint. */
  lemma {:induction false} FrameLogAlternates(n: nat, i: nat)
    requires i < 2 * n
    ensures FrameLog(n)[i] == if i % 2 == 0 then Run else Repaint
  {
    if i < 2 * (n - 1) {
      FrameLogAlternates(n - 1, i);
    }
  }

  class StandardSwingApplication {
    var fps: int
    var ms: int
    var isRunning: bool
    /** Every timer `update()` has created, oldest first; the last is the `timer` field. */
    var timers: seq<Timer>
    /** The number of ticks that called `run()`. */
    var frames: nat
    var log: seq<Event>
    /** Set once `System.exit(0)` has been called: nothing happens afterwards. */
    var exited: bool

    /**
     The log is `frames` rounds of run-then-repaint, followed by the
     shutdown events once the application has exited; within the model the
     process exits only through a tick of a timer, after stopping the last
     timer, and until then every timer created is still started.
     */
    ghost predicate Valid()
      reads this
    {
      && log == FrameLog(frames) + (if exited then [Dispose, Exit] else [])
      && (frames > 0 || exited ==> |timers| > 0)
      && (exited ==> !isRunning && !timers[|timers| - 1].started)
      && (!exited ==> forall k :: 0 <= k < |timers| ==> timers[k].started)
    }

    /**
     The state after the constructor body runs `setFPS(fps)`; the
     `start()` it schedules with `invokeLater` is a separate call, `Start`.
     */
    constructor (fps: int)
      requires fps != 0
      ensures Valid()
      ensures this.fps == fps && ms == PeriodMs(fps)
      ensures !isRunning && timers == [] && frames == 0 && log == [] && !exited
    {
      this.fps := fps;
      ms := PeriodMs(fps);
      isRunning := false;
      timers := [];
      frames := 0;
      log := [];
      exited := false;
    }

    /**
     `new StandardSwingApplication(width, height, fps, title)`: a zero
     frame rate makes `setFPS` throw `ArithmeticException`; otherwise the
     application is created not running and with no timer.
     */
    static method Create(fps: int) returns (r: Result<StandardSwingApplication>)
      ensures r.Err? <==> fps == 0
      ensures r.Err? ==> r.error.ArithmeticException?
      ensures r.Ok? ==> fresh(r.value) && r.value.Valid()
      ensures r.Ok? ==> r.value.fps == fps && r.value.ms == PeriodMs(fps)
      ensures r.Ok? ==> !r.value.isRunning && r.value.timers == [] && r.value.log == []
    {
      if fps == 0 {
        return Err(ArithmeticException("/ by zero"));
      }
      var app := new StandardSwingApplication(fps);
      return Ok(app);
    }

    /**
     `setFPS(fps)`: the frame rate is stored first, then the period is
     computed; a zero frame rate throws after the store, leaving the old
     period. Timers already created keep the delay they were made with.
     */
    method SetFPS(newFps: int) returns (outcome: Outcome)
      requires Valid() && !exited
      modifies this`fps, this`ms
      ensures Valid()
      ensures fps == newFps
      ensures newFps == 0 ==> outcome == Fail(ArithmeticException("/ by zero")) && ms == old(ms)
      ensures newFps != 0 ==> outcome == Pass && ms == PeriodMs(newFps)
    {
      fps := newFps;
      if newFps == 0 {
        return Fail(ArithmeticException("/ by zero"));
      }
      ms := PeriodMs(newFps);
      return Pass;
    }

    /** `getFPS()`: the frame rate last stored by `setFPS`. */
    method GetFPS() returns (f: int)
      ensures f == fps
    {
      return fps;
    }

    /** `isRunning()`. */
    method IsRunning() returns (running: bool)
      ensures running == isRunning
    {
      return isRunning;
    }

    /** `setRunning(running)`: clearing the flag makes the next tick shut down. */
    method SetRunning(running: bool)
      requires Valid() && !exited
      modifies this`isRunning
      ensures Valid()
      ensures isRunning == running
    {
      isRunning := running;
    }

    /**
     `start()`: does nothing when already running; otherwise marks the
     application running and, through `update()`, creates and starts one
     new timer whose delay is the current period.
     */
    method Start()
      requires Valid() && !exited
      modifies this`isRunning, this`timers
      ensures Valid()
      ensures old(isRunning) ==> isRunning && timers == old(timers)
      ensures !old(isRunning) ==> isRunning && timers == old(timers) + [Timer(ms, true)]
    {
      if isRunning {
        return;
      }
      isRunning := true;
      Update();
    }

    /** `update()`: create a timer with the current period and start it. */
    method Update()
      requires Valid() && !exited
      modifies this`timers
      ensures Valid()
      ensures timers == old(timers) + [Timer(ms, true)]
    {
      timers := timers + [Timer(ms, true)];
    }

    /**
     `stop()`: stop the last timer created, dispose of the frame and end
     the process. It is only reached from a tick once the application is
     no longer marked running.
     */
    method Stop()
      requires Valid() && !exited && !isRunning && |timers| > 0
      modifies this`timers, this`log, this`exited
      ensures Valid() && exited
      ensures timers == old(timers)[|old(timers)| - 1 := Timer(old(timers)[|old(timers)| - 1].delay, false)]
      ensures log == old(log) + [Dispose, Exit]
    {
      var last := |timers| - 1;
      timers := timers[last := timers[last].(started := false)];
      log := log + [Dispose, Exit];
      exited := true;
    }

    /**
     The action listener of timer `k`, run once per period: when the
     application is not marked running it stops for good; otherwise it
     calls `run()` and then asks for a repaint.
     */
    method Tick(k: nat)
      requires Valid() && !exited && k < |timers|
      modifies this`timers, this`log, this`exited, this`frames
      ensures Valid()
      ensures !old(isRunning) ==> exited && frames == old(frames) && log == old(log) + [Dispose, Exit]
                                  && timers == old(timers)[|old(timers)| - 1 := Timer(old(timers)[|old(timers)| - 1].delay, false)]
      ensures old(isRunning) ==> !exited && timers == old(timers)
                                 && frames == old(frames) + 1 && log == old(log) + [Run, Repaint]
    {
      if !isRunning {
        Stop();
        return;
      }
      frames := frames + 1;
      log := log + [Run];
      log := log + [Repaint];
    }
  }

  /**
   A second `start()` while running creates no second timer: the
   application ends up with exactly one timer, with the period of its frame
   rate, and a tick runs one frame.
   */
  method StartTwiceScenario(fps: int) returns (created: nat, period: int, frames: nat)
    requires fps != 0
    ensures created == 1 && period == PeriodMs(fps) && frames == 1
  {
    var app := new StandardSwingApplication(fps);
    app.Start();
    app.Start();
    app.Tick(0);
    created, period, frames := |app.timers|, app.timers[0].delay, app.frames;
  }

  /**
   Clearing the running flag and calling `start()` again before any tick
   creates a second timer while the first is still started, so both drive
   `run()`.
   */
  method RestartBeforeTickScenario(fps: int) returns (timers: seq<Timer>)
    requires fps != 0
    ensures timers == [Timer(PeriodMs(fps), true), Timer(PeriodMs(fps), true)]
  {
    var app := new StandardSwingApplication(fps);
    app.Start();
    app.SetRunning(false);
    app.Start();
    timers := app.timers;
  }

  /**
   Setting the running flag before the scheduled `start()` runs makes that
   `start()` return at once, so no timer is ever created.
   */
  method RunningBeforeStartScenario(fps: int) returns (created: nat)
    requires fps != 0
    ensures created == 0
  {
    var app := new StandardSwingApplication(fps);
    app.SetRunning(true);
    app.Start();
    created := |app.timers|;
  }

  /** A tick after `setRunning(false)` disposes of the frame and exits without running a frame. */
  method ShutdownScenario(fps: int) returns (events: seq<Event>)
    requires fps != 0
    ensures events == [Run, Repaint, Dispose, Exit]
  {
    var app := new StandardSwingApplication(fps);
    app.Start();
    app.Tick(0);
    app.SetRunning(false);
    app.Tick(0);
    events := app.log;
  }
}
