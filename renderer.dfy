/**
 * The render-loop driver of `src/live2d/renderer.ts`: cancel-and-restart on
 * re-entry, a 60 fps gate on the frame time, and the `lastTime` update as the
 * source writes it (`lastTime = deltaTime`).
 */
module Renderer {
  import opened Native
  import Browser

  /** `1000 / 60` milliseconds. */
  const FrameInterval: real := 1000.0 / 60.0

  /** A tick does work only when more than one frame interval has elapsed. */
  function PassesGate(lastTime: real, currentTime: real): (passes: bool)
    ensures passes ==> currentTime > lastTime
  {
    currentTime - lastTime > FrameInterval
  }

  /**
   * The value `lastTime` takes after a tick that passes the gate: the delta
   * itself, a duration of more than one frame interval rather than a timestamp.
   */
  function LastTimeAfterGate(lastTime: real, currentTime: real): (r: real)
    ensures PassesGate(lastTime, currentTime) ==> r > FrameInterval
  {
    currentTime - lastTime
  }

  /** The evidently intended update: remember when the last drawing tick ran. */
  function IntendedLastTimeAfterGate(lastTime: real, currentTime: real): (r: real)
    ensures !PassesGate(r, currentTime)
  {
    currentTime
  }

  /**
   * The times among `times` at which successive `Tick`s draw, starting from
   * `lastTime`; after each drawing tick `lastTime` is updated as the source
   * writes it or, when `intended`, as evidently intended (a GL context assumed).
   */
  function DrawTimes(lastTime: real, times: seq<real>, intended: bool): (d: seq<real>)
    ensures |d| <= |times|
    ensures forall x :: x in d ==> x in times
    decreases |times|
  {
    if times == [] then []
    else if PassesGate(lastTime, times[0]) then
      var next := if intended then IntendedLastTimeAfterGate(lastTime, times[0]) else LastTimeAfterGate(lastTime, times[0]);
      [times[0]] + DrawTimes(next, times[1..], intended)
    else DrawTimes(lastTime, times[1..], intended)
  }

  /**
   * A run's drawing times are what its first tick logs followed by the rest
   * of the run from the `lastTime` that tick leaves. With the `drawTimes` and
   * `lastTime` ensures of `Live2dSceneRenderer.Tick`, this makes the log of
   * any run of ticks with a GL context `DrawTimes(lastTime, times, false)`.
   */
  lemma DrawTimesStep(lastTime: real, t: real, future: seq<real>, intended: bool)
    ensures DrawTimes(lastTime, [t] + future, intended) ==
      if PassesGate(lastTime, t) then
        [t] + DrawTimes(if intended then IntendedLastTimeAfterGate(lastTime, t) else LastTimeAfterGate(lastTime, t), future, intended)
      else DrawTimes(lastTime, future, intended)
  {
    assert ([t] + future)[1..] == future;
  }

  predicate NonDecreasing(times: seq<real>)
  {
    forall i, j :: 0 <= i < j < |times| ==> times[i] <= times[j]
  }

  /**
   * As written, the gate does not limit the frame rate: once the loop started
   * at `now` (more than one interval after page load) has drawn its first
   * tick, every later tick draws, however close together the ticks come.
   */
  lemma GateBypassedAsWritten(now: real, times: seq<real>)
    requires now > FrameInterval && NonDecreasing(times)
    requires times != [] && PassesGate(now, times[0])
    ensures DrawTimes(now, times, false) == times
  {
    var t := times[0];
    var rest := times[1..];
    assert NonDecreasing(rest);
    EveryTickDrawsAsWritten(LastTimeAfterGate(now, t), t, rest);
  }

  /**
   * The invariant behind the bypass: the stored value `x` exceeds one
   * interval, and so does the last drawing tick `prev` minus `x`; a tick at
   * or after `prev` then passes the gate and restores the invariant.
   */
  lemma {:induction false} EveryTickDrawsAsWritten(x: real, prev: real, times: seq<real>)
    requires x > FrameInterval && prev - x > FrameInterval
    requires NonDecreasing(times) && (times != [] ==> prev <= times[0])
    ensures DrawTimes(x, times, false) == times
    decreases |times|
  {
    if times != [] {
      var t := times[0];
      assert NonDecreasing(times[1..]);
      EveryTickDrawsAsWritten(LastTimeAfterGate(x, t), t, times[1..]);
      assert times == [t] + times[1..];
    }
  }

  /** A concrete instance: ticks at 5020 ms and 5021 ms after a start at 5000 ms both draw. */
  lemma GateBypassedExample()
    ensures DrawTimes(5000.0, [5020.0, 5021.0], false) == [5020.0, 5021.0]
    ensures 5021.0 - 5020.0 < FrameInterval
  {
    GateBypassedAsWritten(5000.0, [5020.0, 5021.0]);
  }

  /**
   * With the intended update, whatever the tick times, the first drawing tick
   * is more than one interval after the start and consecutive drawing ticks
   * are more than one interval apart.
   */
  lemma {:induction false} IntendedGateSpacesDrawingTicks(start: real, times: seq<real>)
    ensures var d := DrawTimes(start, times, true);
      && (d != [] ==> d[0] - start > FrameInterval)
      && forall i :: 0 <= i < |d| - 1 ==> d[i + 1] - d[i] > FrameInterval
    decreases |times|
  {
    if times != [] {
      var t := times[0];
      if PassesGate(start, t) {
        IntendedGateSpacesDrawingTicks(t, times[1..]);
      } else {
        IntendedGateSpacesDrawingTicks(start, times[1..]);
      }
    }
  }

  class Live2dSceneRenderer {
    var requestAnimationFrameHandler: int
    /** The `lastTime` captured by the current `loop` closure. */
    var lastTime: real
    /** The viewer captured by the current `loop` closure. */
    var target: Viewer?
    const frames: Browser.AnimationFrames
    /** The times of the drawing ticks so far, oldest first. */
    ghost var drawTimes: seq<real>

    /** At most one scheduled tick, and it is the one the handler names. */
    ghost predicate Valid()
      reads this, frames
    {
      && frames.Valid()
      && 0 <= requestAnimationFrameHandler < frames.nextId
      && frames.pending <= {requestAnimationFrameHandler}
      && (frames.pending != {} ==> target != null)
    }

    constructor ()
      ensures Valid() && fresh(frames)
      ensures requestAnimationFrameHandler == 0 && frames.pending == {} && target == null
      ensures drawTimes == []
    {
      requestAnimationFrameHandler := 0;
      drawTimes := [];
      lastTime := 0.0;
      target := null;
      frames := new Browser.AnimationFrames();
    }

    /** `cancelRender`: a no-op when idle, otherwise cancel the frame and go idle. */
    method CancelRender()
      requires Valid()
      modifies this`requestAnimationFrameHandler, frames
      ensures Valid()
      ensures requestAnimationFrameHandler == 0 && frames.pending == {}
      ensures old(requestAnimationFrameHandler) == 0 ==> unchanged(frames)
      ensures frames.nextId == old(frames.nextId)
    {
      if requestAnimationFrameHandler == 0 {
        return;
      }
      frames.Cancel(requestAnimationFrameHandler);
      requestAnimationFrameHandler := 0;
    }

    /**
     * `render(viewer, scene)` with `performance.now() == now`. A running loop
     * is cancelled first; afterwards exactly one fresh tick is scheduled.
     */
    method Render(viewer: Viewer, now: real)
      requires Valid()
      modifies this, frames
      ensures Valid()
      ensures requestAnimationFrameHandler != 0 && frames.pending == {requestAnimationFrameHandler}
      ensures requestAnimationFrameHandler != old(requestAnimationFrameHandler)
      ensures requestAnimationFrameHandler !in old(frames.pending)
      ensures target == viewer && lastTime == now
      ensures drawTimes == old(drawTimes)
    {
      if requestAnimationFrameHandler != 0 {
        CancelRender();
      }
      lastTime := now;
      target := viewer;
      requestAnimationFrameHandler := frames.Request();
    }

    /**
     * The browser runs the scheduled `loop` at `currentTime`. Within the frame
     * interval it only reschedules; past it, `lastTime` takes the delta, and
     * without a GL context the loop stops; otherwise it draws once through the
     * scene and reschedules.
     */
    method Tick(id: int, currentTime: real)
      requires Valid() && id in frames.pending
      modifies this`requestAnimationFrameHandler, this`lastTime, this`drawTimes, frames, target`calls
      ensures Valid() && target == old(target)
      ensures drawTimes == old(drawTimes)
        + (if PassesGate(old(lastTime), currentTime) && target.glAvailable then [currentTime] else [])
      ensures !PassesGate(old(lastTime), currentTime) ==>
        && lastTime == old(lastTime)
        && target.calls == old(target.calls)
        && requestAnimationFrameHandler != 0 && frames.pending == {requestAnimationFrameHandler}
      ensures PassesGate(old(lastTime), currentTime) ==>
        lastTime == LastTimeAfterGate(old(lastTime), currentTime)
      ensures PassesGate(old(lastTime), currentTime) && !target.glAvailable ==>
        && target.calls == old(target.calls)
        && requestAnimationFrameHandler == old(requestAnimationFrameHandler)
        && frames.pending == {}
      ensures PassesGate(old(lastTime), currentTime) && target.glAvailable ==>
        && target.calls == old(target.calls) + DrawingTick(target.hasProgram)
        && requestAnimationFrameHandler != 0 && frames.pending == {requestAnimationFrameHandler}
    {
      frames.Fire(id);
      var deltaTime := currentTime - lastTime;
      if deltaTime <= FrameInterval {
        requestAnimationFrameHandler := frames.Request();
        return;
      }
      lastTime := deltaTime;
      if !target.glAvailable {
        return;
      }
      drawTimes := drawTimes + [currentTime];
      target.Record(DrawingTick(target.hasProgram));
      requestAnimationFrameHandler := frames.Request();
    }
  }
}
