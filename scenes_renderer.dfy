/**
 * The render-loop driver of `src/live2d/scenes/renderer.ts`: no frame-time
 * gate, the first tick runs synchronously inside `render`, and `render`
 * refuses, with a logged error, while a handler is outstanding.
 */
module ScenesRenderer {
  import opened Native
  import Browser

  const StillAliveMessage := "still alive requestAnimationFrame handle"

  class Live2dSceneRenderer {
    var requestAnimationFrameHandler: int
    /** The viewer captured by the current `loop` closure. */
    var target: Viewer?
    const frames: Browser.AnimationFrames

    /** At most one scheduled tick, and it is the one the handler names. */
    ghost predicate Valid()
      reads this, frames
    {
      && frames.Valid()
      && 0 <= requestAnimationFrameHandler < frames.nextId
      && frames.pending <= {requestAnimationFrameHandler}
      && (frames.pending != {} ==> target != null)
    }

    constructor ()
      ensures Valid() && fresh(frames)
      ensures requestAnimationFrameHandler == 0 && frames.pending == {} && target == null
    {
      requestAnimationFrameHandler := 0;
      target := null;
      frames := new Browser.AnimationFrames();
    }

    /** `cancelRender`: a no-op when idle, otherwise cancel the frame and go idle. */
    method CancelRender()
      requires Valid()
      modifies this`requestAnimationFrameHandler, frames
      ensures Valid()
      ensures requestAnimationFrameHandler == 0 && frames.pending == {}
      ensures old(requestAnimationFrameHandler) == 0 ==> unchanged(frames)
      ensures frames.nextId == old(frames.nextId)
    {
      if requestAnimationFrameHandler == 0 {
        return;
      }
      frames.Cancel(requestAnimationFrameHandler);
      requestAnimationFrameHandler := 0;
    }

    /**
     * The body of `loop`: without a GL context it returns and schedules
     * nothing; otherwise it draws once through the scene and reschedules.
     */
    method Loop()
      requires Valid() && target != null && frames.pending == {}
      modifies this`requestAnimationFrameHandler, frames, target`calls
      ensures Valid() && target == old(target)
      ensures !target.glAvailable ==>
        && target.calls == old(target.calls)
        && requestAnimationFrameHandler == old(requestAnimationFrameHandler)
        && frames.pending == {}
      ensures target.glAvailable ==>
        && target.calls == old(target.calls) + DrawingTick(target.hasProgram)
        && requestAnimationFrameHandler != 0 && frames.pending == {requestAnimationFrameHandler}
    {
      if !target.glAvailable {
        return;
      }
      target.Record(DrawingTick(target.hasProgram));
      requestAnimationFrameHandler := frames.Request();
    }

    /**
     * `render(viewer, scene)`. While a handler is outstanding it logs and
     * returns; otherwise the first tick runs before `render` returns.
     */
    method Render(viewer: Viewer, backend: Browser.Backend)
      requires Valid()
      modifies this`requestAnimationFrameHandler, this`target, frames, viewer`calls, backend`errors
      ensures Valid()
      ensures old(requestAnimationFrameHandler) != 0 ==>
        && backend.errors == old(backend.errors) + [StillAliveMessage]
        && unchanged(this, frames) && viewer.calls == old(viewer.calls)
      ensures old(requestAnimationFrameHandler) == 0 ==>
        && backend.errors == old(backend.errors)
        && target == viewer
      ensures old(requestAnimationFrameHandler) == 0 && !viewer.glAvailable ==>
        && viewer.calls == old(viewer.calls)
        && requestAnimationFrameHandler == 0 && frames.pending == {}
      ensures old(requestAnimationFrameHandler) == 0 && viewer.glAvailable ==>
        && viewer.calls == old(viewer.calls) + DrawingTick(viewer.hasProgram)
        && requestAnimationFrameHandler != 0 && frames.pending == {requestAnimationFrameHandler}
    {
      if requestAnimationFrameHandler != 0 {
        backend.LogError(StillAliveMessage);
        return;
      }
      target := viewer;
      Loop();
    }

    /** The browser runs a scheduled `loop`. */
    method Tick(id: int)
      requires Valid() && id in frames.pending
      modifies this`requestAnimationFrameHandler, frames, target`calls
      ensures Valid() && target == old(target)
      ensures !target.glAvailable ==>
        && target.calls == old(target.calls)
        && requestAnimationFrameHandler == old(requestAnimationFrameHandler)
        && frames.pending == {}
      ensures target.glAvailable ==>
        && target.calls == old(target.calls) + DrawingTick(target.hasProgram)
        && requestAnimationFrameHandler != 0 && frames.pending == {requestAnimationFrameHandler}
    {
      frames.Fire(id);
      Loop();
    }
  }
}
