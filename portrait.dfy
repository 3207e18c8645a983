/**
 * The portrait scene of `src/live2d/scenes/portrait.ts`, run once per frame:
 * locate the current model, and when its setup is complete and its mesh
 * exists, fit it to the canvas aspect ratio, compose with the view matrix,
 * update and draw it. Matrix work is recorded, not computed.
 */
module Portrait {
  import opened Native
  import Browser

  const MissingModelMessage := "target Live2D Model is undefined"

  /** The model is drawn this frame: set up, with a mesh. */
  function Ready(s: ViewerState): (r: bool)
    ensures r ==> s.currentKey.Some? && s.currentKey.value in s.models
  {
    && s.Current().Some?
    && s.Current().value.setupComplete
    && s.Current().value.canvasWidth.Some?
  }

  /** A wide model in a tall viewport is fitted by width. */
  function FitsWidth(s: ViewerState): (r: bool)
    requires Ready(s)
    ensures r ==> s.canvasHeight > 0 && (s.canvasWidth as real) / (s.canvasHeight as real) < 1.0
  {
    s.Current().value.canvasWidth.value > 1.0 && s.canvasWidth < s.canvasHeight
  }

  /** The projection scaling of the aspect-correction branch. */
  function AspectCorrection(s: ViewerState): (calls: seq<NativeCall>)
    requires Ready(s)
  {
    var w, h := s.canvasWidth as real, s.canvasHeight as real;
    if FitsWidth(s) then
      [SetModelWidth(s.currentKey.value, 2.0), ScaleProjection(Ratio(1.0, 1.0), Ratio(w, h))]
    else
      [ScaleProjection(Ratio(h, w), Ratio(1.0, 1.0))]
  }

  /** Everything one frame asks of the viewer, in order. */
  function FrameCalls(s: ViewerState): (calls: seq<NativeCall>)
  {
    [NewMatrix44] +
    if !Ready(s) then []
    else
      var k := s.currentKey.value;
      AspectCorrection(s) + [MultiplyByViewMatrix, UpdateModel(k), DrawModel(k, 0, 0, s.canvasWidth, s.canvasHeight)]
  }

  /** `sceneOfPortrait(viewer)`. */
  method SceneOfPortrait(viewer: Viewer, backend: Browser.Backend)
    modifies viewer`calls, backend`errors
    ensures viewer.calls == old(viewer.calls) + FrameCalls(viewer.State())
    ensures backend.errors == old(backend.errors) + (if viewer.State().Current().None? then [MissingModelMessage] else [])
  {
    var width, height := viewer.canvasWidth, viewer.canvasHeight;
    viewer.Record([NewMatrix44]);
    var key := viewer.currentKey;
    var model := viewer.State().Current();
    if model.None? {
      backend.LogError(MissingModelMessage);
      return;
    }
    if model.value.setupComplete && model.value.canvasWidth.Some? {
      var k := key.value;
      if model.value.canvasWidth.value > 1.0 && width < height {
        viewer.Record([SetModelWidth(k, 2.0)]);
        viewer.Record([ScaleProjection(Ratio(1.0, 1.0), Ratio(width as real, height as real))]);
      } else {
        viewer.Record([ScaleProjection(Ratio(height as real, width as real), Ratio(1.0, 1.0))]);
      }
      viewer.Record([MultiplyByViewMatrix]);
      viewer.Record([UpdateModel(k)]);
      viewer.Record([DrawModel(k, 0, 0, width, height)]);
    }
  }

  /** Update and draw happen in a frame exactly when the current model is ready. */
  lemma DrawsExactlyWhenReady(s: ViewerState)
    ensures Ready(s) <==> exists c :: c in FrameCalls(s) && c.DrawModel?
    ensures Ready(s) <==> exists c :: c in FrameCalls(s) && c.UpdateModel?
    ensures !Ready(s) ==> FrameCalls(s) == [NewMatrix44]
  {
    if Ready(s) {
      var calls := FrameCalls(s);
      assert calls[|calls| - 1].DrawModel?;
      assert calls[|calls| - 2].UpdateModel?;
    }
  }

  /**
   * In a drawn frame the last four calls are: scale the projection, multiply
   * by the view matrix, update, draw over the whole canvas; the model is
   * the current one.
   */
  lemma DrawOrder(s: ViewerState)
    requires Ready(s)
    ensures var calls, k := FrameCalls(s), s.currentKey.value;
      && |calls| >= 5
      && calls[|calls| - 4].ScaleProjection?
      && calls[|calls| - 3] == MultiplyByViewMatrix
      && calls[|calls| - 2] == UpdateModel(k)
      && calls[|calls| - 1] == DrawModel(k, 0, 0, s.canvasWidth, s.canvasHeight)
      && s.models[k] == s.Current().value
  {
  }

  /**
   * A wide model in a tall viewport gets width 2.0 and the Y axis scaled by
   * width/height (below 1); otherwise X is scaled by height/width and the
   * model matrix is not touched.
   */
  lemma AspectBranch(s: ViewerState)
    requires Ready(s)
    ensures FitsWidth(s) ==>
      && SetModelWidth(s.currentKey.value, 2.0) in FrameCalls(s)
      && ScaleProjection(Ratio(1.0, 1.0), Ratio(s.canvasWidth as real, s.canvasHeight as real)) in FrameCalls(s)
      && (s.canvasWidth as real) / (s.canvasHeight as real) < 1.0
    ensures !FitsWidth(s) ==>
      && ScaleProjection(Ratio(s.canvasHeight as real, s.canvasWidth as real), Ratio(1.0, 1.0)) in FrameCalls(s)
      && forall c :: c in FrameCalls(s) ==> !c.SetModelWidth?
  {
    var calls := FrameCalls(s);
    if FitsWidth(s) {
      assert calls[1] == SetModelWidth(s.currentKey.value, 2.0);
      assert calls[2] == ScaleProjection(Ratio(1.0, 1.0), Ratio(s.canvasWidth as real, s.canvasHeight as real));
    } else {
      assert calls[1] == ScaleProjection(Ratio(s.canvasHeight as real, s.canvasWidth as real), Ratio(1.0, 1.0));
    }
  }
}
