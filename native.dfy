/**
 * The native `live2dmanager` SDK, reduced to the state the application code
 * reads and the calls it makes. A `Viewer` holds the model table (key to
 * entry), the current model key, a released flag, whether its GL context and
 * shader program exist, and its canvas size. Every state-changing call the
 * application makes into the SDK (viewer, models, matrices, GL) is appended to
 * `calls`, so the order of side effects can be stated; the construction of
 * model objects and their `loadAssets()` are not, and read-only queries
 * leave no entry.
 */
module Native {
  import opened Wrappers

  /** The two model classes: `Live2dModel` and `Live2dMotionSyncModel`. */
  datatype ModelKind = Standard | MotionSync

  /**
   * One registered model. `canvasWidth` is `getModel().getCanvasWidth()`, or
   * `None` when `getModel()` is falsy; `setupComplete` is `isCompleteSetup`.
   */
  datatype Entry = Entry(
    kind: ModelKind,
    weight: Option<int>,
    expression: Option<string>,
    oldParamNames: bool,
    canvasWidth: Option<real>,
    setupComplete: bool)

  /** An exact quotient `num / den`, kept unevaluated (den may be 0 in GL code). */
  datatype Ratio = Ratio(num: real, den: real)

  datatype GlCall =
    | ClearColor(r: real, g: real, b: real, a: real)
    | EnableDepthTest
    | DepthFuncLequal
    | ClearColorAndDepth
    | ClearDepth(depth: real)
    | EnableBlend
    | BlendSrcAlphaOneMinusSrcAlpha
    | UseProgram
    | Flush

  datatype NativeCall =
    | Initialize(memory: int)
    | SetCurrentModel(key: string)
    | AddModel(key: string)
    | Release
    | ReleaseAllModel
    | TouchesBegin(pageX: real, pageY: real)
    | TouchesMoved(pageX: real, pageY: real)
    | TouchesEnded
    | SetLipSyncWeight(model: string, weight: int)
    | SetExpression(model: string, expression: string)
    | ReleaseModelObject(model: string)
    | StopKeepEyeValue(model: string)
    | CloseEyelids(model: string)
    | OpenEyelids(model: string)
    | KeepEyeOpenParams(model: string, lOpen: real, rOpen: real)
    | StopLipSync(model: string)
    | StopMotionSync(model: string)
    | UpdateTime
    | Gl(op: GlCall)
    | RunScene
    | NewMatrix44
    | SetModelWidth(model: string, width: real)
    | ScaleProjection(sx: Ratio, sy: Ratio)
    | MultiplyByViewMatrix
    | UpdateModel(model: string)
    | DrawModel(model: string, left: int, top: int, viewportWidth: nat, viewportHeight: nat)

  /** Everything about a viewer except its call trace. */
  datatype ViewerState = ViewerState(
    models: map<string, Entry>,
    currentKey: Option<string>,
    released: bool,
    glAvailable: bool,
    hasProgram: bool,
    canvasWidth: nat,
    canvasHeight: nat)
  {
    /** `getModelFromKey(getCurrentModelKey())`. */
    function Current(): Option<Entry>
    {
      if currentKey.Some? && currentKey.value in models then Some(models[currentKey.value]) else None
    }

    /** The current key, when a model is registered under it. */
    function CurrentModelKey(): Option<string>
    {
      if Current().Some? then currentKey else None
    }
  }

  /**
   * The GL work of one drawing tick, the same in both renderer revisions:
   * advance the clock, clear, set depth and alpha-blend state, bind the
   * program when there is one, flush, then run the scene.
   */
  function DrawingTick(hasProgram: bool): (calls: seq<NativeCall>)
    ensures |calls| == (if hasProgram then 11 else 10)
    ensures calls[0] == UpdateTime && UpdateTime !in calls[1..]
    ensures calls[|calls| - 1] == RunScene && RunScene !in calls[..|calls| - 1]
    ensures (Gl(UseProgram) in calls) == hasProgram
  {
    var setup := [UpdateTime, Gl(ClearColor(0.0, 0.0, 0.0, 0.0)), Gl(EnableDepthTest), Gl(DepthFuncLequal),
                  Gl(ClearColorAndDepth), Gl(ClearDepth(1.0)), Gl(EnableBlend), Gl(BlendSrcAlphaOneMinusSrcAlpha)];
    var program := if hasProgram then [Gl(UseProgram)] else [];
    setup + program + [Gl(Flush), RunScene]
  }

  class Viewer {
    var models: map<string, Entry>
    var currentKey: Option<string>
    var released: bool
    var glAvailable: bool
    var hasProgram: bool
    var canvasWidth: nat
    var canvasHeight: nat
    var calls: seq<NativeCall>

    function State(): ViewerState
      reads this
    {
      ViewerState(models, currentKey, released, glAvailable, hasProgram, canvasWidth, canvasHeight)
    }

    /**
     * `new Live2dViewer(canvas, width, height)`: no models and no program yet;
     * `gl` says whether the SDK obtained a WebGL context for the canvas.
     */
    constructor (width: nat, height: nat, gl: bool)
      ensures State() == ViewerState(map[], None, false, gl, false, width, height)
      ensures calls == []
    {
      models := map[];
      currentKey := None;
      released := false;
      glAvailable := gl;
      hasProgram := false;
      canvasWidth := width;
      canvasHeight := height;
      calls := [];
    }

    /** A call that changes none of the state above (touch, eyes, GL, matrices). */
    method Record(cs: seq<NativeCall>)
      modifies this`calls
      ensures calls == old(calls) + cs
    {
      calls := calls + cs;
    }

    /** `initialize(memory)`; `program` says whether it leaves a shader program (`_programId`). */
    method Initialize(memory: int, program: bool)
      modifies this`hasProgram, this`calls
      ensures hasProgram == program
      ensures calls == old(calls) + [NativeCall.Initialize(memory)]
    {
      hasProgram := program;
      calls := calls + [NativeCall.Initialize(memory)];
    }

    method AddModel(key: string, e: Entry)
      modifies this`models, this`calls
      ensures models == old(models)[key := e]
      ensures calls == old(calls) + [NativeCall.AddModel(key)]
    {
      models := models[key := e];
      calls := calls + [NativeCall.AddModel(key)];
    }

    /** No check that the key is registered: that is the viewer's concern. */
    method SetCurrentModel(key: string)
      modifies this`currentKey, this`calls
      ensures currentKey == Some(key)
      ensures calls == old(calls) + [NativeCall.SetCurrentModel(key)]
    {
      currentKey := Some(key);
      calls := calls + [NativeCall.SetCurrentModel(key)];
    }

    method Release()
      modifies this`released, this`calls
      ensures released
      ensures calls == old(calls) + [NativeCall.Release]
    {
      released := true;
      calls := calls + [NativeCall.Release];
    }

    method ReleaseAllModel()
      modifies this`models, this`calls
      ensures models == map[]
      ensures calls == old(calls) + [NativeCall.ReleaseAllModel]
    {
      models := map[];
      calls := calls + [NativeCall.ReleaseAllModel];
    }
  }
}
