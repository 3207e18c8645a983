/**
 * The Live2D model manager of `src/live2d/live2d.ts`. It resolves the native
 * module lazily (caching a failed import for good), owns the viewer and the
 * render loop, routes pointer events to the viewer, issues the loads of the
 * seven fixed models, and releases the viewer and its models.
 *
 * Each `await` continuation that the source schedules is a method of its own:
 * the settled loads (`OnLoadSucceeded`, `OnLoadFailed`) may be called in any
 * order, any time after `LoadAllModels` issued them.
 */
module Live2d {
  import opened Wrappers
  import opened Native
  import Browser
  import Renderer
  import Portrait

  // ---------------------------------------------------------------------
  // The fixed registry of models that `loadAllModels` loads
  // ---------------------------------------------------------------------

  datatype Character = Metan | Zundamon | Tsumugi | Sora | Usagi | Hau | Ritsu

  /** The speaker id each model is registered under. */
  function Id(c: Character): (id: string)
    ensures |id| == 36 && id[8] == id[13] == id[18] == id[23] == '-'
  {
    match c
    case Metan => "7ffcb7ce-00ec-4bdc-82cd-45a8889e43ff"
    case Zundamon => "388f246b-8c41-4ac1-8e2d-5d79f3ff56d9"
    case Tsumugi => "35b2c544-660e-401e-b503-0e14c635303a"
    case Sora => "481fb609-6446-4870-9f46-90c4dd623403"
    case Usagi => "1f18ffc3-47ea-4ce0-9829-0576d03a7ec8"
    case Hau => "3474ee95-c274-47f9-aa1a-8322163d96f1"
    case Ritsu => "b1a81618-b27b-40d2-b0ea-27a9ad408c4b"
  }

  /** The `name` sent with the model info to the store. */
  function StoreName(c: Character): (name: string)
    ensures |name| >= 4
  {
    match c
    case Metan => "四国めたん"
    case Zundamon => "ずんだもん"
    case Tsumugi => "春日部つむぎ"
    case Sora => "九州そら"
    case Usagi => "中国うさぎ"
    case Hau => "雨晴はう"
    case Ritsu => "波音リツ"
  }

  /** The model directory, appended to the assets path. */
  function DirName(c: Character): (dir: string)
    ensures |dir| >= 2 && dir[0] == '/' && dir[|dir| - 1] == '/'
  {
    match c
    case Metan => "/四国めたん_vts/"
    case Zundamon => "/Zundamon_vts/"
    case Tsumugi => "/春日部つむぎ公式live2Dモデル/"
    case Sora => "/Sora_vts/"
    case Usagi => "/Usagi_vts/"
    case Hau => "/Mao/"
    case Ritsu => "/Kei_basic/"
  }

  /** The `modelJsonName` of each model's info. */
  function ModelJsonName(c: Character): (name: string)
    ensures |name| > 12 && name[|name| - 12..] == ".model3.json"
  {
    ModelBaseName(c) + ".model3.json"
  }

  /** The model file's name before its `.model3.json` extension. */
  function ModelBaseName(c: Character): (base: string)
    ensures |base| > 0
  {
    match c
    case Metan => "四国めたん"
    case Zundamon => "zundamon"
    case Tsumugi => "春日部つむぎ公式live2Dモデル"
    case Sora => "kyuusyuu_sora"
    case Usagi => "usagi"
    case Hau => "Mao"
    case Ritsu => "Kei_basic"
  }

  /** Only ritsu is built as a `Live2dMotionSyncModel`, and it gets no lip-sync weight. */
  function Kind(c: Character): (k: ModelKind)
    ensures k == MotionSync <==> LipSyncWeight(c).None?
  {
    if c == Ritsu then MotionSync else Standard
  }

  /** The lip-sync weight set in the success continuation; ritsu gets none. */
  function LipSyncWeight(c: Character): (w: Option<int>)
    ensures w.Some? ==> 10 <= w.value <= 20
  {
    match c
    case Metan => Some(10)
    case Zundamon => Some(20)
    case Tsumugi => Some(15)
    case Sora => Some(20)
    case Usagi => Some(20)
    case Hau => Some(10)
    case Ritsu => None
  }

  /** Only usagi gets a default expression, a usable standard model with weight 20. */
  function DefaultExpression(c: Character): (e: Option<string>)
    ensures e.Some? ==> MarksUsable(c) && LipSyncWeight(c) == Some(20)
  {
    if c == Usagi then Some("Inaba") else None
  }

  /** Only tsumugi's model is built with the old parameter names; it is a usable standard model. */
  function OldParamNames(c: Character): (legacy: bool)
    ensures legacy ==> MarksUsable(c) && Kind(c) == Standard
  {
    c == Tsumugi
  }

  /** The first five continuations set `isUsable`; hau's and ritsu's do not, so the motion-sync model is never usable. */
  function MarksUsable(c: Character): (u: bool)
    ensures Kind(c) == MotionSync ==> !u
  {
    c != Hau && c != Ritsu
  }

  /**
   * What the failure continuation logs for `error`: a standard model names
   * itself before the error, the motion-sync model logs the bare error.
   */
  function FailureMessage(c: Character, error: string): (m: string)
    ensures |m| >= |error| && m[|m| - |error|..] == error
    ensures Kind(c) == Standard ==> |m| > 16 + |error| && m[..16] == "Error when load "
    ensures Kind(c) == MotionSync ==> m == error
  {
    if c == Ritsu then error
    else "Error when load " + FailureSubject(c) + " live2d model assets: " + error
  }

  /** How a standard model's failure message names it. */
  function FailureSubject(c: Character): (subject: string)
    ensures c != Ritsu ==> |subject| >= 3
  {
    match c
    case Metan => "metan"
    case Zundamon => "zundamon"
    case Tsumugi => "kasukabe tsumugi"
    case Sora => "kyuusyuu sora"
    case Usagi => "chudoku usagi"
    case Hau => "hau"
    case Ritsu => ""
  }

  /** Speaker ids are distinct, so the seven models never overwrite each other. */
  lemma IdInjective(a: Character, b: Character)
    ensures Id(a) == Id(b) ==> a == b
  {
  }

  // ---------------------------------------------------------------------
  // Store traffic, pending loads, timers, listeners
  // ---------------------------------------------------------------------

  datatype ModelInfo = ModelInfo(id: string, isUsable: bool, dirPath: string, modelJsonName: string)

  datatype StoreAction =
    | Live2dCoreLoaded(isLive2dLoaded: bool)
    | Live2dInitialized(isLive2dInitialized: bool)
    | Live2dModelInfo(name: string, info: ModelInfo)

  /** `store.dispatch(...)`, or ritsu's direct `store.actions.LIVE2D_MODEL_INFO(...)`. */
  datatype StoreCall = Dispatch(action: StoreAction) | InvokeAction(action: StoreAction)

  /** An issued `loadAssets()` whose promise has not settled; it captured `target`. */
  datatype PendingLoad = PendingLoad(character: Character, target: Viewer, assetsPath: string)
  {
    /** The model directory the load reads from. */
    function DirPath(): (path: string)
      ensures |path| > |assetsPath| && path[..|assetsPath|] == assetsPath
      ensures path[|assetsPath|] == '/' && path[|path| - 1] == '/'
    {
      assetsPath + DirName(character)
    }
  }

  /** A `setTimeout(() => call, delayMs)`. */
  datatype Timeout = Timeout(delayMs: nat, call: NativeCall)

  /** The outcome of `import("live2dmanager")`. */
  datatype ImportOutcome =
    | Imported
    /** The import resolves but one of the three classes is `undefined`. */
    | ImportedIncomplete
    | ImportFailed(error: string)

  /**
   * How `new Live2dViewer(...)` and `initialize(...)` go: `gl` is whether the
   * SDK obtained a WebGL context, `program` whether `initialize` left a
   * shader program.
   */
  datatype ViewerConstruction =
    | Constructed(gl: bool, program: bool)
    | ConstructorThrows(error: string)
    | InitializeThrows(gl: bool, error: string)

  datatype PointerEventType = PointerDown | PointerUp | PointerLeave | PointerMove
  datatype Handler = OnTouches | OnTouchEnd | OnTouchMoved
  datatype Listener = Listener(event: PointerEventType, handler: Handler)

  /** The four (event, handler) pairs; pointerup and pointerleave share one handler. */
  const CanvasListeners: set<Listener> :=
    {Listener(PointerDown, OnTouches), Listener(PointerUp, OnTouchEnd),
     Listener(PointerLeave, OnTouchEnd), Listener(PointerMove, OnTouchMoved)}

  /** The handler the manager attaches to each pointer event. */
  function HandlerOf(e: PointerEventType): (h: Handler)
    ensures Listener(e, h) in CanvasListeners
    ensures forall h' :: Listener(e, h') in CanvasListeners ==> h' == h
  {
    match e
    case PointerDown => OnTouches
    case PointerUp => OnTouchEnd
    case PointerLeave => OnTouchEnd
    case PointerMove => OnTouchMoved
  }

  const AllocationMemory: int := 1024 * 1024 * 32
  const ViewerSize: nat := 800

  /** The state of a viewer just built and initialised by `initViewer`. */
  function FreshViewer(gl: bool, program: bool): (s: ViewerState)
    ensures s.Current().None? && s.models == map[] && !s.released
    ensures s.canvasWidth == ViewerSize && s.canvasHeight == ViewerSize
  {
    ViewerState(map[], None, false, gl, program, ViewerSize, ViewerSize)
  }

  // ---------------------------------------------------------------------
  // The effects of each continuation
  // ---------------------------------------------------------------------

  /**
   * What a loaded model reports to the scene: `getModel().getCanvasWidth()`
   * (`None` when `getModel()` is falsy) and `isCompleteSetup`, both set by the SDK.
   */
  datatype Loaded = Loaded(canvasWidth: Option<real>, setupComplete: bool)

  /** The entry a successful load registers: the registry's settings plus what the SDK reports. */
  function LoadedEntry(c: Character, report: Loaded): (e: Entry)
    ensures e.kind == MotionSync <==> e.weight.None?
    ensures e.expression.Some? ==> e.kind == Standard
    ensures e.oldParamNames ==> e.kind == Standard
    ensures e.canvasWidth.Some? && e.setupComplete <==> report.canvasWidth.Some? && report.setupComplete
  {
    Entry(Kind(c), LipSyncWeight(c), DefaultExpression(c), OldParamNames(c), report.canvasWidth, report.setupComplete)
  }

  /**
   * The native calls of a success continuation: weight, then expression,
   * then registration under the model's id, which comes last and only once.
   */
  function SuccessCalls(c: Character): (calls: seq<NativeCall>)
    ensures |calls| >= 1 && calls[|calls| - 1] == AddModel(Id(c))
    ensures forall i :: 0 <= i < |calls| - 1 ==> !calls[i].AddModel?
    ensures LipSyncWeight(c).Some? ==> calls[0] == SetLipSyncWeight(Id(c), LipSyncWeight(c).value)
    ensures LipSyncWeight(c).None? ==> forall call :: call in calls ==> !call.SetLipSyncWeight?
    ensures DefaultExpression(c).Some? ==> SetExpression(Id(c), DefaultExpression(c).value) in calls
    ensures DefaultExpression(c).None? ==> forall call :: call in calls ==> !call.SetExpression?
  {
    ConfigCalls(c) + [AddModel(Id(c))]
  }

  /** The weight and expression calls that precede the registration. */
  function ConfigCalls(c: Character): (calls: seq<NativeCall>)
    ensures |calls| <= 2
    ensures forall call :: call in calls ==> (call.SetLipSyncWeight? || call.SetExpression?) && call.model == Id(c)
  {
    (if LipSyncWeight(c).Some? then [SetLipSyncWeight(Id(c), LipSyncWeight(c).value)] else [])
    + (if DefaultExpression(c).Some? then [SetExpression(Id(c), DefaultExpression(c).value)] else [])
  }

  /** The store traffic of a success continuation. */
  function Published(c: Character, dirPath: string): (call: StoreCall)
    ensures call.action == Live2dModelInfo(StoreName(c), ModelInfo(Id(c), MarksUsable(c), dirPath, ModelJsonName(c)))
    ensures call.Dispatch? <==> Kind(c) == Standard
  {
    var action := Live2dModelInfo(StoreName(c), ModelInfo(Id(c), MarksUsable(c), dirPath, ModelJsonName(c)));
    if c == Ritsu then InvokeAction(action) else Dispatch(action)
  }

  /** The native calls of a failure continuation: tsumugi alone releases its model. */
  function FailureCalls(c: Character): (calls: seq<NativeCall>)
    ensures forall call :: call in calls ==> !call.AddModel?
    ensures calls != [] <==> c == Tsumugi
  {
    if c == Tsumugi then [ReleaseModelObject(Id(c))] else []
  }

  /** The loads `loadAllModels` issues, in source order, against `v`. */
  function IssuedLoads(v: Viewer, assetsPath: string): (loads: seq<PendingLoad>)
    ensures |loads| == 7
    ensures forall p :: p in loads ==> p.target == v && p.assetsPath == assetsPath
  {
    [PendingLoad(Metan, v, assetsPath), PendingLoad(Zundamon, v, assetsPath),
     PendingLoad(Tsumugi, v, assetsPath), PendingLoad(Sora, v, assetsPath),
     PendingLoad(Usagi, v, assetsPath), PendingLoad(Hau, v, assetsPath),
     PendingLoad(Ritsu, v, assetsPath)]
  }

  /** Every model is loaded exactly once, into the viewer `loadAllModels` saw. */
  lemma EachModelIssuedOnce(v: Viewer, assetsPath: string, c: Character)
    ensures PendingLoad(c, v, assetsPath) in IssuedLoads(v, assetsPath)
    ensures forall i, j :: 0 <= i < j < 7 ==> IssuedLoads(v, assetsPath)[i].character != IssuedLoads(v, assetsPath)[j].character
  {
  }

  /**
   * The touch-begin eye effect for the random `n`: with a current model,
   * `stopKeepEyeValue` comes first; n = 1 closes the eyelids and reopens them
   * after 500 ms, n = 2 holds both at 0.8 and stops after 1000 ms.
   */
  function EyeReaction(model: Option<string>, n: int): (r: (seq<NativeCall>, seq<Timeout>))
    requires 0 <= n < 3
    ensures model.None? ==> r == ([], [])
    ensures model.Some? ==> |r.0| >= 1 && r.0[0] == StopKeepEyeValue(model.value)
    ensures model.Some? && n == 0 ==> r == ([StopKeepEyeValue(model.value)], [])
    ensures model.Some? && n == 1 ==>
      r.0[1..] == [CloseEyelids(model.value)] && r.1 == [Timeout(500, OpenEyelids(model.value))]
    ensures model.Some? && n == 2 ==>
      r.0[1..] == [KeepEyeOpenParams(model.value, 0.8, 0.8)] && r.1 == [Timeout(1000, StopKeepEyeValue(model.value))]
  {
    match model
    case None => ([], [])
    case Some(k) =>
      if n == 1 then ([StopKeepEyeValue(k), CloseEyelids(k)], [Timeout(500, OpenEyelids(k))])
      else if n == 2 then ([StopKeepEyeValue(k), KeepEyeOpenParams(k, 0.8, 0.8)], [Timeout(1000, StopKeepEyeValue(k))])
      else ([StopKeepEyeValue(k)], [])
  }

  /**
   * `stopLipSync` on the current model: nothing without one, exactly
   * `stopMotionSync` for a motion-sync model, exactly `stopLipSync` otherwise.
   */
  function StopLipSyncCalls(s: ViewerState): (calls: seq<NativeCall>)
    ensures s.Current().None? ==> calls == []
    ensures s.Current().Some? ==>
      && |calls| == 1
      && (calls[0] == StopMotionSync(s.currentKey.value) <==> s.Current().value.kind == MotionSync)
      && (calls[0] == StopLipSync(s.currentKey.value) <==> s.Current().value.kind == Standard)
  {
    match s.Current()
    case None => []
    case Some(m) =>
      match m.kind
      case MotionSync => [StopMotionSync(s.currentKey.value)]
      case Standard => [StopLipSync(s.currentKey.value)]
  }

  /** The model table after the success continuations `done` ran, in that order. */
  function Register(models: map<string, Entry>, done: seq<(Character, Loaded)>): (r: map<string, Entry>)
    ensures models.Keys <= r.Keys
    ensures done != [] ==> Id(done[|done| - 1].0) in r && r[Id(done[|done| - 1].0)] == LoadedEntry(done[|done| - 1].0, done[|done| - 1].1)
  {
    if done == [] then models
    else
      var last := done[|done| - 1];
      Register(models, done[..|done| - 1])[Id(last.0) := LoadedEntry(last.0, last.1)]
  }

  /**
   * Whatever order the loads settle in, exactly the models whose success
   * continuation ran are added; failed loads add nothing.
   */
  lemma {:induction false} RegisteredExactly(models: map<string, Entry>, done: seq<(Character, Loaded)>)
    ensures Register(models, done).Keys == models.Keys + (set d | d in done :: Id(d.0))
  {
    if done != [] {
      var init, last := done[..|done| - 1], done[|done| - 1];
      RegisteredExactly(models, init);
      assert done == init + [last];
      assert (set d | d in done :: Id(d.0)) == (set d | d in init :: Id(d.0)) + {Id(last.0)};
    }
  }

  /** One more success continuation is one more update of the table. */
  lemma RegisterStep(models: map<string, Entry>, done: seq<(Character, Loaded)>, c: Character, w: Loaded)
    ensures Register(models, done + [(c, w)]) == Register(models, done)[Id(c) := LoadedEntry(c, w)]
  {
    assert (done + [(c, w)])[..|done|] == done;
  }

  /** A registered model's entry is the one its latest success continuation built. */
  lemma {:induction false} RegisteredEntry(models: map<string, Entry>, done: seq<(Character, Loaded)>, i: nat)
    requires i < |done|
    requires forall j :: i < j < |done| ==> done[j].0 != done[i].0
    ensures Id(done[i].0) in Register(models, done)
    ensures Register(models, done)[Id(done[i].0)] == LoadedEntry(done[i].0, done[i].1)
  {
    if i < |done| - 1 {
      IdInjective(done[|done| - 1].0, done[i].0);
      RegisteredEntry(models, done[..|done| - 1], i);
    }
  }

  /**
   * Once the current key names a model whose last success continuation ran,
   * the portrait scene draws it exactly when the SDK reported it set up and
   * with an inner model.
   */
  lemma RegisteredModelDrawnIffReported(models: map<string, Entry>, done: seq<(Character, Loaded)>, i: nat, s: ViewerState)
    requires i < |done|
    requires forall j :: i < j < |done| ==> done[j].0 != done[i].0
    requires s.models == Register(models, done) && s.currentKey == Some(Id(done[i].0))
    ensures Portrait.Ready(s) <==> done[i].1.canvasWidth.Some? && done[i].1.setupComplete
  {
    RegisteredEntry(models, done, i);
  }

  // ---------------------------------------------------------------------
  // The manager
  // ---------------------------------------------------------------------

  /** What `getTypes` logs: the import error, once, when it first fails. */
  function ImportLog(failedBefore: bool, imp: ImportOutcome): (log: seq<string>)
    ensures |log| <= 1
    ensures log != [] <==> !failedBefore && imp.ImportFailed?
  {
    if !failedBefore && imp.ImportFailed? then [imp.error] else []
  }

  class Live2dManager {
    var live2dViewer: Viewer?
    var isLoadedLive2dCore: bool
    var isFailedLive2dLoadCore: bool
    var isClicked: bool
    const live2dSceneRenderer: Renderer.Live2dSceneRenderer
    /** `window.backend`'s logger. */
    const backend: Browser.Backend
    /** The manager's listeners on its canvas. */
    var listeners: set<Listener>
    /** Every store dispatch, in order. */
    var dispatched: seq<StoreCall>
    /** Every `setTimeout` scheduled, in order. */
    var timeouts: seq<Timeout>
    /** The issued loads whose promise has not settled. */
    var pendingLoads: seq<PendingLoad>

    /** The viewer, if there is one, as a frame. */
    function ViewerSet(): set<Viewer>
      reads this
    {
      if live2dViewer == null then {} else {live2dViewer}
    }

    ghost predicate Valid()
      reads this, live2dSceneRenderer, live2dSceneRenderer.frames
    {
      && live2dSceneRenderer.Valid()
      && (isLoadedLive2dCore ==> live2dViewer != null)
      && listeners <= CanvasListeners
    }

    /** `getTypes` will resolve the native classes. */
    ghost predicate Proceeds(imp: ImportOutcome)
      reads this
    {
      !isFailedLive2dLoadCore && imp.Imported?
    }

    /** A failed import is cached for good; a successful one changes nothing. */
    twostate predicate FailureCached(imp: ImportOutcome)
      reads this
    {
      isFailedLive2dLoadCore == (old(isFailedLive2dLoadCore) || imp.ImportFailed?)
    }

    constructor (backend: Browser.Backend)
      ensures Valid() && fresh(live2dSceneRenderer) && fresh(live2dSceneRenderer.frames)
      ensures this.backend == backend
      ensures live2dViewer == null && !isLoadedLive2dCore && !isFailedLive2dLoadCore && !isClicked
      ensures listeners == {} && dispatched == [] && timeouts == [] && pendingLoads == []
      ensures live2dSceneRenderer.requestAnimationFrameHandler == 0
    {
      live2dViewer := null;
      isLoadedLive2dCore := false;
      this.backend := backend;
      live2dSceneRenderer := new Renderer.Live2dSceneRenderer();
      isClicked := false;
      isFailedLive2dLoadCore := false;
      listeners := {};
      dispatched := [];
      timeouts := [];
      pendingLoads := [];
    }

    /**
     * `getTypes`: once the import has failed it is never retried; a failing
     * import is logged and cached. An import that resolves without one of the
     * classes yields nothing, logs nothing and is tried again next time.
     */
    method GetTypes(imp: ImportOutcome) returns (available: bool)
      modifies this`isFailedLive2dLoadCore, backend`errors
      ensures available == old(Proceeds(imp))
      ensures FailureCached(imp)
      ensures backend.errors == old(backend.errors) + ImportLog(old(isFailedLive2dLoadCore), imp)
    {
      if isFailedLive2dLoadCore {
        return false;
      }
      match imp {
        case Imported =>
          available := true;
        case ImportedIncomplete =>
          available := false;
        case ImportFailed(e) =>
          backend.LogError(e);
          isFailedLive2dLoadCore := true;
          available := false;
      }
    }

    /**
     * `initViewer`: build an 800 by 800 viewer and initialise it with 32 MiB.
     * Only full success marks the core loaded and notifies the store; an
     * exception is logged, and one thrown by the constructor changes nothing else.
     */
    method InitViewer(imp: ImportOutcome, construction: ViewerConstruction)
      requires Valid()
      modifies this`isFailedLive2dLoadCore, this`live2dViewer, this`isLoadedLive2dCore, this`dispatched, backend`errors
      ensures Valid() && FailureCached(imp)
      ensures !old(Proceeds(imp)) || construction.ConstructorThrows? ==>
        && live2dViewer == old(live2dViewer)
        && isLoadedLive2dCore == old(isLoadedLive2dCore)
        && dispatched == old(dispatched)
      ensures !old(Proceeds(imp)) ==>
        backend.errors == old(backend.errors) + ImportLog(old(isFailedLive2dLoadCore), imp)
      ensures old(Proceeds(imp)) && !construction.Constructed? ==>
        backend.errors == old(backend.errors) + [construction.error]
      ensures old(Proceeds(imp)) && construction.Constructed? ==>
        && live2dViewer != null && fresh(live2dViewer)
        && live2dViewer.State() == FreshViewer(construction.gl, construction.program)
        && live2dViewer.calls == [Initialize(AllocationMemory)]
      ensures old(Proceeds(imp)) && construction.InitializeThrows? ==>
        && live2dViewer != null && fresh(live2dViewer)
        && live2dViewer.State() == FreshViewer(construction.gl, false)
        && live2dViewer.calls == [Initialize(AllocationMemory)]
      ensures old(Proceeds(imp)) && construction.InitializeThrows? ==>
        isLoadedLive2dCore == old(isLoadedLive2dCore) && dispatched == old(dispatched)
      ensures old(Proceeds(imp)) && construction.Constructed? ==>
        && isLoadedLive2dCore
        && dispatched == old(dispatched) + [Dispatch(Live2dCoreLoaded(true))]
        && backend.errors == old(backend.errors)
    {
      var ok := GetTypes(imp);
      if !ok {
        return;
      }
      match construction {
        case ConstructorThrows(e) =>
          backend.LogError(e);
        case InitializeThrows(gl, e) =>
          var v := new Viewer(ViewerSize, ViewerSize, gl);
          live2dViewer := v;
          v.Initialize(AllocationMemory, false);
          backend.LogError(e);
        case Constructed(gl, program) =>
          var v := new Viewer(ViewerSize, ViewerSize, gl);
          live2dViewer := v;
          v.Initialize(AllocationMemory, program);
          isLoadedLive2dCore := true;
          dispatched := dispatched + [Dispatch(Live2dCoreLoaded(true))];
      }
    }

    /** `getLive2dViewer`: nothing until the core is marked loaded. */
    function GetLive2dViewer(): (v: Viewer?)
      requires Valid()
      reads this, live2dSceneRenderer, live2dSceneRenderer.frames
      ensures !isLoadedLive2dCore ==> v == null
      ensures isLoadedLive2dCore ==> v != null && v == live2dViewer
    {
      if !isLoadedLive2dCore then null else live2dViewer
    }

    /** `TouchesBegin`: mark clicked, forward, then the random eye effect. */
    method TouchesBegin(imp: ImportOutcome, pageX: real, pageY: real, n: int)
      requires Valid() && 0 <= n < 3
      modifies this`isFailedLive2dLoadCore, this`isClicked, this`timeouts, backend`errors, ViewerSet()`calls
      ensures Valid() && FailureCached(imp)
      ensures backend.errors == old(backend.errors) + ImportLog(old(isFailedLive2dLoadCore), imp)
      ensures old(Proceeds(imp)) && live2dViewer != null ==>
        var eyes := EyeReaction(old(live2dViewer.State()).CurrentModelKey(), n);
        && isClicked
        && live2dViewer.calls == old(live2dViewer.calls) + [NativeCall.TouchesBegin(pageX, pageY)] + eyes.0
        && timeouts == old(timeouts) + eyes.1
      ensures !(old(Proceeds(imp)) && live2dViewer != null) ==>
        && isClicked == old(isClicked) && timeouts == old(timeouts)
        && (live2dViewer != null ==> live2dViewer.calls == old(live2dViewer.calls))
    {
      var ok := GetTypes(imp);
      if !ok || live2dViewer == null {
        return;
      }
      isClicked := true;
      var scheduled := ForwardTouch(live2dViewer, pageX, pageY, n);
      timeouts := timeouts + scheduled;
    }

    /** Forward the touch to the viewer, then react with the eyes. */
    static method ForwardTouch(v: Viewer, pageX: real, pageY: real, n: int) returns (scheduled: seq<Timeout>)
      requires 0 <= n < 3
      modifies v`calls
      ensures v.calls == old(v.calls) + [NativeCall.TouchesBegin(pageX, pageY)] + EyeReaction(v.State().CurrentModelKey(), n).0
      ensures scheduled == EyeReaction(v.State().CurrentModelKey(), n).1
    {
      v.Record([NativeCall.TouchesBegin(pageX, pageY)]);
      scheduled := ReactWithEyes(v, n);
    }

    /** The random eye effect of a touch on the current model, if there is one. */
    static method ReactWithEyes(v: Viewer, n: int) returns (scheduled: seq<Timeout>)
      requires 0 <= n < 3
      modifies v`calls
      ensures v.calls == old(v.calls) + EyeReaction(v.State().CurrentModelKey(), n).0
      ensures scheduled == EyeReaction(v.State().CurrentModelKey(), n).1
    {
      scheduled := [];
      var key := v.State().CurrentModelKey();
      if key.Some? {
        var k := key.value;
        v.Record([StopKeepEyeValue(k)]);
        if n == 1 {
          v.Record([CloseEyelids(k)]);
          scheduled := [Timeout(500, OpenEyelids(k))];
        } else if n == 2 {
          v.Record([KeepEyeOpenParams(k, 0.8, 0.8)]);
          scheduled := [Timeout(1000, StopKeepEyeValue(k))];
        }
      }
    }

    /** `TouchEnd`: clear the click and forward the end of the touch. */
    method TouchEnd(imp: ImportOutcome)
      requires Valid()
      modifies this`isFailedLive2dLoadCore, this`isClicked, backend`errors, ViewerSet()`calls
      ensures Valid() && FailureCached(imp)
      ensures backend.errors == old(backend.errors) + ImportLog(old(isFailedLive2dLoadCore), imp)
      ensures old(Proceeds(imp)) && live2dViewer != null ==>
        !isClicked && live2dViewer.calls == old(live2dViewer.calls) + [TouchesEnded]
      ensures !(old(Proceeds(imp)) && live2dViewer != null) ==>
        && isClicked == old(isClicked)
        && (live2dViewer != null ==> live2dViewer.calls == old(live2dViewer.calls))
    {
      var ok := GetTypes(imp);
      if !ok || live2dViewer == null {
        return;
      }
      isClicked := false;
      live2dViewer.Record([TouchesEnded]);
    }

    /** `TouchMoved`: forwarded only while clicked. */
    method TouchMoved(imp: ImportOutcome, pageX: real, pageY: real)
      requires Valid()
      modifies this`isFailedLive2dLoadCore, backend`errors, ViewerSet()`calls
      ensures Valid() && FailureCached(imp)
      ensures backend.errors == old(backend.errors) + ImportLog(old(isFailedLive2dLoadCore), imp)
      ensures live2dViewer != null ==>
        live2dViewer.calls == old(live2dViewer.calls)
          + (if old(Proceeds(imp)) && isClicked then [TouchesMoved(pageX, pageY)] else [])
    {
      var ok := GetTypes(imp);
      if !ok || live2dViewer == null {
        return;
      }
      if isClicked {
        live2dViewer.Record([TouchesMoved(pageX, pageY)]);
      }
    }

    /** `addMouseEventToLive2dCanvas`: the four pairs (a listener already there is not added twice). */
    method AddMouseEventToLive2dCanvas()
      requires Valid()
      modifies this`listeners
      ensures Valid()
      ensures listeners == old(listeners) + CanvasListeners
    {
      listeners := listeners + CanvasListeners;
    }

    /** `removeMouseEvenet`: exactly the four pairs; safe without a prior attach. */
    method RemoveMouseEvenet()
      requires Valid()
      modifies this`listeners
      ensures Valid()
      ensures listeners == old(listeners) - CanvasListeners
      ensures listeners == {}
    {
      listeners := listeners - CanvasListeners;
    }

    /**
     * The canvas delivers a pointer event: the registered handler, if any,
     * runs; with no listener for it nothing happens.
     */
    method DeliverPointerEvent(e: PointerEventType, imp: ImportOutcome, pageX: real, pageY: real, n: int)
      requires Valid() && 0 <= n < 3
      modifies this`isFailedLive2dLoadCore, this`isClicked, this`timeouts, backend`errors, ViewerSet()`calls
      ensures Valid()
      ensures Listener(e, HandlerOf(e)) !in listeners ==>
        && isFailedLive2dLoadCore == old(isFailedLive2dLoadCore) && isClicked == old(isClicked)
        && timeouts == old(timeouts) && backend.errors == old(backend.errors)
        && (live2dViewer != null ==> live2dViewer.calls == old(live2dViewer.calls))
      ensures Listener(e, HandlerOf(e)) in listeners ==>
        && FailureCached(imp)
        && backend.errors == old(backend.errors) + ImportLog(old(isFailedLive2dLoadCore), imp)
      ensures Listener(e, HandlerOf(e)) in listeners && old(Proceeds(imp)) && live2dViewer != null ==>
        var eyes := EyeReaction(old(live2dViewer.State()).CurrentModelKey(), n);
        && (e == PointerDown ==>
              && isClicked
              && live2dViewer.calls == old(live2dViewer.calls) + [NativeCall.TouchesBegin(pageX, pageY)] + eyes.0
              && timeouts == old(timeouts) + eyes.1)
        && (e == PointerUp || e == PointerLeave ==>
              && !isClicked
              && live2dViewer.calls == old(live2dViewer.calls) + [TouchesEnded]
              && timeouts == old(timeouts))
        && (e == PointerMove ==>
              && isClicked == old(isClicked)
              && live2dViewer.calls == old(live2dViewer.calls)
                   + (if old(isClicked) then [TouchesMoved(pageX, pageY)] else [])
              && timeouts == old(timeouts))
      ensures Listener(e, HandlerOf(e)) in listeners && !(old(Proceeds(imp)) && live2dViewer != null) ==>
        && isClicked == old(isClicked) && timeouts == old(timeouts)
        && (live2dViewer != null ==> live2dViewer.calls == old(live2dViewer.calls))
    {
      if Listener(e, HandlerOf(e)) !in listeners {
        return;
      }
      match HandlerOf(e) {
        case OnTouches => TouchesBegin(imp, pageX, pageY, n);
        case OnTouchEnd => TouchEnd(imp);
        case OnTouchMoved => TouchMoved(imp, pageX, pageY);
      }
    }

    /** `setCurrentModelToViewer`: forwarded without checking the key. */
    method SetCurrentModelToViewer(imp: ImportOutcome, key: string)
      requires Valid()
      modifies this`isFailedLive2dLoadCore, backend`errors, ViewerSet()`currentKey, ViewerSet()`calls
      ensures Valid() && FailureCached(imp)
      ensures backend.errors == old(backend.errors) + ImportLog(old(isFailedLive2dLoadCore), imp)
      ensures old(Proceeds(imp)) && live2dViewer != null ==>
        && live2dViewer.currentKey == Some(key)
        && live2dViewer.calls == old(live2dViewer.calls) + [SetCurrentModel(key)]
      ensures !old(Proceeds(imp)) && live2dViewer != null ==>
        live2dViewer.currentKey == old(live2dViewer.currentKey) && live2dViewer.calls == old(live2dViewer.calls)
    {
      var ok := GetTypes(imp);
      if !ok || live2dViewer == null {
        return;
      }
      live2dViewer.SetCurrentModel(key);
    }

    /** `render`: start the render loop on the viewer, with `performance.now() == now`. */
    method Render(imp: ImportOutcome, now: real)
      requires Valid()
      modifies this`isFailedLive2dLoadCore, backend`errors, live2dSceneRenderer, live2dSceneRenderer.frames
      ensures Valid() && FailureCached(imp)
      ensures backend.errors == old(backend.errors) + ImportLog(old(isFailedLive2dLoadCore), imp)
      ensures old(Proceeds(imp)) && live2dViewer != null ==>
        var r := live2dSceneRenderer;
        && r.requestAnimationFrameHandler != 0
        && r.frames.pending == {r.requestAnimationFrameHandler}
        && r.target == live2dViewer && r.lastTime == now
      ensures !(old(Proceeds(imp)) && live2dViewer != null) ==>
        unchanged(live2dSceneRenderer, live2dSceneRenderer.frames)
    {
      var ok := GetTypes(imp);
      if !ok || live2dViewer == null {
        return;
      }
      live2dSceneRenderer.Render(live2dViewer, now);
    }

    /**
     * `loadAllModels`, up to its return: the seven loads are issued, metan
     * becomes the current model and the store hears "initialized" without
     * waiting for any load, so the current key may name no registered model.
     */
    method LoadAllModels(imp: ImportOutcome, assetsPath: string)
      requires Valid()
      modifies this`isFailedLive2dLoadCore, this`pendingLoads, this`dispatched, backend`errors, backend`infos
      modifies ViewerSet()`currentKey, ViewerSet()`calls
      ensures Valid() && FailureCached(imp)
      ensures backend.errors == old(backend.errors) + ImportLog(old(isFailedLive2dLoadCore), imp)
      ensures old(Proceeds(imp)) && live2dViewer != null ==>
        && pendingLoads == old(pendingLoads) + IssuedLoads(live2dViewer, assetsPath)
        && live2dViewer.currentKey == Some(Id(Metan))
        && live2dViewer.calls == old(live2dViewer.calls) + [SetCurrentModel(Id(Metan))]
        && dispatched == old(dispatched) + [Dispatch(Live2dInitialized(true))]
        && backend.infos == old(backend.infos) + ["live2dAssetsPath: " + assetsPath]
      ensures !(old(Proceeds(imp)) && live2dViewer != null) ==>
        && pendingLoads == old(pendingLoads) && dispatched == old(dispatched)
        && backend.infos == old(backend.infos)
        && (live2dViewer != null ==> unchanged(live2dViewer))
    {
      var ok := GetTypes(imp);
      if !ok || live2dViewer == null {
        return;
      }
      StartLoading(live2dViewer, assetsPath);
    }

    /**
     * The body of `loadAllModels` once the viewer is known: log the path,
     * issue the seven `loadAssets()` calls without awaiting them, select
     * metan, and tell the store the models are initialized.
     */
    method StartLoading(v: Viewer, assetsPath: string)
      modifies this`pendingLoads, this`dispatched, backend`infos, v`currentKey, v`calls
      ensures pendingLoads == old(pendingLoads) + IssuedLoads(v, assetsPath)
      ensures v.currentKey == Some(Id(Metan))
      ensures v.calls == old(v.calls) + [SetCurrentModel(Id(Metan))]
      ensures dispatched == old(dispatched) + [Dispatch(Live2dInitialized(true))]
      ensures backend.infos == old(backend.infos) + ["live2dAssetsPath: " + assetsPath]
    {
      backend.LogInfo("live2dAssetsPath: " + assetsPath);
      pendingLoads := pendingLoads + IssuedLoads(v, assetsPath);
      v.SetCurrentModel(Id(Metan));
      dispatched := dispatched + [Dispatch(Live2dInitialized(true))];
    }

    /**
     * The `.then` of a load: set the weight and expression, register the model
     * in the viewer it captured, publish its info. `report` is what the
     * loaded model reports to the scene.
     */
    method OnLoadSucceeded(i: nat, report: Loaded)
      requires Valid() && i < |pendingLoads|
      modifies this`pendingLoads, this`dispatched, pendingLoads[i].target`models, pendingLoads[i].target`calls
      ensures Valid()
      ensures var p := old(pendingLoads[i]);
        && pendingLoads == old(pendingLoads[..i] + pendingLoads[i + 1..])
        && p.target.models == old(p.target.models)[Id(p.character) := LoadedEntry(p.character, report)]
        && p.target.calls == old(p.target.calls) + SuccessCalls(p.character)
        && dispatched == old(dispatched) + [Published(p.character, p.DirPath())]
      ensures var p := old(pendingLoads[i]);
        forall m0, done :: old(p.target.models) == Register(m0, done) ==>
          p.target.models == Register(m0, done + [(p.character, report)])
    {
      var p := Settle(i);
      assert Valid();
      RegisterLoaded(p.character, p.target, report);
      assert Valid();
      Publish(p.character, p.DirPath());
    }

    /** The `i`-th pending load settles and leaves the pending ones. */
    method Settle(i: nat) returns (p: PendingLoad)
      requires i < |pendingLoads|
      modifies this`pendingLoads
      ensures p == old(pendingLoads[i])
      ensures pendingLoads == old(pendingLoads[..i] + pendingLoads[i + 1..])
    {
      p := pendingLoads[i];
      pendingLoads := pendingLoads[..i] + pendingLoads[i + 1..];
    }

    /** Configure the loaded model, then add it to the viewer under its id. */
    static method RegisterLoaded(c: Character, v: Viewer, report: Loaded)
      modifies v`models, v`calls
      ensures v.models == old(v.models)[Id(c) := LoadedEntry(c, report)]
      ensures forall m0, done :: old(v.models) == Register(m0, done) ==>
        v.models == Register(m0, done + [(c, report)])
      ensures v.calls == old(v.calls) + SuccessCalls(c)
    {
      v.Record(ConfigCalls(c));
      v.AddModel(Id(c), LoadedEntry(c, report));
      forall m0, done | old(v.models) == Register(m0, done)
        ensures v.models == Register(m0, done + [(c, report)])
      {
        RegisterStep(m0, done, c, report);
      }
    }

    /** Send a loaded model's info to the store. */
    method Publish(c: Character, dirPath: string)
      modifies this`dispatched
      ensures dispatched == old(dispatched) + [Published(c, dirPath)]
    {
      dispatched := dispatched + [Published(c, dirPath)];
    }

    /** The `.catch` of a load: log; tsumugi also releases its model; nothing is registered. */
    method OnLoadFailed(i: nat, error: string)
      requires Valid() && i < |pendingLoads|
      modifies this`pendingLoads, backend`errors, pendingLoads[i].target`calls
      ensures Valid()
      ensures var p := old(pendingLoads[i]);
        && pendingLoads == old(pendingLoads[..i] + pendingLoads[i + 1..])
        && backend.errors == old(backend.errors) + [FailureMessage(p.character, error)]
        && p.target.calls == old(p.target.calls) + FailureCalls(p.character)
        && p.target.models == old(p.target.models)
    {
      var p := Settle(i);
      assert Valid();
      backend.LogError(FailureMessage(p.character, error));
      assert Valid();
      ReleaseFailedModel(p.character, p.target);
    }

    /** Tsumugi's failure continuation releases the model object it built. */
    static method ReleaseFailedModel(c: Character, v: Viewer)
      modifies v`calls
      ensures v.calls == old(v.calls) + FailureCalls(c)
      ensures v.models == old(v.models)
    {
      if c == Tsumugi {
        v.Record([ReleaseModelObject(Id(c))]);
      }
    }

    /**
     * `releaseLive2d`: the render loop is cancelled before the viewer is
     * released, so no tick can run against it; the store hears "not initialized".
     */
    method ReleaseLive2d(imp: ImportOutcome)
      requires Valid()
      modifies this`isFailedLive2dLoadCore, this`dispatched, backend`errors
      modifies live2dSceneRenderer`requestAnimationFrameHandler, live2dSceneRenderer.frames
      modifies ViewerSet()`released, ViewerSet()`calls
      ensures Valid() && FailureCached(imp)
      ensures backend.errors == old(backend.errors) + ImportLog(old(isFailedLive2dLoadCore), imp)
      ensures old(Proceeds(imp)) && live2dViewer != null ==>
        && live2dSceneRenderer.requestAnimationFrameHandler == 0
        && live2dSceneRenderer.frames.pending == {}
        && live2dViewer.released
        && live2dViewer.calls == old(live2dViewer.calls) + [Release]
        && dispatched == old(dispatched) + [Dispatch(Live2dInitialized(false))]
      ensures !(old(Proceeds(imp)) && live2dViewer != null) ==>
        && unchanged(live2dSceneRenderer, live2dSceneRenderer.frames)
        && dispatched == old(dispatched)
        && (live2dViewer != null ==> unchanged(live2dViewer))
    {
      var ok := GetTypes(imp);
      if !ok || live2dViewer == null {
        return;
      }
      live2dSceneRenderer.CancelRender();
      assert live2dSceneRenderer.frames.pending == {};
      live2dViewer.Release();
      dispatched := dispatched + [Dispatch(Live2dInitialized(false))];
    }

    /** `releaseAllLive2dModels`: cancel the render loop, then empty the model table. */
    method ReleaseAllLive2dModels(imp: ImportOutcome)
      requires Valid()
      modifies this`isFailedLive2dLoadCore, backend`errors
      modifies live2dSceneRenderer`requestAnimationFrameHandler, live2dSceneRenderer.frames
      modifies ViewerSet()`models, ViewerSet()`calls
      ensures Valid() && FailureCached(imp)
      ensures backend.errors == old(backend.errors) + ImportLog(old(isFailedLive2dLoadCore), imp)
      ensures old(Proceeds(imp)) && live2dViewer != null ==>
        && live2dSceneRenderer.requestAnimationFrameHandler == 0
        && live2dSceneRenderer.frames.pending == {}
        && live2dViewer.models == map[]
        && live2dViewer.calls == old(live2dViewer.calls) + [ReleaseAllModel]
      ensures !(old(Proceeds(imp)) && live2dViewer != null) ==>
        && unchanged(live2dSceneRenderer, live2dSceneRenderer.frames)
        && (live2dViewer != null ==> unchanged(live2dViewer))
    {
      var ok := GetTypes(imp);
      if !ok || live2dViewer == null {
        return;
      }
      live2dSceneRenderer.CancelRender();
      live2dViewer.ReleaseAllModel();
    }

    /** `stopLipSync`: dispatched on the kind of the current model. */
    method StopLipSync(imp: ImportOutcome)
      requires Valid()
      modifies this`isFailedLive2dLoadCore, backend`errors, ViewerSet()`calls
      ensures Valid() && FailureCached(imp)
      ensures backend.errors == old(backend.errors) + ImportLog(old(isFailedLive2dLoadCore), imp)
      ensures live2dViewer != null ==>
        live2dViewer.calls == old(live2dViewer.calls)
          + (if old(Proceeds(imp)) then StopLipSyncCalls(old(live2dViewer.State())) else [])
    {
      var ok := GetTypes(imp);
      if !ok || live2dViewer == null {
        return;
      }
      var m := live2dViewer.State().Current();
      if m.None? {
        return;
      }
      var key := live2dViewer.currentKey.value;
      if m.value.kind == MotionSync {
        live2dViewer.Record([StopMotionSync(key)]);
      } else {
        live2dViewer.Record([NativeCall.StopLipSync(key)]);
      }
    }
  }

  /** Attaching and then detaching leaves none of the manager's listeners. */
  lemma AttachThenDetach(listeners: set<Listener>)
    ensures (listeners + CanvasListeners) - CanvasListeners == listeners - CanvasListeners
    ensures forall e :: Listener(e, HandlerOf(e)) !in (listeners + CanvasListeners) - CanvasListeners
    ensures forall e :: Listener(e, HandlerOf(e)) in listeners + CanvasListeners
  {
  }
}
