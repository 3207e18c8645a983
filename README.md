# Live2D layer of the VOICEVOX editor, modelled in Dafny

This project models how the VOICEVOX editor drives Live2D characters. It covers six parts:

- The `Live2dManager` class (`src/live2d/live2d.ts`):
  - it loads the native `live2dmanager` module lazily, caching a failed import;
  - it builds and initialises the 800×800 viewer;
  - it routes canvas pointer events to touch handlers, with a random eye reaction on each touch;
  - it issues the loads of seven fixed character models and registers each one only when its own load succeeds;
  - it stops lip sync according to the model kind;
  - it releases the viewer, or all of its models, after cancelling the render loop.
- The two render-loop drivers:
  - `src/live2d/renderer.ts` cancels and restarts on re-entry and has a 60 fps time gate;
  - `src/live2d/scenes/renderer.ts` refuses re-entry while a frame is scheduled and runs its first tick at once.
- The portrait scene `sceneOfPortrait` (`src/live2d/scenes/portrait.ts`).
- The `Note` JSON mapping (`src/openapi/models/Note.ts`).
- The Live2D slice of the Vuex store (`src/store/live2d.ts`).

Things the code does not own appear as state it can change:

- The native SDK is `Native.Viewer`. It holds a model table, the current key, the GL flags, the canvas size and a trace `calls`. The trace records every state-changing call the application makes on the viewer, its models, the GL context and the projection matrix, except the construction of the seven model objects and their `loadAssets()` calls, which are the manager's `pendingLoads`. Read-only queries (`getCurrentModelKey`, `getModelFromKey`, `getModel`, `getCanvasWidth`, `getModelMatrix`) leave no entry.
- Whether the SDK obtained a WebGL context for the canvas, and whether `initialize` left a shader program, are parameters of the viewer's construction.
- The browser's animation-frame scheduler is `Browser.AnimationFrames`. It hands out fresh non-zero ids and keeps a ghost set of the scheduled ones.
- The backend logger `window.backend` is `Browser.Backend`, with `errors` and `infos` logs.
- Store dispatches are the manager's `dispatched` log, and `setTimeout` calls are its `timeouts` log.

Other inputs the code does not control are method parameters:

- the outcome of the dynamic import;
- the outcome of the viewer's constructor and `initialize`;
- the assets path;
- `performance.now()` and the frame times;
- the random eye-reaction number `n ∈ {0,1,2}`;
- what each loaded model reports to the scene: its canvas width and whether its setup is complete.

Each `await` continuation of the source is a method of its own:

- `Live2dManager.OnLoadSucceeded` runs the `.then` of a model load.
- `Live2dManager.OnLoadFailed` runs its `.catch`.
- Either one may run for any pending load, in any order. This is how the model covers arbitrary interleavings of the seven loads.

Modules, one per source file, plus three shared ones:

| module | file | models |
|---|---|---|
| `Wrappers` | `wrappers.dfy` | `Option` |
| `Browser` | `browser.dfy` | the animation-frame scheduler and the backend logger |
| `Native` | `native.dfy` | the SDK surface and the per-tick GL sequence |
| `Renderer` | `renderer.dfy` | `src/live2d/renderer.ts` |
| `ScenesRenderer` | `scenes_renderer.dfy` | `src/live2d/scenes/renderer.ts` |
| `Portrait` | `portrait.dfy` | `src/live2d/scenes/portrait.ts` |
| `Live2d` | `live2d.dfy` | `src/live2d/live2d.ts` |
| `Note` | `note.dfy` | `src/openapi/models/Note.ts` |
| `Live2dStore` | `store.dfy` | `src/store/live2d.ts` |

The JavaScript values `Note.ts` handles are `Note.JsValue`, which keeps `undefined` apart from `null`. `Note.Exists` stands for the runtime helper `exists(json, k)`: it holds when the value under `k` is neither `undefined` nor `null`. `src/openapi/runtime.ts` is not part of this model, so that definition is the one of the OpenAPI generator's TypeScript runtime.

## Model

| member | source | states |
|---|---|---|
| `Live2d.Live2dManager.GetTypes` | src/live2d/live2d.ts:179-210 | The native classes are available iff no earlier import failed and this import resolves with all three classes. A rejected import is logged once and cached for good, and later calls never retry it. An import that resolves with a class missing yields nothing, logs nothing and is not cached. |
| `Live2d.Live2dManager.constructor` | src/live2d/live2d.ts:35-47 | A new manager has no viewer, is neither loaded nor failed nor clicked, has no listeners, and owns a fresh idle scene renderer. |
| `Live2d.ImportLog` | src/live2d/live2d.ts:180-198 | At most one error is logged, and one is logged exactly when the import fails for the first time. |
| `Live2d.Live2dManager.InitViewer` | src/live2d/live2d.ts:212-228 | The viewer is built 800×800 and initialised with 32 MiB (1024·1024·32), with the GL context and the shader program the construction reports. Only full success marks the core loaded and dispatches `LIVE2D_CORE_LOADED(true)`. If `initialize` throws, the built viewer stays assigned but the core is not marked loaded. If the constructor throws, only the error is logged. |
| `Live2d.FreshViewer` | src/live2d/live2d.ts:219-222 | A viewer just built and initialised has no models and no current model, is not released, and is 800 by 800. |
| `Live2d.Live2dManager.GetLive2dViewer` | src/live2d/live2d.ts:230-234 | No viewer until the core is marked loaded; after that, the manager's viewer, which is non-null. |
| `Live2d.Live2dManager.TouchesBegin` | src/live2d/live2d.ts:53-83 | With the module and a viewer, it sets `isClicked` and forwards the touch. Then it applies the eye reaction for `n` to the current model, if there is one. Otherwise nothing but the import bookkeeping changes. |
| `Live2d.EyeReaction` | src/live2d/live2d.ts:62-82 | With no current model there are no calls. Otherwise `stopKeepEyeValue` comes first. Then n = 1 closes the eyelids and schedules `openEyelids` after 500 ms; n = 2 holds both eyes at 0.8 and schedules `stopKeepEyeValue` after 1000 ms; n = 0 does nothing more. |
| `Live2d.Live2dManager.ReactWithEyes` | src/live2d/live2d.ts:62-82 | The viewer trace and the scheduled timeouts are exactly those of `EyeReaction` for the current model key. |
| `Live2d.Live2dManager.ForwardTouch` | src/live2d/live2d.ts:61-82 | The viewer trace grows by the forwarded touch followed by the `EyeReaction` calls, and the scheduled timeouts are those of `EyeReaction`. |
| `Live2d.Live2dManager.TouchEnd` | src/live2d/live2d.ts:92-101 | With the module and a viewer, it clears `isClicked` and forwards the end of the touch; otherwise nothing changes. |
| `Live2d.Live2dManager.TouchMoved` | src/live2d/live2d.ts:111-121 | A move is forwarded exactly when the module is available, a viewer exists and `isClicked` is set. |
| `Live2d.Live2dManager.AddMouseEventToLive2dCanvas` | src/live2d/live2d.ts:130-145 | It attaches the four (event, handler) pairs; pointerup and pointerleave share the touch-end handler. |
| `Live2d.Live2dManager.RemoveMouseEvenet` | src/live2d/live2d.ts:146-157 | It removes exactly those four pairs and leaves no listener of the manager's own. |
| `Live2d.HandlerOf` | src/live2d/live2d.ts:130-145 | Each pointer event has exactly one handler among the attached pairs. |
| `Live2d.AttachThenDetach` | src/live2d/live2d.ts:130-157 | After attaching, every event reaches its handler; after attaching and then detaching, none does. |
| `Live2d.Live2dManager.DeliverPointerEvent` | src/live2d/live2d.ts:84-124 | An event with no listener changes nothing. With a listener, each event runs its handler: pointerdown sets the click flag, forwards the touch and applies `EyeReaction` (calls and timeouts); pointerup and pointerleave clear the flag and forward the end of the touch; pointermove forwards the move only while the flag was set. Without the module or a viewer only the import bookkeeping changes. |
| `Live2d.Live2dManager.SetCurrentModelToViewer` | src/live2d/live2d.ts:159-166 | The key is forwarded to the viewer unchecked, whenever the module and a viewer are there. |
| `Live2d.Live2dManager.Render` | src/live2d/live2d.ts:168-177 | The render loop is started on the manager's viewer, with exactly one frame scheduled; without the module or a viewer the renderer is untouched. |
| `Live2d.Live2dManager.LoadAllModels` | src/live2d/live2d.ts:260-494 | The seven loads are issued against the viewer seen at entry. Metan becomes current and `LIVE2D_INITIALIZED(true)` is dispatched, all before any load settles. The assets path is logged. Without the module or a viewer nothing changes. |
| `Live2d.Live2dManager.StartLoading` | src/live2d/live2d.ts:278-492 | The pending loads grow by exactly `IssuedLoads`. The current key becomes metan's id, then the initialized dispatch follows. |
| `Live2d.IssuedLoads` | src/live2d/live2d.ts:281-489 | Seven loads, all against the captured viewer and the same assets path. |
| `Live2d.EachModelIssuedOnce` | src/live2d/live2d.ts:281-489 | Every character's load is issued, and no character twice. |
| `Live2d.IdInjective` | src/live2d/live2d.ts:281-489 | The seven speaker ids are distinct, so no model overwrites another in the viewer's table. |
| `Live2d.Id` | src/live2d/live2d.ts:281-489 | Each model is registered under its speaker id, a 36-character UUID with dashes at positions 8, 13, 18 and 23. |
| `Live2d.StoreName` | src/live2d/live2d.ts:281-489 | Each model's info goes to the store under the character's non-empty display name. |
| `Live2d.DirName` | src/live2d/live2d.ts:281-489 | Each model directory is a path segment that starts and ends with `/`. |
| `Live2d.ModelJsonName` | src/live2d/live2d.ts:281-489 | Each model file name ends with `.model3.json`. |
| `Live2d.ModelBaseName` | src/live2d/live2d.ts:281-489 | Each model file has a non-empty name before its extension. |
| `Live2d.PendingLoad.DirPath` | src/live2d/live2d.ts:281-489 | A load reads from the assets path followed by the model's directory, which starts and ends with `/`. |
| `Live2d.Kind` | src/live2d/live2d.ts:471-477 | Only ritsu is built as `Live2dMotionSyncModel`, and the motion-sync model is exactly the one that gets no lip-sync weight. |
| `Live2d.LipSyncWeight` | src/live2d/live2d.ts:297-451 | Every weight set lies between 10 and 20; only the motion-sync model gets none. |
| `Live2d.DefaultExpression` | src/live2d/live2d.ts:420 | The one model with a default expression (usagi, `Inaba`) is a usable model with weight 20. |
| `Live2d.OldParamNames` | src/live2d/live2d.ts:347-353 | The one model built with the old parameter names (tsumugi) is a usable standard model. |
| `Live2d.MarksUsable` | src/live2d/live2d.ts:299-421 | The motion-sync model is never marked usable (hau is not either). |
| `Live2d.FailureMessage` | src/live2d/live2d.ts:305-490 | A failure message always ends with the error. A standard model's message starts with "Error when load " and is longer than that prefix and the error together; the motion-sync model logs the bare error. |
| `Live2d.FailureSubject` | src/live2d/live2d.ts:305-462 | Each standard model names itself in its failure message with a non-empty subject. |
| `Live2d.Live2dManager.OnLoadSucceeded` | src/live2d/live2d.ts:293-304 | Settling a pending load successfully removes it from the pending ones. It also registers the model under its id, with its configured entry and what the SDK reports, in the viewer the load captured. Weight and expression calls come first and the registration last. Then the model info goes to the store. If the table was the fold `Register` of earlier successes, it becomes the fold with this success appended. |
| `Live2d.Live2dManager.Settle` | src/live2d/live2d.ts:293-309 | The settled load is the chosen one, and exactly it leaves the pending sequence. |
| `Live2d.Live2dManager.RegisterLoaded` | src/live2d/live2d.ts:297-298 | The viewer's table gains the model's entry under its id, which extends any `Register` fold by this success, and the trace grows by `SuccessCalls`. |
| `Live2d.Live2dManager.Publish` | src/live2d/live2d.ts:300-303 | The store log grows by exactly `Published`. |
| `Live2d.SuccessCalls` | src/live2d/live2d.ts:297-298 | Registration is the last call and the only one. The weight call comes first exactly when the model has a weight (ritsu has none). The expression call appears exactly when the model has one (`Inaba`, usagi only). |
| `Live2d.ConfigCalls` | src/live2d/live2d.ts:297-451 | At most two calls precede registration, each a `setLipSyncWeight` or `setExpression` on the model being loaded. |
| `Live2d.LoadedEntry` | src/live2d/live2d.ts:281-489 | A model has no lip-sync weight exactly when it is motion-sync, and an expression or the old parameter names only on a standard model. It is drawable (inner model and setup complete) exactly when the SDK reported so. |
| `Live2d.Published` | src/live2d/live2d.ts:281-489 | The info sent to the store carries the speaker's name, id, directory, model file and usability. Usability is true for the first five models, false for hau and ritsu. Ritsu's info is sent through `store.actions` rather than `dispatch`. |
| `Live2d.Live2dManager.OnLoadFailed` | src/live2d/live2d.ts:305-309 | A failed load leaves the pending ones and logs the model's message, with ritsu logging the bare error. Tsumugi also releases its model object. The model table is unchanged. |
| `Live2d.Live2dManager.ReleaseFailedModel` | src/live2d/live2d.ts:365-371 | Only tsumugi's failure continuation releases its model, and the table is untouched. |
| `Live2d.FailureCalls` | src/live2d/live2d.ts:365-371 | A failure never registers a model. Only tsumugi's failure makes a native call. |
| `Live2d.Register` | src/live2d/live2d.ts:281-489 | The table after a run of success continuations keeps every earlier key, and the last success's id maps to its entry. |
| `Live2d.RegisterStep` | src/live2d/live2d.ts:297-298 | One more success continuation is one more update of the folded table, which links each `OnLoadSucceeded` step to `RegisteredExactly` and `RegisteredEntry`. |
| `Live2d.RegisteredExactly` | src/live2d/live2d.ts:281-489 | Whatever order the loads settle in, the table's keys become the old keys plus the ids of the models whose success continuation ran. |
| `Live2d.RegisteredEntry` | src/live2d/live2d.ts:281-489 | A registered model's entry is the one its last success continuation built. |
| `Live2d.RegisteredModelDrawnIffReported` | src/live2d/scenes/portrait.ts:12-39 | When the current key names a model whose last success continuation ran, the portrait scene draws it exactly when the SDK reported an inner model and a complete setup. |
| `Live2d.Live2dManager.ReleaseLive2d` | src/live2d/live2d.ts:496-511 | The render loop is cancelled, with no frame left scheduled, before the viewer is released. Then `LIVE2D_INITIALIZED(false)` is dispatched. Without the module or a viewer nothing changes. |
| `Live2d.Live2dManager.ReleaseAllLive2dModels` | src/live2d/live2d.ts:513-522 | The render loop is cancelled and then the model table emptied; nothing is dispatched. |
| `Live2d.Live2dManager.StopLipSync` | src/live2d/live2d.ts:524-543 | The trace grows by `StopLipSyncCalls` of the viewer's state, or by nothing without the module. |
| `Live2d.StopLipSyncCalls` | src/live2d/live2d.ts:531-541 | With no current model there are no calls. Otherwise there is exactly one call: `stopMotionSync` iff the model is a motion-sync model, `stopLipSync` iff it is a standard one. |
| `Native.DrawingTick` | src/live2d/renderer.ts:30-46 | One drawing tick: `updateTime` first and only once, and the scene last and only once. `useProgram` appears exactly when the viewer has a program. The length is 11 with a program and 10 without. |
| `Renderer.Live2dSceneRenderer.Render` | src/live2d/renderer.ts:9-56 | Re-entry cancels the outstanding frame. Exactly one fresh frame is then scheduled, with a handler that differs from the old one. `lastTime` starts at `performance.now()`. |
| `Renderer.Live2dSceneRenderer.constructor` | src/live2d/renderer.ts:5-7 | A new renderer has handler 0 and no frame scheduled. |
| `Renderer.Live2dSceneRenderer.Tick` | src/live2d/renderer.ts:15-49 | At most one frame interval after `lastTime`, a tick only reschedules: no GL and no scene. Past the gate, `lastTime` takes the delta. Without GL the loop then stops, with the handler left stale. Otherwise the trace grows by exactly one `DrawingTick`, the tick's time is added to the ghost log of drawing times, and one new frame is scheduled. |
| `Renderer.Live2dSceneRenderer.CancelRender` | src/live2d/renderer.ts:58-62 | Afterwards the handler is 0 and no frame is scheduled. A zero handler means nothing is cancelled. |
| `Renderer.PassesGate` | src/live2d/renderer.ts:16-17 | A tick passes the gate only when it comes more than 1000/60 ms after `lastTime`, so in particular later than it. |
| `Renderer.LastTimeAfterGate` | src/live2d/renderer.ts:23 | As written, after a drawing tick `lastTime` holds a duration of more than one frame interval, not a time stamp. |
| `Renderer.GateBypassedAsWritten` | src/live2d/renderer.ts:13-23 | As written, once the loop started at a clock past one frame interval has drawn its first tick, every later tick draws, however close together the ticks come. |
| `Renderer.EveryTickDrawsAsWritten` | src/live2d/renderer.ts:16-23 | The invariant behind the bypass: while the stored value and the last drawing time minus it both exceed one interval, every tick at or after that time draws and keeps the invariant. |
| `Renderer.DrawTimesStep` | src/live2d/renderer.ts:15-23 | A run's drawing times are the first tick's log entry followed by the rest of the run from the `lastTime` it leaves, which ties the log `Tick` keeps to `DrawTimes`. |
| `Renderer.GateBypassedExample` | src/live2d/renderer.ts:16-23 | A concrete instance: from 5000 ms, ticks at 5020 and 5021 ms both draw, 1 ms apart. |
| `Renderer.IntendedLastTimeAfterGate` | src/live2d/renderer.ts:23 | The intended update leaves the gate closed at the current time. |
| `Renderer.DrawTimes` | src/live2d/renderer.ts:15-23 | The drawing ticks of a run of ticks are among its tick times, and there are no more of them than ticks. |
| `Renderer.IntendedGateSpacesDrawingTicks` | src/live2d/renderer.ts:13-23 | With the intended update, for any tick times, the first drawing tick is more than one frame interval after the start and consecutive drawing ticks are more than one frame interval apart. |
| `ScenesRenderer.Live2dSceneRenderer.Render` | src/live2d/scenes/renderer.ts:9-45 | While a handler is outstanding it logs "still alive requestAnimationFrame handle", and nothing else changes. Otherwise the first tick runs before `render` returns. |
| `ScenesRenderer.Live2dSceneRenderer.constructor` | src/live2d/scenes/renderer.ts:5-7 | A new renderer has handler 0 and no frame scheduled. |
| `ScenesRenderer.Live2dSceneRenderer.Loop` | src/live2d/scenes/renderer.ts:13-37 | Without GL nothing is drawn and nothing is scheduled. Otherwise the trace grows by one `DrawingTick` and exactly one frame is scheduled. |
| `ScenesRenderer.Live2dSceneRenderer.Tick` | src/live2d/scenes/renderer.ts:13-37 | A scheduled loop behaves as `Loop`, after its frame has fired. |
| `ScenesRenderer.Live2dSceneRenderer.CancelRender` | src/live2d/scenes/renderer.ts:47-51 | Afterwards the handler is 0 and no frame is scheduled. |
| `Portrait.SceneOfPortrait` | src/live2d/scenes/portrait.ts:7-41 | The trace grows by `FrameCalls` of the viewer's state. "target Live2D Model is undefined" is logged exactly when there is no current model. |
| `Portrait.Ready` | src/live2d/scenes/portrait.ts:12-38 | A model is drawn only when the current key names a registered model (and that model is set up and has an inner model). |
| `Portrait.FitsWidth` | src/live2d/scenes/portrait.ts:23 | The fit-by-width branch is taken only for a canvas taller than wide, so its Y ratio width/height is defined and below 1. |
| `Portrait.AspectCorrection` | src/live2d/scenes/portrait.ts:23-28 | For a wide model in a tall canvas: width 2.0 and the Y axis scaled by width/height. Otherwise the X axis is scaled by height/width. |
| `Portrait.FrameCalls` | src/live2d/scenes/portrait.ts:10-40 | A frame always starts with a new projection matrix. |
| `Portrait.DrawsExactlyWhenReady` | src/live2d/scenes/portrait.ts:12-40 | Update and draw happen iff the current model exists, is set up and has an inner model. Otherwise the frame is only the new matrix. |
| `Portrait.DrawOrder` | src/live2d/scenes/portrait.ts:23-34 | A drawn frame ends with scale, multiply by the view matrix, update, and draw at (0, 0) over the whole canvas. The model is the current one. |
| `Portrait.AspectBranch` | src/live2d/scenes/portrait.ts:23-28 | The wide-in-tall branch sets width 2.0 with a Y ratio below 1. The other branch scales X and never touches the model matrix. |
| `Note.NoteFromJSONTyped` | src/openapi/models/Note.ts:63-74 | `undefined` and `null` pass through. Otherwise the result is an object with exactly the four camel-case keys. `frame_length` and `lyric` are copied; `id` and `key` are copied when they exist and are `undefined` otherwise. |
| `Note.NoteFromJSON` | src/openapi/models/Note.ts:59-61 | The same pass-through, and every object built passes `instanceOfNote`. |
| `Note.NoteToJSON` | src/openapi/models/Note.ts:76-90 | `undefined` and `null` pass through. Otherwise the result has exactly the four wire keys, with `frameLength` renamed `frame_length`. |
| `Note.InstanceOfNote` | src/openapi/models/Note.ts:51-57 | Only the two required keys are checked: any object carrying all four `Note` keys passes, whatever their values. |
| `Note.RoundTrip` | src/openapi/models/Note.ts:63-90 | `fromJSON(toJSON(n))` returns the four properties of n (missing ones `undefined`) whenever `id` and `key` are not `null`, and n itself when n has exactly those keys. |
| `Note.NullIdBecomesUndefined` | src/openapi/models/Note.ts:66-69 | A `null` id or key comes back `undefined`, because `exists` rejects it; so the round trip gives back the note's properties exactly when neither is `null`. |
| `Note.WireRoundTrip` | src/openapi/models/Note.ts:63-90 | `toJSON(fromJSON(w))` keeps the four wire fields of w whenever `id` and `key` are not `null`. |
| `Live2dStore.Mutate` | src/store/live2d.ts:11-25 | Each mutation sets its own field and leaves the other one alone. |
| `Live2dStore.ReplaySeesLatest` | src/store/live2d.ts:10-32 | After any sequence of commits, each field holds the payload of the latest mutation of that field, or its initial value. |
| `Live2dStore.MutateIdempotent` | src/store/live2d.ts:11-25 | Committing the same mutation twice equals committing it once. |
| `Live2dStore.MutationsCommute` | src/store/live2d.ts:11-25 | The two mutations commute. |
| `Live2dStore.Live2dStoreSlice.constructor` | src/store/live2d.ts:4-7 | The initial state is `""` and `false`. |
| `Live2dStore.Live2dStoreSlice.Commit` | src/store/live2d.ts:10-27 | A commit appends the mutation to the log and the state becomes `Mutate` of the old state, keeping the invariant that the state is the replay of the log. |
| `Live2dStore.Live2dStoreSlice.LatestUseCharacterKeyAction` | src/store/live2d.ts:14-16 | The action commits its mutation: only the key changes. |
| `Live2dStore.Live2dStoreSlice.CurrentShowInTalkAction` | src/store/live2d.ts:26-28 | The action commits its mutation: only the flag changes. |
| `Live2dStore.Live2dStoreSlice.LatestUseCharacterKeyGetter` | src/store/live2d.ts:17-19 | The getter returns the latest committed key, or `""`. |
| `Live2dStore.Live2dStoreSlice.CurrentShowInTalkGetter` | src/store/live2d.ts:29-31 | The getter returns the latest committed flag, or `false`. |

## Left out

- `readFileFunction` (src/live2d/live2d.ts:6-24) is left out: it is file and network I/O handed to the SDK.
- `window.backend.getLive2dAssetsPath()` is left out as I/O. Its result is the `assetsPath` parameter of `LoadAllModels`.
- Asynchrony is not modelled as such:
  - Each `await getTypes()` is modelled as completing before the method's body runs.
  - The interleaving of two manager methods suspended at the same time is not modelled.
  - The load continuations do interleave freely, through `OnLoadSucceeded` and `OnLoadFailed`.
- Rejected store dispatches are left out. If the store's `dispatch` rejects inside a load's `.then`, the source falls into that load's `.catch` and logs a failure after the model was registered. The model treats dispatch as never failing. For the same reason it does not model a throw from `store.dispatch` inside `initViewer`'s `try`.
- `Live2d.Live2dManager.OnLoadSucceeded` omits the guard `if (live2dViewer == undefined) return` in each `.then`. The captured viewer was checked non-null before the loads were issued and is a `const`, so the guard never fires.
- The commented-out `loadModel` (src/live2d/live2d.ts:236-258) is not code and is not modelled.
- The scene callback of both renderers is the single trace entry `RunScene`. What the portrait scene does in a frame is modelled separately, by `Portrait.SceneOfPortrait`.
- The canvas, the GL context and the SDK internals are left out. So are the viewer's own effect of `onTouchesBegin`/`onTouchesMoved`, model rendering and motion sync. Each of them is reduced to the entry it leaves in the call trace. `DrawModel` keeps the model, offset and viewport of `model.draw` but not its `projection` and `live2dViewer.frameBuffer` arguments, which are SDK objects.
- `Native.Viewer.AddModel`: what a loaded model reports (`isCompleteSetup`, the inner model's canvas width) is taken once, when the model is registered. No later change by the SDK is modelled, so a model whose setup completes after its `.then` has run is never drawn in the model, although `sceneOfPortrait` reads `isCompleteSetup` on every frame.
- `Live2d.Live2dManager.InitViewer`: when `initialize` throws, the viewer is taken to have no shader program; what the SDK leaves behind on a throw is not visible.
- `Renderer.DrawTimes` follows a run of ticks with a GL context throughout; a tick without one stops the loop, as `Renderer.Live2dSceneRenderer.Tick` states.
- Timers are recorded, not fired: a `setTimeout` callback running later is not modelled.
- `Live2d.Live2dManager.TouchesBegin` takes the random number `n` (`Math.floor(Math.random() * 3)`) as a parameter with `0 <= n < 3`.
- `Portrait.AspectCorrection` keeps the ratios `width/height` and `height/width` as the pair `Ratio(num, den)`. So it does not model JavaScript's `Infinity`/`NaN` result for a zero-sized canvas.
- Floating point in general is modelled with `real`: times, scales and ratios have no rounding.
- `src/openapi/apis/DefaultApi.ts` and `src/backend/electron/electronConfig.ts` are not part of this model. They are the HTTP client and the settings file around the core.
- The Vuex machinery is left out: `createPartialStore`, reactivity and the dispatch of `commit` by name. `Live2dStore.Live2dStoreSlice` is a plain class with the two state fields and a ghost log of the committed mutations.

## Findings

| source | as written | input that shows it | evidently intended | confidence | as-written member | corrected member |
|---|---|---|---|---|---|---|
| src/live2d/renderer.ts:23 | `lastTime = deltaTime` stores the elapsed interval, not a time stamp. Once the loop has drawn its first tick, every later tick passes the gate, so the loop is not capped at 60 fps. | `performance.now()` = 5000 at `render`, ticks at 5020 and 5021: both draw, 1 ms apart | `lastTime = currentTime`, so drawing ticks are more than 1000/60 ms apart | not executed | `Renderer.GateBypassedAsWritten` (with `Renderer.LastTimeAfterGate`, `Renderer.GateBypassedExample`) | `Renderer.IntendedGateSpacesDrawingTicks` (with `Renderer.IntendedLastTimeAfterGate`) |

`Renderer.Live2dSceneRenderer.Tick` keeps the assignment as the source writes it, so the renderer class behaves as shipped. The corrected update and its spacing property are proved beside it.

A related behaviour of `src/live2d/scenes/renderer.ts` is worth noting, although it is not listed as a finding. A tick that finds no GL context leaves `requestAnimationFrameHandler` holding the id of a frame that has already fired. Later `render` calls are then refused with "still alive requestAnimationFrame handle" until `cancelRender` runs. `ScenesRenderer.Live2dSceneRenderer.Tick` states this case.
