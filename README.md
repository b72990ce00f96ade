# rive-sharp scene pipeline, in Dafny

This project models the core of rive-sharp, the C# binding of the Rive runtime:

- **The XAML players.** These are the older `Panel` and its successor `RivePlayer`. The UI thread keeps its own copies of the source, artboard, state-machine and animation names. It talks to the render thread only through a FIFO queue of actions. A source change starts a cancellable asynchronous load. State-machine inputs set while a load runs wait in a deferred list, and the load's completion replays them after the file update. On every paint, the render thread drains the queue and then advances and draws a loaded scene. A visibility handler keeps at most one invalidation loop alive.
- **The managed `Scene`.** It is a native scene plus the `_isLoaded` flag.
- **The native `NativeScene`.** It owns a file, an artboard and a scene instance, and it has the `Scene_Native*` accessors.
- **`RenderPath`.** This covers its construction from point and verb arrays, and its fill-rule conversion.
- **`RenderPaint`.** This covers its four enum conversions, its setters and the colour copy of the gradient methods.
- **The XAML inputs.** These are `StateMachineInput` (bool, number and trigger) and `StateMachineInputCollection`, which attaches inputs to their player.

Every object the source updates in place is a Dafny `class`. Each class has a pure state function (`State()`, `Value()`, `Ui()`, `Render()`). Each method is proved to reach exactly the state that a pure step function gives for the old state. The properties are proved about those step functions:

- the invariants every step keeps;
- what a completion may deliver;
- how a drain stops;
- what a rebuild produces;
- which conversions accept which codes.

The module `PlayerTraces` runs every UI-thread and render-thread event as one step of a machine. It proves an invariant of the load table and the invalidation loops over every trace.

The Rive runtime itself (rive-cpp's `File`, `Artboard`, `Scene`) is abstract. It is modelled as:

- a file that is a list of artboards;
- artboards that have named state machines and animations;
- scene instances that record the calls made on them.

`File::import` and the alignment and inversion of the view matrix are function parameters (`Env`).

## Model

| member | source | states |
|---|---|---|
| Runtime.Instantiate | native/RiveSharpInterop.cpp:516-522 | a new instance keeps its definition and the names of its inputs, and has received no calls |
| Runtime.ArtboardForIn | native/RiveSharpInterop.cpp:524-531 | the artboard found by name or by default belongs to the file |
| Runtime.StateMachineForIn | native/RiveSharpInterop.cpp:516-522 | the state machine found by name or by default belongs to the artboard |
| Runtime.AnimationForIn | native/RiveSharpInterop.cpp:533-539 | the animation found by name or by default belongs to the artboard |
| NativeScenes.NativeScene.constructor | native/RiveSharpInterop.cpp:507 | a new native scene holds no file, artboard or scene |
| NativeScenes.NativeScene.LoadFile | native/RiveSharpInterop.cpp:509-514 | replaces file, artboard and scene by the imported file alone; true exactly when the import succeeded |
| NativeScenes.NativeScene.LoadStateMachine | native/RiveSharpInterop.cpp:516-522 | with an artboard, replaces the scene by an instance of the named (or first) state machine; without one, changes nothing; true exactly when a scene exists afterwards |
| NativeScenes.NativeScene.LoadArtboard | native/RiveSharpInterop.cpp:524-531 | drops the scene and, with a file, takes its named (or default) artboard; true exactly when an artboard exists afterwards |
| NativeScenes.NativeScene.LoadAnimation | native/RiveSharpInterop.cpp:533-539 | with an artboard, replaces the scene by an instance of the named (or first) animation; without one, changes nothing; true exactly when a scene exists afterwards |
| NativeScenes.NativeScene.SetBool | native/RiveSharpInterop.cpp:541-547 | reports whether the scene has a bool input of that name, and sets it only then |
| NativeScenes.NativeScene.SetNumber | native/RiveSharpInterop.cpp:549-555 | reports whether the scene has a number input of that name, and sets it only then |
| NativeScenes.NativeScene.FireTrigger | native/RiveSharpInterop.cpp:557-563 | reports whether the scene has a trigger of that name, and fires it only then |
| NativeScenes.NativeScene.AdvanceAndApply | native/RiveSharpInterop.cpp:653-658 | forwards the advance to a present scene; never answers true without one |
| NativeScenes.NativeScene.Draw | native/RiveSharpInterop.cpp:660-665 | forwards the draw to a present scene only |
| NativeScenes.NativeScene.PointerDown | native/RiveSharpInterop.cpp:667-671 | forwards the pointer press to a present scene only |
| NativeScenes.NativeScene.PointerMove | native/RiveSharpInterop.cpp:673-677 | forwards the pointer move to a present scene only |
| NativeScenes.NativeScene.PointerUp | native/RiveSharpInterop.cpp:679-683 | forwards the pointer release to a present scene only |
| NativeScenes.LoadsKeepChain | native/RiveSharpInterop.cpp:509-539 | every load keeps the ownership chain: the scene belongs to the artboard and the artboard to the file |
| NativeScenes.InputsKeepObjects | native/RiveSharpInterop.cpp:541-563 | input setters and forwarded calls never change which file, artboard or scene definition is loaded |
| NativeScenes.SettersChangeOnlyTheirInput | native/RiveSharpInterop.cpp:541-563 | a found input is set (or the trigger recorded) and nothing else moves; a missing one changes nothing |
| NativeScenes.NeutralWithoutScene | native/RiveSharpInterop.cpp:610-651 | without a scene, width, height, duration, loop, translucency and name are 0, false or "", and calls are dropped |
| NativeScenes.ForwardedWithScene | native/RiveSharpInterop.cpp:610-622 | with a scene, width and height are the scene's, and a forwarded call is appended to its calls |
| NativeScenes.NameGoesStale | native/RiveSharpInterop.cpp:624-630 | the cached name of a first scene is still reported for a second, differently named scene |
| NativeScenes.Width | native/RiveSharpInterop.cpp:610-615 | `Scene_NativeWidth`: the scene's width, 0 without a scene; its properties are stated by NeutralWithoutScene, ForwardedWithScene and AccessorsReadDefinition |
| NativeScenes.Height | native/RiveSharpInterop.cpp:617-622 | `Scene_NativeHeight`: the scene's height, 0 without a scene; stated by the same three lemmas |
| NativeScenes.Name | native/RiveSharpInterop.cpp:624-630 | `Scene_NativeName` as intended: the scene's name, "" without a scene; stated by the same three lemmas |
| NativeScenes.NameAsWritten | native/RiveSharpInterop.cpp:624-630 | the static cache, once set, is never set again; the answer is "" or the cached name; only the first call with a scene is sure to give that scene's name |
| NativeScenes.Loop | native/RiveSharpInterop.cpp:632-637 | `Scene_NativeLoop`: the scene's loop value, 0 without a scene; stated by the same three lemmas |
| NativeScenes.IsTranslucent | native/RiveSharpInterop.cpp:639-644 | `Scene_NativeIsTranslucent`: the scene's translucency, false without a scene; stated by the same three lemmas |
| NativeScenes.DurationSeconds | native/RiveSharpInterop.cpp:646-651 | `Scene_NativeDurationSeconds`: the scene's duration, 0 without a scene; stated by the same three lemmas |
| NativeScenes.AccessorsReadDefinition | native/RiveSharpInterop.cpp:610-651 | input setters and forwarded calls never change what any accessor answers, and after a file or artboard load every accessor is neutral |
| Scenes.Scene.constructor | RiveSharp/Scene.cs:26-36 | a new scene is not loaded and its native side is empty |
| Scenes.Scene.LoadFile | RiveSharp/Scene.cs:45-53 | clears the flag; null or empty data skips the native call and reports false |
| Scenes.Scene.LoadArtboard | RiveSharp/Scene.cs:56-60 | clears the flag and loads the artboard natively |
| Scenes.Scene.LoadStateMachine | RiveSharp/Scene.cs:63-67 | the flag becomes the native result |
| Scenes.Scene.LoadAnimation | RiveSharp/Scene.cs:70-74 | the flag becomes the native result |
| Scenes.Scene.SetBool | RiveSharp/Scene.cs:76-82 | fails with "bool input not found" exactly when loaded and the input is missing; does nothing when not loaded |
| Scenes.Scene.SetNumber | RiveSharp/Scene.cs:84-90 | the same for number inputs |
| Scenes.Scene.FireTrigger | RiveSharp/Scene.cs:92-98 | the same for triggers |
| Scenes.Scene.Width | RiveSharp/Scene.cs:100 | the native scene's width, 0 without a native scene |
| Scenes.Scene.Height | RiveSharp/Scene.cs:101 | the native scene's height, 0 without a native scene |
| Scenes.Scene.AdvanceAndApply | RiveSharp/Scene.cs:128-131 | forwards to the native scene; true only when a native scene existed |
| Scenes.Scene.Draw | RiveSharp/Scene.cs:133-138 | forwards the draw to the native scene |
| Scenes.Scene.PointerDown | RiveSharp/Scene.cs:140-142 | forwards a pointer press to the native scene |
| Scenes.Scene.PointerMove | RiveSharp/Scene.cs:140-142 | forwards a pointer move to the native scene |
| Scenes.Scene.PointerUp | RiveSharp/Scene.cs:140-142 | forwards a pointer release to the native scene |
| Scenes.OperationsKeepConsistent | RiveSharp/Scene.cs:45-98 | every operation keeps "loaded implies a native scene exists" and the native ownership chain |
| Scenes.LoadedFlag | RiveSharp/Scene.cs:45-74 | file and artboard loads clear the flag; state-machine and animation loads set it to whether a scene exists; nothing else moves it |
| Scenes.EmptyDataSkipsNative | RiveSharp/Scene.cs:45-53 | null or empty data leaves the native side untouched and clears the flag |
| Scenes.InputsRaiseExactly | RiveSharp/Scene.cs:76-98 | a setter raises exactly when loaded and the input is missing; an unloaded scene ignores it; a raising call changes nothing |
| Players.Player.Panel | RiveSharp.Views.UWP/Panel.cs:20-39 | the older panel starts with empty shadow names, no loader, an empty queue and a fresh scene |
| Players.Player.RivePlayer | RiveSharp.Views.UWP/RivePlayer.Properties.cs:14-68 | the player starts with null names, no loader, an empty queue and a fresh scene |
| Players.Player.OnSourceNameChanged | RiveSharp.Views.UWP/RivePlayer.Properties.cs:83-95 | enqueues a scene reset, cancels the active loader, starts a new load of the new source with an empty deferred list, and leaves the render side alone |
| Players.Player.OnArtboardNameChanged | RiveSharp.Views.UWP/RivePlayer.Properties.cs:97-113 | enqueues the new artboard name; during a load it clears the deferred inputs, which `Valid()` guarantees exist, otherwise it enqueues an artboard-level update |
| Players.Player.OnStateMachineNameChanged | RiveSharp.Views.UWP/RivePlayer.Properties.cs:115-131 | the same at the state-machine level |
| Players.Player.OnAnimationNameChanged | RiveSharp.Views.UWP/RivePlayer.Properties.cs:133-143 | enqueues the new animation name, and an update only when no load runs; the deferred inputs are kept |
| Players.Player.SetSource | RiveSharp.Views.UWP/Panel.cs:42-61 | does nothing when the value is unchanged, otherwise starts a load, whose number it returns |
| Players.Player.SetArtboard | RiveSharp.Views.UWP/Panel.cs:98-121 | does nothing when unchanged, otherwise the artboard change |
| Players.Player.SetStateMachine | RiveSharp.Views.UWP/Panel.cs:124-147 | does nothing when unchanged, otherwise the state-machine change |
| Players.Player.SetAnimation | RiveSharp.Views.UWP/Panel.cs:150-168 | does nothing when unchanged, otherwise the animation change |
| Players.Player.EnqueueStateMachineInput | RiveSharp.Views.UWP/RivePlayer.cs:74-85 | an input goes to the deferred list while a load runs, and to the queue otherwise |
| Players.Player.SetBool | RiveSharp.Views.UWP/RivePlayer.cs:87-90 | enqueues a bool input as above |
| Players.Player.SetNumber | RiveSharp.Views.UWP/RivePlayer.cs:92-95 | enqueues a number input as above |
| Players.Player.FireTrigger | RiveSharp.Views.UWP/RivePlayer.cs:97-100 | enqueues a trigger as above |
| Players.Player.HandlePointerEvent | RiveSharp.Views.UWP/RivePlayer.cs:104-126 | drops the event during a load; otherwise enqueues it, bound to the current scene object |
| Players.Player.CompleteLoad | RiveSharp.Views.UWP/RivePlayer.cs:58-68 | the completion as written: with data and no cancellation, enqueues the file update and replays the deferred list; then nulls the loader and the list; reports the null-list exception |
| Players.Player.OnLoaded | RiveSharp.Views.UWP/RivePlayer.cs:132-142 | subscribes one more visibility handler |
| Players.Player.OnVisibilityChanged | RiveSharp.Views.UWP/RivePlayer.cs:132-142 | every subscribed handler bumps the loop token, and when visible starts a loop that invalidates at once |
| Players.Player.InvalLoopResumed | RiveSharp.Views.UWP/RivePlayer.cs:146-153 | a loop invalidates again exactly while its token is current, and ends otherwise |
| Players.Player.UpdateScene | RiveSharp.Views.UWP/RivePlayer.cs:207-235 | each level re-applies every level below it: file, then artboard, then state machine or animation |
| Players.Player.RunAction | RiveSharp.Views.UWP/RivePlayer.cs:179-182 | runs one queued action; only an input action may raise, and the UI state is untouched |
| Players.Player.OnPaintSurface | RiveSharp.Views.UWP/RivePlayer.cs:176-204 | drains the queue, then advances by the time since the last paint and draws, unless an input raised or the scene is not loaded |
| Players.LevelsOrdered | RiveSharp.Views.UWP/RivePlayer.cs:167-172 | the levels have the declared values 3, 2 and 1; only File reaches the file step, File and Artboard reach the artboard step, and every level reaches the selection step |
| Players.ReplayedAppend | RiveSharp.Views.UWP/RivePlayer.cs:62-63 | replaying two lists in turn is replaying their concatenation |
| Players.AsWrittenKeepsPairing | RiveSharp.Views.UWP/RivePlayer.Properties.cs:103-108 | every UI-thread step, including the completion as written, keeps "a loader is active exactly while the deferred list exists", so `Clear()` never meets a null list |
| PlayerTraces.OnlyInputsRaise | RiveSharp.Views.UWP/RivePlayer.cs:179-182 | only an input action can raise, only when the loaded scene lacks the input, and it then changes nothing |
| PlayerTraces.DrainedStopsOnlyOnRaise | RiveSharp.Views.UWP/RivePlayer.cs:179-182 | the drain empties the queue unless an input raised; then exactly the actions behind it stay queued |
| PlayerTraces.DrainedAppend | RiveSharp.Views.UWP/RivePlayer.cs:179-182 | draining two queued parts is draining the first and then the second, unless the first raised |
| PlayerTraces.ActionKeepsConsistent | RiveSharp.Views.UWP/RivePlayer.cs:179-182 | every action keeps the scene consistent; only a reset counts a new scene object |
| PlayerTraces.UpdateKeepsConsistent | RiveSharp.Views.UWP/RivePlayer.cs:207-235 | every scene update keeps the scene consistent |
| PlayerTraces.DrainedKeepsConsistent | RiveSharp.Views.UWP/RivePlayer.cs:179-182 | a whole drain keeps the scene consistent |
| PlayerTraces.PaintAdvancesThenDraws | RiveSharp.Views.UWP/RivePlayer.cs:184-203 | a painted loaded scene receives exactly an advance by the elapsed time, then a draw; otherwise the paint changes only the drained state |
| PlayerTraces.FileUpdateRebuilds | RiveSharp.Views.UWP/RivePlayer.cs:207-235 | a file-level update with data rebuilds file, artboard and scene from the imported bytes, and is loaded exactly when a scene was found |
| PlayerTraces.ArtboardUpdateRebuilds | RiveSharp.Views.UWP/RivePlayer.cs:217-224 | an artboard-level update rebuilds artboard and scene from the loaded file |
| PlayerTraces.SelectionUpdateReselects | RiveSharp.Views.UWP/RivePlayer.cs:225-234 | a selection update keeps file and artboard and picks the named state machine, else the named animation, else the defaults |
| PlayerTraces.EmptyFileUpdateUnloads | RiveSharp.Views.UWP/RivePlayer.cs:207-216 | a file update without data, with no file loaded, leaves the scene unloaded |
| PlayerTraces.InitialStatesValid | RiveSharp.Views.UWP/Panel.cs:34-39 | both initial states satisfy the invariant |
| PlayerTraces.SourceChangedKeepsLoads | RiveSharp.Views.UWP/RivePlayer.Properties.cs:83-95 | a source change keeps the load-table invariant |
| PlayerTraces.CompletionKeepsLoads | RiveSharp.Views.UWP/RivePlayer.cs:58-68 | the guarded completion keeps the load-table invariant |
| PlayerTraces.HandlersKeepLoops | RiveSharp.Views.UWP/RivePlayer.cs:132-142 | running visibility handlers keeps the loop invariant and bumps the token once per handler |
| PlayerTraces.LoopResumedKeepsLoops | RiveSharp.Views.UWP/RivePlayer.cs:146-153 | a loop waking keeps the loop invariant |
| PlayerTraces.NextKeepsInv | RiveSharp.Views.UWP/RivePlayer.cs:24-235 | every UI-thread or render-thread event keeps the whole invariant |
| PlayerTraces.RunKeepsInv | RiveSharp.Views.UWP/RivePlayer.cs:24-235 | every trace of events from a valid state ends in a valid state |
| PlayerTraces.CompletionNeverRaises | RiveSharp.Views.UWP/RivePlayer.cs:58-68 | with the guard, no completion reaches a null deferred list |
| PlayerTraces.OnlyLatestLoadDelivers | RiveSharp.Views.UWP/RivePlayer.cs:58-68 | only the newest load delivers, for the current source, enqueuing the file update and then the deferred inputs in order; an older load only leaves the in-flight set |
| PlayerTraces.LoadingDefersInputs | RiveSharp.Views.UWP/RivePlayer.cs:74-85 | while a load runs, inputs are deferred and pointer events dropped |
| PlayerTraces.InputsDeferredInOrder | RiveSharp.Views.UWP/RivePlayer.cs:74-85 | while the deferred list exists, a series of requests only appends them to it, in order |
| PlayerTraces.DeferredInputsReplayedInOrder | RiveSharp.Views.UWP/RivePlayer.cs:58-68 | inputs requested during a load reach the queue after the file update, in request order, when that load completes with data |
| PlayerTraces.PointerForwarding | RiveSharp.Views.UWP/RivePlayer.cs:104-126 | outside a load one action is queued; running it never raises and changes only the scene; the native scene gets exactly one call at the mapped position when the matrix inverts, the bound scene is current and a native scene exists, and nothing changes otherwise |
| PlayerTraces.SelectionDuringLoadDropsInputs | RiveSharp.Views.UWP/RivePlayer.Properties.cs:97-143 | an artboard or state-machine change during a load discards the deferred inputs; an animation change keeps them |
| PlayerTraces.AtMostOneLoopRuns | RiveSharp.Views.UWP/RivePlayer.cs:146-153 | at most the newest loop carries the current token |
| PlayerTraces.VisibilityControlsLoops | RiveSharp.Views.UWP/RivePlayer.cs:132-142 | hiding leaves no loop current; showing makes the newest loop current |
| PlayerTraces.HiddenLoops | RiveSharp.Views.UWP/RivePlayer.cs:132-142 | hidden handlers start no loop and bump the token once each |
| PlayerTraces.SupersededCompletionBreaksNewerLoad | RiveSharp.Views.UWP/RivePlayer.cs:65-68 | as written, a superseded completion nulls the newer load's list, so the newer completion raises; the guarded one does not |
| PlayerTraces.StaleLoadOverridesNewer | RiveSharp.Views.UWP/RivePlayer.cs:58-68 | as written, a load left uncancelled can enqueue old bytes after the newest source's |
| PlayerTraces.StaleLoadIgnoredWhenGuarded | RiveSharp.Views.UWP/RivePlayer.cs:58-68 | with the guard, the same trace keeps the newest source's bytes last |
| RenderPaths.ToSKPathFillType | RiveSharp/RenderPath.cs:22-30 | NonZero maps to Winding and EvenOdd to EvenOdd; every other value fails |
| RenderPaths.WalkCounts | RiveSharp/RenderPath.cs:36-63 | a successful walk records one command per verb and consumes points as the verbs demand |
| RenderPaths.WalkSucceeds | RiveSharp/RenderPath.cs:36-63 | the walk succeeds exactly when every verb is known and its points are present |
| RenderPaths.WalkRecords | RiveSharp/RenderPath.cs:36-63 | the k-th command is the k-th verb applied to its own points |
| RenderPaths.WalkFailsAtFirstMisfit | RiveSharp/RenderPath.cs:36-63 | a failing walk fails at the first verb that does not fit |
| RenderPaths.ConstructionSucceeds | RiveSharp/RenderPath.cs:32-69 | construction succeeds exactly when the rule is valid, every verb fits and all points are used; it fixes fill type and commands |
| RenderPaths.KnownVerbsFit | RiveSharp/RenderPath.cs:36-63 | with known verbs, every verb fits exactly when the points suffice |
| RenderPaths.WalkErrors | RiveSharp/RenderPath.cs:58-62 | an unknown verb gives the verb error, and a missing point the index error |
| RenderPaths.ConstructionErrors | RiveSharp/RenderPath.cs:32-69 | a bad rule gives the rule error; with known verbs, too few points give the index error and too many the count error |
| RenderPaths.WalkStops | RiveSharp/RenderPath.cs:36-63 | once the walk has failed, further verbs keep that failure |
| RenderPaths.RenderPath.Empty | RiveSharp/RenderPath.cs:71 | the empty path has the default fill and no commands |
| RenderPaths.RenderPath.Create | RiveSharp/RenderPath.cs:32-69 | the loop over the verb array builds exactly the path that `Built` gives, or fails with its error |
| RenderPaths.RenderPath.AddVerb | RiveSharp/RenderPath.cs:40-63 | one case of the verb switch: appends the command and advances the point index, or fails |
| RenderPaths.RenderPath.SetFillRule | RiveSharp/RenderPath.cs:79 | the setter converts the rule; an invalid rule fails and leaves the path unchanged |
| RenderPaints.ToSKPaintStyle | RiveSharp/RenderPaint.cs:77-85 | succeeds exactly for a managed style code, mapping it to the Skia style of the same name |
| RenderPaints.ToSKStrokeJoin | RiveSharp/RenderPaint.cs:87-96 | succeeds exactly for a managed join, mapping it to the same-named, same-ordinal Skia join |
| RenderPaints.ToSKStrokeCap | RiveSharp/RenderPaint.cs:98-107 | succeeds exactly for a managed cap, mapping it to the same-named, same-ordinal Skia cap |
| RenderPaints.ToSKBlendMode | RiveSharp/RenderPaint.cs:109-131 | succeeds exactly for the codes 3 and 14 to 28, each mapped to the Skia mode with that ordinal |
| RenderPaints.BlendModesKeepNames | RiveSharp/RenderPaint.cs:30-48 | every managed blend mode converts to the Skia mode of the same name |
| RenderPaints.BlendModeCodes | RiveSharp/RenderPaint.cs:109-131 | a code is accepted exactly when it is the code of a managed blend mode |
| RenderPaints.ConversionsInjective | RiveSharp/RenderPaint.cs:77-131 | no two accepted codes convert to the same Skia value |
| RenderPaints.RenderPaint.constructor | RiveSharp/RenderPaint.cs:70-75 | a new paint is filled, black and antialiased, with no shader and Skia's other defaults |
| RenderPaints.RenderPaint.SetStyle | RiveSharp/RenderPaint.cs:133 | sets the converted style, or fails and leaves the paint unchanged |
| RenderPaints.RenderPaint.SetJoin | RiveSharp/RenderPaint.cs:168 | sets the converted join, or fails and leaves the paint unchanged |
| RenderPaints.RenderPaint.SetCap | RiveSharp/RenderPaint.cs:169 | sets the converted cap, or fails and leaves the paint unchanged |
| RenderPaints.RenderPaint.SetBlendMode | RiveSharp/RenderPaint.cs:170 | sets the converted blend mode, or fails and leaves the paint unchanged |
| RenderPaints.RenderPaint.SetColor | RiveSharp/RenderPaint.cs:134 | sets the colour only |
| RenderPaints.RenderPaint.SetThickness | RiveSharp/RenderPaint.cs:167 | sets the stroke width only |
| RenderPaints.RenderPaint.CopyColors | RiveSharp/RenderPaint.cs:140-144 | the loop fills a new array of the same length with each colour converted |
| RenderPaints.RenderPaint.LinearGradient | RiveSharp/RenderPaint.cs:135-150 | sets only the shader, to a linear gradient of the two points, the converted colours and the stops |
| RenderPaints.RenderPaint.RadialGradient | RiveSharp/RenderPaint.cs:151-166 | sets only the shader, to a radial gradient of the centre, the radius, the converted colours and the stops |
| Inputs.StateMachineInput.constructor | RiveSharp.Views.UWP/StateMachineInput.cs:12-23 | a new input has no target and no player, and has sent nothing |
| Inputs.StateMachineInput.SetTarget | RiveSharp.Views.UWP/StateMachineInput.cs:13-21 | stores the target, then applies |
| Inputs.StateMachineInput.SetRivePlayer | RiveSharp.Views.UWP/StateMachineInput.cs:28-32 | stores the player reference, then applies |
| Inputs.StateMachineInput.Apply | RiveSharp.Views.UWP/StateMachineInput.cs:34-40 | sends the current value exactly when the target is non-empty and the player alive |
| Inputs.StateMachineInput.ApplyTo | RiveSharp.Views.UWP/StateMachineInput.cs:69-72 | sends the call for the input's kind and value to that player, under that name |
| Inputs.StateMachineInput.SetBoolValue | RiveSharp.Views.UWP/StateMachineInput.cs:58-72 | a changed bool value is stored and applied; an unchanged one does nothing |
| Inputs.StateMachineInput.SetNumberValue | RiveSharp.Views.UWP/StateMachineInput.cs:86-100 | a changed number value is stored and applied; an unchanged one does nothing |
| Inputs.StateMachineInput.Fire | RiveSharp.Views.UWP/StateMachineInput.cs:105-113 | fires the trigger of the target on a live player |
| Inputs.ApplyForwardsExactly | RiveSharp.Views.UWP/StateMachineInput.cs:34-40 | apply appends exactly one call, with the target and current value, when it forwards, and none otherwise; nothing else changes |
| Inputs.OpsSendWell | RiveSharp.Views.UWP/StateMachineInput.cs:12-118 | every operation keeps the invariant that each call sent names a non-empty input and is of the input's own kind |
| Inputs.NothingSentUnattached | RiveSharp.Views.UWP/StateMachineInput.cs:23-40 | without a player nothing is sent, whatever else is done |
| Inputs.NewInputSendsNothing | RiveSharp.Views.UWP/StateMachineInput.cs:23 | a new input sends nothing before a player is attached |
| Inputs.ReattachReapplies | RiveSharp.Views.UWP/StateMachineInput.cs:26-32 | re-attaching the same player applies again, because there is no equality check |
| Inputs.TargetThenApply | RiveSharp.Views.UWP/StateMachineInput.cs:13-21 | a new target is applied with its own name; an empty target sends nothing |
| Inputs.ValueChangesReapply | RiveSharp.Views.UWP/StateMachineInput.cs:64-100 | a changed value is sent at once; an unchanged one is not sent again |
| Inputs.TriggersSendOnlyWhenFired | RiveSharp.Views.UWP/StateMachineInput.cs:105-118 | a trigger sends nothing on target or player changes, and exactly one fire when fired |
| Inputs.DeadPlayerGetsNothing | RiveSharp.Views.UWP/StateMachineInput.cs:34-40 | a collected player receives nothing |
| Inputs.DetachIsPlayerSet | RiveSharp.Views.UWP/StateMachineInputCollection.cs:45-50 | detaching sets an empty reference, is idempotent and sends nothing |
| Inputs.StateMachineInputCollection.constructor | RiveSharp.Views.UWP/StateMachineInputCollection.cs:19-25 | a new collection is empty and belongs to its player |
| Inputs.StateMachineInputCollection.InputsVectorChanged | RiveSharp.Views.UWP/StateMachineInputCollection.cs:27-52 | an insertion or change attaches the item at the index, a removal detaches it, and a reset detaches every item; for the other three changes an index out of range fails |
| Inputs.StateMachineInputCollection.Changed | RiveSharp.Views.UWP/StateMachineInputCollection.cs:27-52 | the collection takes the new items and then runs the handler on them |

## Left out

- Fetching the source file is left out. This covers the `ms-appx` URI, the local-file fallback and `StorageFile`. The bytes a load produces, or none, are an argument of the completion.
- Threads are left out. The `async`/`await` continuations are one atomic step each, and the render lock is not modelled. The UI thread and the render thread communicate only through the queue, and `PlayerTraces` interleaves their steps freely.
- The exception of a failed download inside `async void` is left out. The completion is entered with no data instead.
- The alignment matrix, its inversion and the mapping of the pointer position are left out. They are the parameter `Env.align`. Drawing itself and the renderer are only recorded as a `Drawn` call.
- Time is left out. `DateTime.Now` is the `now` argument of a paint. `lastPaintTime` starts at `DateTime.MinValue`, modelled as 0, and the code never resets it. So the first advance after construction covers the whole time since that value. After a pause in drawing, such as a reload, the next advance covers the whole pause.
- The inval-loop token `_invalLoopContinuationToken` is a 32-bit `int` that is incremented without bound. The model's `invalToken` is unbounded, so it does not capture the wrap-around after 2^32 visibility changes. That wrap would break the increasing order of loop tokens that `LoopsValid` states.
- The collection handler casts `sender[index]` to `StateMachineInput`, which throws for any other `DependencyObject` in the vector. The model types the items as `StateMachineInput`, so it does not capture that exception.
- Floating point is modelled as `real`. This covers the `(float)` casts of elapsed time, sizes and input values. Rounding is not modelled.
- The UWP `VectorChanged` timing is left out. The event fires after the change, so for a removal or a reset the element at `index` may already be a different object. The handler is modelled on the items it is given.
- `DependencyProperty` semantics are assumed. The change callback runs only when the value really changes. That is why `SetSource` and the other `Set*` methods are a guard plus a change callback.
- `RivePlayer.Properties.cs` uses field names that `RivePlayer.cs` does not declare. Examples are `player.mSceneActionsQueue`, `mActiveSourceFileLoader`, `mDeferredSMInputsDuringFileLoad` and `mArtboardName`, where `RivePlayer.cs` declares `sceneActionsQueue`, `_activeSourceFileLoader`, `_deferredSMInputsDuringFileLoad` and `_artboardName`. The model treats each pair as one field. It also follows the method bodies of `Panel.cs`, which use the same logic.
- Players.Player.CompleteLoad models the completion as written, including the unguarded nulling. The trace machine in `PlayerTraces` uses the corrected completion, `LoadCompleted`; see Findings.
- Several members of `RenderPath` are left out: `Reset`, the incremental `MoveTo`, `LineTo`, `QuadTo`, `CubicTo` and `Close`, and `AddRenderPath`. So are the native callback registration of `RenderPath` and `RenderPaint`. They are one-line forwards to SkiaSharp with nothing to state beyond the call.
- NativeScenes.NativeScene.AdvanceAndApply leaves the runtime's answer open. The only thing stated is that it is false without a scene, because rive-cpp's state-machine logic is not modelled.
- The `Stream` overload of `Scene.LoadFile` is left out. It only copies the stream into a byte array.
- The managed `Scene.Name`, `Loop`, `IsTranslucent` and `DurationSeconds` wrappers are left out. They pass their native answers through unchanged. The native answers are modelled in `NativeScenes`.
- The byte width of the verb array is modelled. A verb is a `byte` widened to `int`. The conic verb (3), `Done` (6) and any other value fail as an invalid verb.

## Findings

| source | as written | input that shows it | evidently intended | confidence | as-written member | corrected member |
|---|---|---|---|---|---|---|
| RiveSharp.Views.UWP/RivePlayer.cs:58-68 (also Panel.cs:85-93) | after any completion, even one whose load was cancelled by a newer source, the loader and the deferred list are set to null | set the source to A, then to B; A's load completes (cancelled), nulling B's loader and deferred list; B's load then completes with data and `foreach` over the null list throws. A third source change then cancels nothing, so B's stale bytes can be enqueued after the newest file | a superseded completion leaves the newer load's loader and deferred list alone | not executed | Players.LoadCompletedAsWritten, PlayerTraces.SupersededCompletionBreaksNewerLoad, PlayerTraces.StaleLoadOverridesNewer | Players.LoadCompleted, PlayerTraces.CompletionNeverRaises, PlayerTraces.OnlyLatestLoadDelivers, PlayerTraces.StaleLoadIgnoredWhenGuarded |
| native/RiveSharpInterop.cpp:624-630 | the name is kept in a function-local `static` thread-local string, which is initialised on the first call only | ask a scene named "a" for its name, then a scene named "b": the second answer is "a" | return the name of the current scene | not executed | NativeScenes.NameAsWritten, NativeScenes.NameGoesStale | NativeScenes.Name, NativeScenes.NeutralWithoutScene |
