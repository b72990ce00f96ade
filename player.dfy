/**
  The scene-update pipeline of the XAML players (`Panel` and its successor
  `RivePlayer`). The UI thread keeps shadow copies of the configuration and
  talks to the render thread only through a FIFO queue of actions; a source
  change starts a cancellable load, and state-machine inputs wait in a deferred
  list while it runs. The render thread drains the queue on every paint, then
  advances and draws a loaded scene.

  Each thread's work is one step: the pure functions below give the state after
  a step, and the methods of `Player` are proved to reach exactly that state.
*/
module Players {
  import opened Wrappers
  import opened Runtime
  import opened NativeScenes
  import opened Scenes

  /** `SceneUpdates`: File = 3, Artboard = 2, AnimationOrStateMachine = 1. */
  datatype UpdateLevel = AnimationOrStateMachine | Artboard | File {
    function Rank(): (r: nat)
      ensures 1 <= r <= 3
    {
      match this
      case AnimationOrStateMachine => 1
      case Artboard => 2
      case File => 3
    }
  }

  /** The cascade of `UpdateScene` compares levels by their declared values:
      only File reaches the file step, File and Artboard reach the artboard
      step, and every level reaches the selection step. */
  lemma LevelsOrdered(level: UpdateLevel)
    ensures File.Rank() == 3 && Artboard.Rank() == 2 && AnimationOrStateMachine.Rank() == 1
    ensures level.Rank() >= File.Rank() <==> level == File
    ensures level.Rank() >= Artboard.Rank() <==> level != AnimationOrStateMachine
    ensures level.Rank() >= AnimationOrStateMachine.Rank()
  {
  }

  datatype PointerKind = Pressed | Moved | Released

  /** The closures queued for the render thread, with the values they capture. */
  datatype Action =
      /** `() => scene = new Scene()` */
    | ResetScene
    | AssignArtboard(artboard: Option<string>)
    | AssignStateMachine(stateMachine: Option<string>)
    | AssignAnimation(animation: Option<string>)
      /** `() => UpdateScene(level, data)`; data is null below the File level. */
    | Update(level: UpdateLevel, data: Option<seq<byte>>)
      /** `() => scene.SetBool(...)` and the other two input setters. */
    | Input(call: InputCall)
      /** The pointer closure: the handler is bound to the scene object that was
          current when the event arrived (`target` is its generation), the view
          size and position are captured values. */
    | Pointer(kind: PointerKind, target: nat, viewWidth: real, viewHeight: real, position: Vec2D)

  /** Host code the pipeline calls but that is not modelled: `File::import`
      with the factory, and the alignment of the scene in the view followed by
      the inversion of that matrix and the mapping of a view position into
      artboard space (None when the matrix does not invert). The arguments are
      view width, view height, scene width, scene height and the position. */
  datatype Env = Env(
    importer: seq<byte> -> Option<RivFile>,
    align: (real, real, real, real, Vec2D) -> Option<Vec2D>)

  /** The CancellationTokenSource objects created so far, numbered in the
      order their loads started: `sources[i]` is the source load i fetches,
      `cancelled` the ones whose `Cancel()` has run and `inFlight` the loads
      whose completion has not run yet. */
  datatype LoadTable = LoadTable(sources: seq<Option<string>>, cancelled: set<nat>, inFlight: set<nat>)

  const NoLoads := LoadTable([], {}, {})

  /** A new load of `v`; `active`, the current loader, is cancelled first. */
  function LoadStarted(t: LoadTable, active: Option<nat>, v: Option<string>): LoadTable {
    LoadTable(t.sources + [v],
              if active.Some? then t.cancelled + {active.value} else t.cancelled,
              t.inFlight + {|t.sources|})
  }

  /** What the UI thread owns; `loader` is the active loader, if any. */
  datatype UiState = UiState(
    source: Option<string>,
    artboard: Option<string>,
    stateMachine: Option<string>,
    animation: Option<string>,
    loader: Option<nat>,
    loads: LoadTable,
    deferred: Option<seq<InputCall>>,
    queue: seq<Action>,
    handlers: nat,
    invalToken: int,
    loops: seq<int>,
    invalidations: nat)

  /** What the render thread owns: the scene (`generation` counts the Scene
      objects created so far), its copy of the names and the last paint time in
      seconds since `DateTime.MinValue`. */
  datatype RenderState = RenderState(
    generation: nat,
    scene: SceneState,
    artboardName: Option<string>,
    stateMachineName: Option<string>,
    animationName: Option<string>,
    lastPaintTime: real)

  datatype PlayerState = PlayerState(ui: UiState, render: RenderState)

  const InitialRender := RenderState(0, NewScene, None, None, None, 0.0)

  /** `Panel`: the shadow strings start empty. */
  const PanelInitial := PlayerState(
    UiState(Some(""), Some(""), Some(""), Some(""), None, NoLoads, None, [], 0, 0, [], 0),
    InitialRender)

  /** `RivePlayer`: the four dependency properties default to null. */
  const RivePlayerInitial := PlayerState(
    UiState(None, None, None, None, None, NoLoads, None, [], 0, 0, [], 0),
    InitialRender)

  // ---------------------------------------------------------------------------
  // UI-thread steps.

  function Cleared(d: Option<seq<InputCall>>): Option<seq<InputCall>> {
    if d.Some? then Some([]) else None
  }

  /** `OnSourceNameChanged`: reset the scene, cancel the active loader, start a
      new load with a fresh, empty deferred list. */
  function SourceChanged(u: UiState, v: Option<string>): UiState {
    u.(source := v,
       queue := u.queue + [ResetScene],
       loader := Some(|u.loads.sources|),
       loads := LoadStarted(u.loads, u.loader, v),
       deferred := Some([]))
  }

  function ArtboardChanged(u: UiState, v: Option<string>): UiState {
    if u.loader.Some? then
      u.(artboard := v, queue := u.queue + [AssignArtboard(v)], deferred := Cleared(u.deferred))
    else
      u.(artboard := v, queue := u.queue + [AssignArtboard(v), Update(Artboard, None)])
  }

  function StateMachineChanged(u: UiState, v: Option<string>): UiState {
    if u.loader.Some? then
      u.(stateMachine := v, queue := u.queue + [AssignStateMachine(v)], deferred := Cleared(u.deferred))
    else
      u.(stateMachine := v, queue := u.queue + [AssignStateMachine(v), Update(AnimationOrStateMachine, None)])
  }

  function AnimationChanged(u: UiState, v: Option<string>): UiState {
    if u.loader.Some? then
      u.(animation := v, queue := u.queue + [AssignAnimation(v)])
    else
      u.(animation := v, queue := u.queue + [AssignAnimation(v), Update(AnimationOrStateMachine, None)])
  }

  /** The four setters: nothing happens when the value is the current one. */
  function SourceSet(u: UiState, v: Option<string>): UiState {
    if u.source == v then u else SourceChanged(u, v)
  }

  function ArtboardSet(u: UiState, v: Option<string>): UiState {
    if u.artboard == v then u else ArtboardChanged(u, v)
  }

  function StateMachineSet(u: UiState, v: Option<string>): UiState {
    if u.stateMachine == v then u else StateMachineChanged(u, v)
  }

  function AnimationSet(u: UiState, v: Option<string>): UiState {
    if u.animation == v then u else AnimationChanged(u, v)
  }

  /** `EnqueueStateMachineInput`. */
  function InputEnqueued(u: UiState, call: InputCall): UiState {
    if u.deferred.Some? then u.(deferred := Some(u.deferred.value + [call]))
    else u.(queue := u.queue + [Input(call)])
  }

  /** `HandlePointerEvent`; `generation` identifies the scene object current
      at the time of the event. */
  function PointerHandled(u: UiState, generation: nat, kind: PointerKind, w: real, h: real, pos: Vec2D): UiState {
    if u.loader.Some? then u
    else u.(queue := u.queue + [Pointer(kind, generation, w, h, pos)])
  }

  function Replayed(calls: seq<InputCall>): (r: seq<Action>)
    ensures |r| == |calls|
    ensures forall i :: 0 <= i < |calls| ==> r[i] == Input(calls[i])
  {
    seq(|calls|, i requires 0 <= i < |calls| => Input(calls[i]))
  }

  /** Replaying two lists one after the other replays their concatenation. */
  lemma ReplayedAppend(a: seq<InputCall>, b: seq<InputCall>)
    ensures Replayed(a + b) == Replayed(a) + Replayed(b)
  {
    assert forall i :: 0 <= i < |a + b| ==> Replayed(a + b)[i] == (Replayed(a) + Replayed(b))[i];
  }

  /** Whether the completion enqueues anything: the data arrived and the
      load's token was not cancelled. */
  predicate Delivers(u: UiState, token: nat, data: Option<seq<byte>>) {
    data.Some? && token !in u.loads.cancelled
  }

  /** The completion of `LoadSourceFileDataAsync` as written: with data and no
      cancellation it enqueues the File update and replays the deferred list;
      whatever happened, it then nulls the deferred list and the loader, even
      when a newer load owns them. Replaying a deferred list that is already
      null raises, after the File update has been enqueued. */
  function LoadCompletedAsWritten(u: UiState, token: nat, data: Option<seq<byte>>): UiState {
    var u1 := u.(loads := u.loads.(inFlight := u.loads.inFlight - {token}));
    if !Delivers(u, token, data) then u1.(deferred := None, loader := None)
    else if u.deferred.None? then u1.(queue := u.queue + [Update(File, data)])
    else u1.(queue := u.queue + [Update(File, data)] + Replayed(u.deferred.value),
             deferred := None, loader := None)
  }

  /** The `foreach` over a null deferred list throws. */
  predicate CompletionRaises(u: UiState, token: nat, data: Option<seq<byte>>) {
    Delivers(u, token, data) && u.deferred.None?
  }

  /** The completion as evidently intended: a cancelled load has been
      superseded and leaves the newer load's loader and deferred list alone. */
  function LoadCompleted(u: UiState, token: nat, data: Option<seq<byte>>): UiState {
    if token in u.loads.cancelled then u.(loads := u.loads.(inFlight := u.loads.inFlight - {token}))
    else LoadCompletedAsWritten(u, token, data)
  }

  /** A loader is active exactly while the deferred list exists. */
  predicate Paired(u: UiState) {
    u.loader.Some? <==> u.deferred.Some?
  }

  /** Every UI-thread step of the code as written keeps the pairing, so
      `Cleared` never meets a missing list while a loader is active. */
  lemma AsWrittenKeepsPairing(u: UiState, v: Option<string>, call: InputCall, token: nat, data: Option<seq<byte>>,
                              g: nat, kind: PointerKind, w: real, h: real, pos: Vec2D)
    requires Paired(u)
    ensures Paired(SourceChanged(u, v)) && Paired(ArtboardChanged(u, v))
    ensures Paired(StateMachineChanged(u, v)) && Paired(AnimationChanged(u, v))
    ensures Paired(InputEnqueued(u, call)) && Paired(PointerHandled(u, g, kind, w, h, pos))
    ensures Paired(LoadCompletedAsWritten(u, token, data)) && Paired(LoadCompleted(u, token, data))
    ensures u.loader.Some? ==> Cleared(u.deferred) == Some([])
  {
  }

  /** `OnLoaded` subscribes one more visibility handler. */
  function Subscribed(u: UiState): UiState {
    u.(handlers := u.handlers + 1)
  }

  /** One visibility handler: bump the token, and when visible start an inval
      loop for the new token, whose first iteration runs at once. */
  function HandlerRan(u: UiState, visible: bool): UiState {
    var t := u.invalToken + 1;
    if visible then u.(invalToken := t, loops := u.loops + [t], invalidations := u.invalidations + 1)
    else u.(invalToken := t)
  }

  /** The visibility event runs its first `k` handlers. */
  function HandlersRan(u: UiState, visible: bool, k: nat): UiState {
    if k == 0 then u else HandlerRan(HandlersRan(u, visible, k - 1), visible)
  }

  function VisibilityChanged(u: UiState, visible: bool): UiState {
    HandlersRan(u, visible, u.handlers)
  }

  /** Inval loop `i` wakes from its delay: it invalidates again while its
      token is current, and otherwise ends. */
  function LoopResumed(u: UiState, i: nat): UiState
    requires i < |u.loops|
  {
    if u.loops[i] == u.invalToken then u.(invalidations := u.invalidations + 1)
    else u.(loops := u.loops[..i] + u.loops[i + 1..])
  }

  // ---------------------------------------------------------------------------
  // Render-thread steps.

  /** The animation-or-state-machine step of `UpdateScene`: the named state
      machine, else the named animation, else the default state machine with
      the default animation as fallback. */
  function SceneSelected(s: SceneState, stateMachine: Option<string>, animation: Option<string>): SceneState {
    if Named(stateMachine) then StateMachineNameLoaded(s, stateMachine)
    else if Named(animation) then AnimationNameLoaded(s, animation)
    else
      var t := StateMachineNameLoaded(s, None);
      if t.isLoaded then t else AnimationNameLoaded(t, None)
  }

  /** `UpdateScene(level, data)`: each level re-applies every level below it. */
  function SceneUpdated(env: Env, r: RenderState, level: UpdateLevel, data: Option<seq<byte>>): RenderState {
    var s1 := if level.Rank() >= File.Rank() then FileDataLoaded(env.importer, r.scene, data) else r.scene;
    var s2 := if level.Rank() >= Artboard.Rank() then ArtboardNameLoaded(s1, r.artboardName) else s1;
    r.(scene := SceneSelected(s2, r.stateMachineName, r.animationName))
  }

  function PointerCall(kind: PointerKind, pos: Vec2D): SceneCall {
    match kind
    case Pressed => SceneCall.PointerDown(pos)
    case Moved => SceneCall.PointerMove(pos)
    case Released => SceneCall.PointerUp(pos)
  }

  datatype StepResult = StepResult(render: RenderState, raised: Option<InputNotFound>)

  /** Running one queued action on the render thread. */
  function ActionRun(env: Env, r: RenderState, a: Action): StepResult {
    match a
    case ResetScene => StepResult(r.(generation := r.generation + 1, scene := NewScene), None)
    case AssignArtboard(v) => StepResult(r.(artboardName := v), None)
    case AssignStateMachine(v) => StepResult(r.(stateMachineName := v), None)
    case AssignAnimation(v) => StepResult(r.(animationName := v), None)
    case Update(level, data) => StepResult(SceneUpdated(env, r, level, data), None)
    case Input(call) =>
      if Raises(r.scene, call) then StepResult(r, Some(NotFound(call)))
      else StepResult(r.(scene := InputApplied(r.scene, call)), None)
    case Pointer(kind, target, w, h, pos) =>
      var p := env.align(w, h, Width(r.scene.native), Height(r.scene.native), pos);
      if p.Some? && target == r.generation then StepResult(r.(scene := Forwarded(r.scene, PointerCall(kind, p.value))), None)
      else StepResult(r, None)
  }

  datatype DrainResult = DrainResult(render: RenderState, rest: seq<Action>, raised: Option<InputNotFound>)

  /** The drain loop: dequeue and run until the queue is empty, or until an
      action raises, which leaves the actions behind it queued. */
  function Drained(env: Env, r: RenderState, q: seq<Action>): DrainResult
    decreases |q|
  {
    if q == [] then DrainResult(r, [], None)
    else
      var step := ActionRun(env, r, q[0]);
      if step.raised.Some? then DrainResult(step.render, q[1..], step.raised)
      else Drained(env, step.render, q[1..])
  }

  datatype PaintOutcome = PaintRaised(error: InputNotFound) | NotLoaded | Rendered

  /** `OnPaintSurface` at time `now`: drain, then advance by the time since the
      previous drawn paint and draw, unless the scene is not loaded. */
  function Painted(env: Env, p: PlayerState, now: real): PlayerState {
    var d := Drained(env, p.render, p.ui.queue);
    var u := p.ui.(queue := d.rest);
    if d.raised.Some? || !d.render.scene.isLoaded then PlayerState(u, d.render)
    else
      var advanced := Forwarded(d.render.scene, Advanced(now - d.render.lastPaintTime));
      PlayerState(u, d.render.(scene := Forwarded(advanced, Drawn), lastPaintTime := now))
  }

  function PaintResult(env: Env, p: PlayerState): PaintOutcome {
    var d := Drained(env, p.render, p.ui.queue);
    if d.raised.Some? then PaintRaised(d.raised.value)
    else if !d.render.scene.isLoaded then NotLoaded
    else Rendered
  }

  // ---------------------------------------------------------------------------
  // The class.

  class Player {
    const env: Env

    // UI thread.
    var source: Option<string>
    var artboard: Option<string>
    var stateMachine: Option<string>
    var animation: Option<string>
    var loader: Option<nat>
    var loads: LoadTable
    var deferred: Option<seq<InputCall>>
    var queue: seq<Action>
    var handlers: nat
    var invalToken: int
    var loops: seq<int>
    var invalidations: nat

    // Render thread.
    var generation: nat
    var scene: Scene
    var artboardName: Option<string>
    var stateMachineName: Option<string>
    var animationName: Option<string>
    var lastPaintTime: real

    /** The scene uses the player's importer, and a loader is active exactly
        while the deferred list exists, so the `Clear()` of the selection
        changes never meets a null list. */
    ghost predicate Valid()
      reads this, scene
    {
      && scene.native.importer == env.importer
      && Paired(Ui())
    }

    function Ui(): UiState
      reads this
    {
      UiState(source, artboard, stateMachine, animation, loader, loads, deferred, queue,
              handlers, invalToken, loops, invalidations)
    }

    function Render(): RenderState
      reads this, scene, scene.native
    {
      RenderState(generation, scene.State(), artboardName, stateMachineName, animationName, lastPaintTime)
    }

    function Value(): PlayerState
      reads this, scene, scene.native
    {
      PlayerState(Ui(), Render())
    }

    constructor Panel(env: Env)
      ensures Valid() && fresh(scene) && fresh(scene.native)
      ensures this.env == env && Value() == PanelInitial
    {
      this.env := env;
      source, artboard, stateMachine, animation := Some(""), Some(""), Some(""), Some("");
      loader, loads, deferred, queue := None, NoLoads, None, [];
      handlers, invalToken, loops, invalidations := 0, 0, [], 0;
      generation := 0;
      scene := new Scene(env.importer);
      artboardName, stateMachineName, animationName := None, None, None;
      lastPaintTime := 0.0;
    }

    constructor RivePlayer(env: Env)
      ensures Valid() && fresh(scene) && fresh(scene.native)
      ensures this.env == env && Value() == RivePlayerInitial
    {
      this.env := env;
      source, artboard, stateMachine, animation := None, None, None, None;
      loader, loads, deferred, queue := None, NoLoads, None, [];
      handlers, invalToken, loops, invalidations := 0, 0, [], 0;
      generation := 0;
      scene := new Scene(env.importer);
      artboardName, stateMachineName, animationName := None, None, None;
      lastPaintTime := 0.0;
    }

    // --- UI thread -----------------------------------------------------------

    /** Returns the number of the load it starts. */
    method OnSourceNameChanged(v: Option<string>) returns (token: nat)
      requires Valid()
      modifies this
      ensures Valid() && scene == old(scene)
      ensures Value() == PlayerState(SourceChanged(old(Ui()), v), old(Render()))
      ensures token == old(|loads.sources|)
    {
      token := |loads.sources|;
      source, queue := v, queue + [ResetScene];
      loads, loader, deferred := LoadStarted(loads, loader, v), Some(token), Some([]);
    }

    method OnArtboardNameChanged(v: Option<string>)
      requires Valid()
      modifies this
      ensures Valid() && scene == old(scene)
      ensures Value() == PlayerState(ArtboardChanged(old(Ui()), v), old(Render()))
    {
      artboard := v;
      queue := queue + [AssignArtboard(v)];
      if loader.Some? {
        assert deferred.Some?;
        deferred := Some([]);
      } else {
        queue := queue + [Update(Artboard, None)];
      }
    }

    method OnStateMachineNameChanged(v: Option<string>)
      requires Valid()
      modifies this
      ensures Valid() && scene == old(scene)
      ensures Value() == PlayerState(StateMachineChanged(old(Ui()), v), old(Render()))
    {
      stateMachine := v;
      queue := queue + [AssignStateMachine(v)];
      if loader.Some? {
        assert deferred.Some?;
        deferred := Some([]);
      } else {
        queue := queue + [Update(AnimationOrStateMachine, None)];
      }
    }

    method OnAnimationNameChanged(v: Option<string>)
      requires Valid()
      modifies this
      ensures Valid() && scene == old(scene)
      ensures Value() == PlayerState(AnimationChanged(old(Ui()), v), old(Render()))
    {
      animation := v;
      queue := queue + [AssignAnimation(v)];
      if loader.None? {
        queue := queue + [Update(AnimationOrStateMachine, None)];
      }
    }

    /** The `Source` setter; returns the load it started, if any. */
    method SetSource(v: Option<string>) returns (token: Option<nat>)
      requires Valid()
      modifies this
      ensures Valid() && scene == old(scene)
      ensures Value() == PlayerState(SourceSet(old(Ui()), v), old(Render()))
      ensures token.Some? <==> old(source) != v
      ensures token.Some? ==> token.value == old(|loads.sources|) && loader == token
    {
      token := None;
      if source != v {
        var t := OnSourceNameChanged(v);
        token := Some(t);
      }
    }

    method SetArtboard(v: Option<string>)
      requires Valid()
      modifies this
      ensures Valid() && scene == old(scene)
      ensures Value() == PlayerState(ArtboardSet(old(Ui()), v), old(Render()))
    {
      if artboard != v {
        OnArtboardNameChanged(v);
      }
    }

    method SetStateMachine(v: Option<string>)
      requires Valid()
      modifies this
      ensures Valid() && scene == old(scene)
      ensures Value() == PlayerState(StateMachineSet(old(Ui()), v), old(Render()))
    {
      if stateMachine != v {
        OnStateMachineNameChanged(v);
      }
    }

    method SetAnimation(v: Option<string>)
      requires Valid()
      modifies this
      ensures Valid() && scene == old(scene)
      ensures Value() == PlayerState(AnimationSet(old(Ui()), v), old(Render()))
    {
      if animation != v {
        OnAnimationNameChanged(v);
      }
    }

    method EnqueueStateMachineInput(call: InputCall)
      requires Valid()
      modifies this
      ensures Valid() && scene == old(scene)
      ensures Value() == PlayerState(InputEnqueued(old(Ui()), call), old(Render()))
    {
      if deferred.Some? {
        deferred := Some(deferred.value + [call]);
      } else {
        queue := queue + [Input(call)];
      }
    }

    method SetBool(name: string, value: bool)
      requires Valid()
      modifies this
      ensures Valid() && scene == old(scene)
      ensures Value() == PlayerState(InputEnqueued(old(Ui()), InputCall.SetBool(name, value)), old(Render()))
    {
      EnqueueStateMachineInput(InputCall.SetBool(name, value));
    }

    method SetNumber(name: string, value: real)
      requires Valid()
      modifies this
      ensures Valid() && scene == old(scene)
      ensures Value() == PlayerState(InputEnqueued(old(Ui()), InputCall.SetNumber(name, value)), old(Render()))
    {
      EnqueueStateMachineInput(InputCall.SetNumber(name, value));
    }

    method FireTrigger(name: string)
      requires Valid()
      modifies this
      ensures Valid() && scene == old(scene)
      ensures Value() == PlayerState(InputEnqueued(old(Ui()), InputCall.FireTrigger(name)), old(Render()))
    {
      EnqueueStateMachineInput(InputCall.FireTrigger(name));
    }

    method HandlePointerEvent(kind: PointerKind, viewWidth: real, viewHeight: real, pos: Vec2D)
      requires Valid()
      modifies this
      ensures Valid() && scene == old(scene)
      ensures Value() == PlayerState(PointerHandled(old(Ui()), generation, kind, viewWidth, viewHeight, pos), old(Render()))
    {
      if loader.Some? {
        return;
      }
      queue := queue + [Pointer(kind, generation, viewWidth, viewHeight, pos)];
    }

    /** The completion of load `token` with the fetched `data`, as written;
        `raised` tells that the replay loop threw on a null deferred list. */
    method CompleteLoad(token: nat, data: Option<seq<byte>>) returns (raised: bool)
      requires Valid() && token in loads.inFlight
      modifies this
      ensures Valid() && scene == old(scene)
      ensures Value() == PlayerState(LoadCompletedAsWritten(old(Ui()), token, data), old(Render()))
      ensures raised == CompletionRaises(old(Ui()), token, data)
    {
      loads := loads.(inFlight := loads.inFlight - {token});
      raised := false;
      if data.Some? && token !in loads.cancelled {
        var q := queue + [Update(File, data)];
        if deferred.None? {
          queue := q;
          raised := true;
          return;
        }
        var pending := deferred.value;
        var i := 0;
        while i < |pending|
          invariant 0 <= i <= |pending|
          invariant q == old(queue) + [Update(File, data)] + Replayed(pending[..i])
        {
          assert Replayed(pending[..i + 1]) == Replayed(pending[..i]) + [Input(pending[i])];
          q := q + [Input(pending[i])];
          i := i + 1;
        }
        assert pending[..i] == pending;
        queue := q;
      }
      deferred := None;
      loader := None;
    }

    method OnLoaded()
      requires Valid()
      modifies this
      ensures Valid() && scene == old(scene)
      ensures Value() == PlayerState(Subscribed(old(Ui())), old(Render()))
    {
      handlers := handlers + 1;
    }

    /** The window's visibility changed: each subscribed handler runs once. */
    method OnVisibilityChanged(visible: bool)
      requires Valid()
      modifies this
      ensures Valid() && scene == old(scene)
      ensures Value() == PlayerState(VisibilityChanged(old(Ui()), visible), old(Render()))
    {
      var k := 0;
      while k < handlers
        invariant 0 <= k <= handlers == old(handlers)
        invariant scene == old(scene) && Valid()
        invariant Value() == PlayerState(HandlersRan(old(Ui()), visible, k), old(Render()))
      {
        invalToken := invalToken + 1;
        if visible {
          loops := loops + [invalToken];
          invalidations := invalidations + 1;
        }
        k := k + 1;
      }
    }

    /** Inval loop `i` wakes from its delay; returns whether it keeps running. */
    method InvalLoopResumed(i: nat) returns (running: bool)
      requires Valid() && i < |loops|
      modifies this
      ensures Valid() && scene == old(scene)
      ensures Value() == PlayerState(LoopResumed(old(Ui()), i), old(Render()))
      ensures running <==> old(loops[i] == invalToken)
    {
      running := loops[i] == invalToken;
      if running {
        invalidations := invalidations + 1;
      } else {
        loops := loops[..i] + loops[i + 1..];
      }
    }

    // --- Render thread -------------------------------------------------------

    method UpdateScene(level: UpdateLevel, data: Option<seq<byte>>)
      requires Valid()
      modifies scene, scene.native
      ensures Render() == SceneUpdated(env, old(Render()), level, data)
    {
      if level.Rank() >= File.Rank() {
        var _ := scene.LoadFile(data);
      }
      if level.Rank() >= Artboard.Rank() {
        var _ := scene.LoadArtboard(artboardName);
      }
      if Named(stateMachineName) {
        var _ := scene.LoadStateMachine(stateMachineName);
      } else if Named(animationName) {
        var _ := scene.LoadAnimation(animationName);
      } else {
        var ok := scene.LoadStateMachine(None);
        if !ok {
          var _ := scene.LoadAnimation(None);
        }
      }
    }

    method RunAction(a: Action) returns (raised: Option<InputNotFound>)
      requires Valid()
      modifies this, scene, scene.native
      ensures Valid() && Ui() == old(Ui())
      ensures scene == old(scene) || (fresh(scene) && fresh(scene.native))
      ensures Render() == ActionRun(env, old(Render()), a).render
      ensures raised == ActionRun(env, old(Render()), a).raised
    {
      raised := None;
      match a {
        case ResetScene =>
          scene := new Scene(env.importer);
          generation := generation + 1;
        case AssignArtboard(v) =>
          artboardName := v;
        case AssignStateMachine(v) =>
          stateMachineName := v;
        case AssignAnimation(v) =>
          animationName := v;
        case Update(level, data) =>
          UpdateScene(level, data);
        case Input(call) =>
          var o;
          match call {
            case SetBool(name, v) => o := scene.SetBool(name, v);
            case SetNumber(name, x) => o := scene.SetNumber(name, x);
            case FireTrigger(name) => o := scene.FireTrigger(name);
          }
          if o.Fail? {
            raised := Some(o.error);
          }
        case Pointer(kind, target, w, h, pos) =>
          var p := env.align(w, h, scene.Width(), scene.Height(), pos);
          if p.Some? && target == generation {
            match kind {
              case Pressed => scene.PointerDown(p.value);
              case Moved => scene.PointerMove(p.value);
              case Released => scene.PointerUp(p.value);
            }
          }
      }
    }

    /** The paint callback at time `now` (seconds since `DateTime.MinValue`). */
    method OnPaintSurface(now: real) returns (outcome: PaintOutcome)
      requires Valid()
      modifies this, scene, scene.native
      ensures Valid()
      ensures Value() == Painted(env, old(Value()), now)
      ensures outcome == PaintResult(env, old(Value()))
    {
      ghost var r0, q0 := Render(), queue;
      while queue != []
        invariant Valid()
        invariant scene == old(scene) || (fresh(scene) && fresh(scene.native))
        invariant Ui() == old(Ui()).(queue := queue)
        invariant Drained(env, r0, q0) == Drained(env, Render(), queue)
        decreases |queue|
      {
        var a := queue[0];
        queue := queue[1..];
        var raised := RunAction(a);
        if raised.Some? {
          return PaintRaised(raised.value);
        }
      }
      if !scene.isLoaded {
        return NotLoaded;
      }
      var elapsed := now - lastPaintTime;
      var _ := scene.AdvanceAndApply(elapsed);
      lastPaintTime := now;
      scene.Draw();
      outcome := Rendered;
    }
  }
}
