/**
  Properties of the player pipeline: the render-thread drain and the update
  cascade, the loader bookkeeping kept by every UI-thread event, the inval
  loops, and the two traces on which the completion as written goes wrong.
*/
module PlayerTraces {
  import opened Wrappers
  import opened Runtime
  import opened NativeScenes
  import opened Scenes
  import opened Players

  // ---------------------------------------------------------------------------
  // The drain.

  /** Only an input setter can raise. */
  lemma OnlyInputsRaise(env: Env, r: RenderState, a: Action)
    ensures ActionRun(env, r, a).raised.Some? ==> a.Input? && Raises(r.scene, a.call)
    ensures ActionRun(env, r, a).raised.Some? ==> ActionRun(env, r, a).render == r
  {
  }

  /** The drain empties the queue unless an action raises; then the queue keeps
      exactly the actions behind the one that raised, which was an input. */
  lemma {:induction false} DrainedStopsOnlyOnRaise(env: Env, r: RenderState, q: seq<Action>)
    ensures var d := Drained(env, r, q); d.raised.None? ==> d.rest == []
    ensures var d := Drained(env, r, q);
      d.raised.Some? ==> |d.rest| < |q| && d.rest == q[|q| - |d.rest|..] && q[|q| - |d.rest| - 1].Input?
    decreases |q|
  {
    if q != [] {
      var step := ActionRun(env, r, q[0]);
      if step.raised.None? {
        DrainedStopsOnlyOnRaise(env, step.render, q[1..]);
        var d := Drained(env, step.render, q[1..]);
        if d.raised.Some? {
          assert q[1..][|q[1..]| - |d.rest|..] == q[|q| - |d.rest|..];
          assert q[1..][|q[1..]| - |d.rest| - 1] == q[|q| - |d.rest| - 1];
        }
      } else {
        OnlyInputsRaise(env, r, q[0]);
      }
    }
  }

  /** FIFO: draining `q1 + q2` is draining `q1` and then `q2`; when `q1` raises,
      `q2` stays queued behind what `q1` left. */
  lemma {:induction false} DrainedAppend(env: Env, r: RenderState, q1: seq<Action>, q2: seq<Action>)
    ensures var d := Drained(env, r, q1);
      d.raised.None? ==> Drained(env, r, q1 + q2) == Drained(env, d.render, q2)
    ensures var d := Drained(env, r, q1);
      d.raised.Some? ==> Drained(env, r, q1 + q2) == DrainResult(d.render, d.rest + q2, d.raised)
    decreases |q1|
  {
    if q1 == [] {
      assert q1 + q2 == q2;
    } else {
      assert (q1 + q2)[0] == q1[0];
      assert (q1 + q2)[1..] == q1[1..] + q2;
      var step := ActionRun(env, r, q1[0]);
      if step.raised.None? {
        DrainedAppend(env, step.render, q1[1..], q2);
      }
    }
  }

  /** Running any action keeps the scene consistent and never lowers the
      generation; only a reset makes a new scene. */
  lemma ActionKeepsConsistent(env: Env, r: RenderState, a: Action)
    requires Consistent(r.scene)
    ensures var t := ActionRun(env, r, a).render; Consistent(t.scene)
    ensures var t := ActionRun(env, r, a).render;
      t.generation == if a.ResetScene? then r.generation + 1 else r.generation
  {
    match a {
      case ResetScene =>
      case AssignArtboard(_) =>
      case AssignStateMachine(_) =>
      case AssignAnimation(_) =>
      case Update(level, data) => UpdateKeepsConsistent(env, r, level, data);
      case Input(call) => OperationsKeepConsistent(env.importer, r.scene, None, None, call, Drawn);
      case Pointer(kind, _, _, _, pos) =>
        OperationsKeepConsistent(env.importer, r.scene, None, None, InputCall.FireTrigger(""), PointerCall(kind, pos));
    }
  }

  lemma UpdateKeepsConsistent(env: Env, r: RenderState, level: UpdateLevel, data: Option<seq<byte>>)
    requires Consistent(r.scene)
    ensures Consistent(SceneUpdated(env, r, level, data).scene)
  {
    var c := InputCall.FireTrigger("");
    var s1 := if level.Rank() >= File.Rank() then FileDataLoaded(env.importer, r.scene, data) else r.scene;
    OperationsKeepConsistent(env.importer, r.scene, data, None, c, Drawn);
    var s2 := if level.Rank() >= Artboard.Rank() then ArtboardNameLoaded(s1, r.artboardName) else s1;
    OperationsKeepConsistent(env.importer, s1, None, r.artboardName, c, Drawn);
    OperationsKeepConsistent(env.importer, s2, None, r.stateMachineName, c, Drawn);
    OperationsKeepConsistent(env.importer, s2, None, r.animationName, c, Drawn);
    var t := StateMachineNameLoaded(s2, None);
    OperationsKeepConsistent(env.importer, s2, None, None, c, Drawn);
    OperationsKeepConsistent(env.importer, t, None, None, c, Drawn);
  }

  lemma {:induction false} DrainedKeepsConsistent(env: Env, r: RenderState, q: seq<Action>)
    requires Consistent(r.scene)
    ensures Consistent(Drained(env, r, q).render.scene)
    decreases |q|
  {
    if q != [] {
      ActionKeepsConsistent(env, r, q[0]);
      var step := ActionRun(env, r, q[0]);
      if step.raised.None? {
        DrainedKeepsConsistent(env, step.render, q[1..]);
      }
    }
  }

  /** A paint of a loaded scene advances it by the time since the previous
      drawn paint, then draws it, and remembers the time; otherwise nothing is
      asked of the scene after the drain. */
  lemma PaintAdvancesThenDraws(env: Env, p: PlayerState, now: real)
    requires Consistent(p.render.scene)
    ensures var d := Drained(env, p.render, p.ui.queue);
      var after := Painted(env, p, now).render;
      if d.raised.None? && d.render.scene.isLoaded then
        && after.scene.native.scene.Some?
        && after.scene.native.scene.value.calls
           == d.render.scene.native.scene.value.calls + [Advanced(now - d.render.lastPaintTime), Drawn]
        && after.lastPaintTime == now
      else after == d.render
    ensures Painted(env, p, now).ui == p.ui.(queue := Drained(env, p.render, p.ui.queue).rest)
    ensures PaintResult(env, p) == Rendered <==>
      Drained(env, p.render, p.ui.queue).raised.None? && Drained(env, p.render, p.ui.queue).render.scene.isLoaded
  {
    DrainedKeepsConsistent(env, p.render, p.ui.queue);
  }

  // ---------------------------------------------------------------------------
  // The update cascade.

  /** The scene the cascade picks from an artboard, written out directly: the
      named state machine, else the named animation, else the first state
      machine, else the first animation. */
  function Selection(ab: ArtboardDef, stateMachine: Option<string>, animation: Option<string>): Option<SceneDef> {
    if Named(stateMachine) then StateMachineFor(ab, stateMachine)
    else if Named(animation) then AnimationFor(ab, animation)
    else if ab.firstStateMachine.Some? then ab.firstStateMachine
    else ab.firstAnimation
  }

  /** What a full rebuild from `file` produces on the native side. */
  function Rebuilt(file: Option<RivFile>, r: RenderState): NativeState {
    var ab := if file.Some? then ArtboardFor(file.value, r.artboardName) else None;
    NativeState(file, ab, if ab.Some? then InstanceOf(Selection(ab.value, r.stateMachineName, r.animationName)) else None)
  }

  /** The File-level update rebuilds everything from the imported bytes, and
      the scene counts as loaded exactly when a scene was found. */
  lemma FileUpdateRebuilds(env: Env, r: RenderState, data: seq<byte>)
    requires |data| > 0
    ensures var t := SceneUpdated(env, r, File, Some(data));
      t.scene.native == Rebuilt(env.importer(data), r) && t.scene.isLoaded == t.scene.native.scene.Some?
    ensures SceneUpdated(env, r, File, Some(data)).generation == r.generation
  {
  }

  /** The Artboard-level update rebuilds from the file already loaded. */
  lemma ArtboardUpdateRebuilds(env: Env, r: RenderState)
    requires Consistent(r.scene)
    ensures var t := SceneUpdated(env, r, Artboard, None);
      t.scene.native == Rebuilt(r.scene.native.file, r) && t.scene.isLoaded == t.scene.native.scene.Some?
  {
  }

  /** The lowest level only re-selects within the artboard already loaded; with
      no artboard nothing is loaded. */
  lemma SelectionUpdateReselects(env: Env, r: RenderState)
    requires Consistent(r.scene)
    ensures var t := SceneUpdated(env, r, AnimationOrStateMachine, None);
      && t.scene.native.file == r.scene.native.file && t.scene.native.artboard == r.scene.native.artboard
      && t.scene.isLoaded == t.scene.native.scene.Some?
      && (r.scene.native.artboard.Some? ==>
            t.scene.native.scene == InstanceOf(Selection(r.scene.native.artboard.value, r.stateMachineName, r.animationName)))
      && (r.scene.native.artboard.None? ==> t.scene.native.scene == r.scene.native.scene && !t.scene.isLoaded)
  {
  }

  /** Null or empty file data leaves a scene without a file unloaded, as it is
      after the reset that precedes every load. */
  lemma EmptyFileUpdateUnloads(env: Env, r: RenderState, data: Option<seq<byte>>)
    requires Consistent(r.scene) && r.scene.native.file.None?
    requires data.None? || |data.value| == 0
    ensures !SceneUpdated(env, r, File, data).scene.isLoaded
  {
  }

  // ---------------------------------------------------------------------------
  // UI-thread events as one state machine.

  datatype Step =
    | SourceSetTo(source: Option<string>)
    | ArtboardSetTo(artboard: Option<string>)
    | StateMachineSetTo(stateMachine: Option<string>)
    | AnimationSetTo(animation: Option<string>)
    | InputRequested(call: InputCall)
    | PointerEvent(kind: PointerKind, viewWidth: real, viewHeight: real, position: Vec2D)
    | LoadFinished(token: nat, data: Option<seq<byte>>)
    | HandlerAdded
    | VisibilityTo(visible: bool)
    | LoopWoke(index: nat)
    | Paint(now: real)

  /** A completion can only come for a load in flight, and a wake-up only for a
      loop that is running. */
  predicate Enabled(p: PlayerState, st: Step) {
    match st
    case LoadFinished(token, _) => token in p.ui.loads.inFlight
    case LoopWoke(i) => i < |p.ui.loops|
    case _ => true
  }

  /** A UI-thread event; `generation` is the render thread's current scene. */
  function UiNext(u: UiState, generation: nat, st: Step): UiState
    requires !st.Paint? && (st.LoadFinished? ==> st.token in u.loads.inFlight) && (st.LoopWoke? ==> st.index < |u.loops|)
  {
    match st
    case SourceSetTo(v) => SourceSet(u, v)
    case ArtboardSetTo(v) => ArtboardSet(u, v)
    case StateMachineSetTo(v) => StateMachineSet(u, v)
    case AnimationSetTo(v) => AnimationSet(u, v)
    case InputRequested(call) => InputEnqueued(u, call)
    case PointerEvent(kind, w, h, pos) => PointerHandled(u, generation, kind, w, h, pos)
    case LoadFinished(token, data) => LoadCompleted(u, token, data)
    case HandlerAdded => Subscribed(u)
    case VisibilityTo(visible) => VisibilityChanged(u, visible)
    case LoopWoke(i) => LoopResumed(u, i)
  }

  function Next(env: Env, p: PlayerState, st: Step): PlayerState
    requires Enabled(p, st)
  {
    if st.Paint? then Painted(env, p, st.now) else p.(ui := UiNext(p.ui, p.render.generation, st))
  }

  /** The loader bookkeeping: a loader is active exactly while a deferred list
      exists; the active loader is the latest load and is not cancelled; every
      other load still in flight has been cancelled; the shadow source is the
      one the latest load fetches. */
  predicate LoadsValid(u: UiState) {
    var n := |u.loads.sources|;
    && (u.loader.Some? <==> u.deferred.Some?)
    && (u.loader.Some? ==> u.loader.value == n - 1 && u.loader.value in u.loads.inFlight)
    && (forall t :: t in u.loads.inFlight ==> t < n)
    && (forall t :: t in u.loads.cancelled ==> t < n)
    && (forall t :: t in u.loads.inFlight && t !in u.loads.cancelled ==> u.loader == Some(t))
    && (u.loader.Some? ==> u.loader.value !in u.loads.cancelled)
    && (n > 0 ==> u.source == u.loads.sources[n - 1])
  }

  /** The inval loops started so far carry increasing tokens, none ahead of the
      current one. */
  predicate LoopsValid(u: UiState) {
    && (forall i, j :: 0 <= i < j < |u.loops| ==> u.loops[i] < u.loops[j])
    && (forall i :: 0 <= i < |u.loops| ==> u.loops[i] <= u.invalToken)
  }

  predicate Inv(p: PlayerState) {
    LoadsValid(p.ui) && LoopsValid(p.ui) && Consistent(p.render.scene)
  }

  lemma InitialStatesValid()
    ensures Inv(PanelInitial) && Inv(RivePlayerInitial)
  {
  }

  lemma SourceChangedKeepsLoads(u: UiState, v: Option<string>)
    requires LoadsValid(u)
    ensures LoadsValid(SourceChanged(u, v))
  {
    var u' := SourceChanged(u, v);
    forall t | t in u.loads.inFlight
      ensures t in u'.loads.cancelled
    {
      if t !in u.loads.cancelled {
        assert u.loader == Some(t);
      }
    }
  }

  lemma CompletionKeepsLoads(u: UiState, token: nat, data: Option<seq<byte>>)
    requires LoadsValid(u) && token in u.loads.inFlight
    ensures LoadsValid(LoadCompleted(u, token, data))
  {
    if token !in u.loads.cancelled {
      assert u.loader == Some(token);
    }
  }

  lemma {:induction false} HandlersKeepLoops(u: UiState, visible: bool, k: nat)
    requires LoopsValid(u)
    ensures var u' := HandlersRan(u, visible, k);
      LoopsValid(u') && u'.invalToken == u.invalToken + k && u'.loads == u.loads
      && u'.loader == u.loader && u'.deferred == u.deferred && u'.source == u.source
  {
    if k > 0 {
      HandlersKeepLoops(u, visible, k - 1);
    }
  }

  lemma LoopResumedKeepsLoops(u: UiState, i: nat)
    requires LoopsValid(u) && i < |u.loops|
    ensures LoopsValid(LoopResumed(u, i))
  {
    var u' := LoopResumed(u, i);
    if u.loops[i] != u.invalToken {
      assert forall k :: 0 <= k < |u'.loops| ==> u'.loops[k] == if k < i then u.loops[k] else u.loops[k + 1];
    }
  }

  /** Every event keeps the invariant. */
  lemma NextKeepsInv(env: Env, p: PlayerState, st: Step)
    requires Inv(p) && Enabled(p, st)
    ensures Inv(Next(env, p, st))
  {
    if st.Paint? {
      DrainedKeepsConsistent(env, p.render, p.ui.queue);
      InvFrame(p.ui, Painted(env, p, st.now).ui);
    } else {
      UiNextKeepsInv(p.ui, p.render.generation, st);
    }
  }

  lemma UiNextKeepsInv(u: UiState, generation: nat, st: Step)
    requires LoadsValid(u) && LoopsValid(u)
    requires !st.Paint? && (st.LoadFinished? ==> st.token in u.loads.inFlight) && (st.LoopWoke? ==> st.index < |u.loops|)
    ensures LoadsValid(UiNext(u, generation, st)) && LoopsValid(UiNext(u, generation, st))
  {
    match st {
      case SourceSetTo(v) =>
        if u.source != v { SourceChangedKeepsLoads(u, v); }
      case LoadFinished(token, data) => CompletionKeepsLoads(u, token, data);
      case VisibilityTo(visible) => HandlersKeepLoops(u, visible, u.handlers);
      case LoopWoke(i) => LoopResumedKeepsLoops(u, i);
      case _ => RequestKeepsInv(u, generation, st);
    }
  }

  /** The name setters, input requests, pointer events and subscriptions keep
      the load bookkeeping and the loops as they were. */
  lemma RequestKeepsInv(u: UiState, generation: nat, st: Step)
    requires LoadsValid(u) && LoopsValid(u)
    requires st.ArtboardSetTo? || st.StateMachineSetTo? || st.AnimationSetTo? || st.InputRequested? || st.PointerEvent? || st.HandlerAdded?
    ensures LoadsValid(UiNext(u, generation, st)) && LoopsValid(UiNext(u, generation, st))
  {
    InvFrame(u, UiNext(u, generation, st));
  }

  /** The invariant reads only the source, the load bookkeeping, whether a
      deferred list exists, and the loops. */
  lemma InvFrame(u: UiState, u': UiState)
    requires LoadsValid(u) && LoopsValid(u)
    requires u'.source == u.source && u'.loader == u.loader && u'.deferred.Some? == u.deferred.Some? && u'.loads == u.loads
    requires u'.loops == u.loops && u'.invalToken == u.invalToken
    ensures LoadsValid(u') && LoopsValid(u')
  {
  }

  /** A sequence of events from a valid state. */
  function Run(env: Env, p: PlayerState, steps: seq<Step>): Option<PlayerState>
    decreases |steps|
  {
    if steps == [] then Some(p)
    else if !Enabled(p, steps[0]) then None
    else Run(env, Next(env, p, steps[0]), steps[1..])
  }

  lemma {:induction false} RunKeepsInv(env: Env, p: PlayerState, steps: seq<Step>)
    requires Inv(p)
    ensures Run(env, p, steps).Some? ==> Inv(Run(env, p, steps).value)
    decreases |steps|
  {
    if steps != [] && Enabled(p, steps[0]) {
      NextKeepsInv(env, p, steps[0]);
      RunKeepsInv(env, Next(env, p, steps[0]), steps[1..]);
    }
  }

  // ---------------------------------------------------------------------------
  // What the invariant buys.

  /** The completion never reaches the `foreach` over a null deferred list. */
  lemma CompletionNeverRaises(u: UiState, token: nat, data: Option<seq<byte>>)
    requires LoadsValid(u) && token in u.loads.inFlight
    ensures !CompletionRaises(u, token, data)
  {
    if token !in u.loads.cancelled {
      assert u.loader == Some(token);
    }
  }

  /** Only the latest load delivers: a completion that enqueues the file bytes
      is the one for the current source, and it replays every deferred input
      after the File update and in order. Any other completion only retires
      its token. */
  lemma OnlyLatestLoadDelivers(u: UiState, token: nat, data: Option<seq<byte>>)
    requires LoadsValid(u) && token in u.loads.inFlight
    ensures var u' := LoadCompleted(u, token, data);
      Delivers(u, token, data) ==>
        && token == |u.loads.sources| - 1 && u.loads.sources[token] == u.source
        && u.deferred.Some?
        && u'.queue == u.queue + [Update(File, data)] + Replayed(u.deferred.value)
        && u'.loader.None? && u'.deferred.None?
    ensures var u' := LoadCompleted(u, token, data);
      token != |u.loads.sources| - 1 ==> u' == u.(loads := u.loads.(inFlight := u.loads.inFlight - {token}))
  {
    if token !in u.loads.cancelled {
      assert u.loader == Some(token);
    }
  }

  /** While a load is in flight nothing the UI does reaches the scene except
      via the queue of names: inputs are deferred, pointer events dropped. */
  lemma LoadingDefersInputs(u: UiState, call: InputCall, g: nat, kind: PointerKind, w: real, h: real, pos: Vec2D)
    requires LoadsValid(u) && u.loader.Some?
    ensures InputEnqueued(u, call) == u.(deferred := Some(u.deferred.value + [call]))
    ensures PointerHandled(u, g, kind, w, h, pos) == u
  {
  }

  /** Inputs requested one after another on the UI thread. */
  function InputsEnqueued(u: UiState, calls: seq<InputCall>): UiState
    decreases |calls|
  {
    if calls == [] then u else InputsEnqueued(InputEnqueued(u, calls[0]), calls[1..])
  }

  /** During a load the requests only extend the deferred list, in order. */
  lemma {:induction false} InputsDeferredInOrder(u: UiState, calls: seq<InputCall>)
    requires u.deferred.Some?
    ensures InputsEnqueued(u, calls) == u.(deferred := Some(u.deferred.value + calls))
    decreases |calls|
  {
    if calls == [] {
      assert u.deferred.value + calls == u.deferred.value;
    } else {
      var u1 := InputEnqueued(u, calls[0]);
      assert u1 == u.(deferred := Some(u.deferred.value + [calls[0]]));
      InputsDeferredInOrder(u1, calls[1..]);
      assert u1.deferred.value + calls[1..] == u.deferred.value + calls;
    }
  }

  /** Inputs requested while a load runs reach the render thread after the
      file update, in the order they were requested, once that load
      completes with data. */
  lemma DeferredInputsReplayedInOrder(u: UiState, calls: seq<InputCall>, data: seq<byte>)
    requires LoadsValid(u) && u.loader.Some?
    ensures var u' := InputsEnqueued(u, calls);
      && LoadsValid(u') && u'.loader == u.loader
      && LoadCompleted(u', u.loader.value, Some(data)).queue
         == u.queue + [Update(File, Some(data))] + Replayed(u.deferred.value) + Replayed(calls)
  {
    InputsDeferredInOrder(u, calls);
    ReplayedAppend(u.deferred.value, calls);
  }

  /** Outside a load a pointer event queues exactly one action. Running it
      never raises and changes nothing but the scene. The native scene
      receives exactly one call, for the mapped position, when the view
      matrix inverts, the action's scene object is still the current one and
      a native scene exists; otherwise nothing changes. */
  lemma PointerForwarding(env: Env, u: UiState, r: RenderState, g: nat, kind: PointerKind, w: real, h: real, pos: Vec2D)
    ensures u.loader.None? ==> PointerHandled(u, g, kind, w, h, pos) == u.(queue := u.queue + [Pointer(kind, g, w, h, pos)])
    ensures var t := ActionRun(env, r, Pointer(kind, g, w, h, pos));
      t.raised.None? && t.render == r.(scene := t.render.scene)
    ensures var t := ActionRun(env, r, Pointer(kind, g, w, h, pos));
      var p := env.align(w, h, Width(r.scene.native), Height(r.scene.native), pos);
      if p.Some? && g == r.generation && r.scene.native.scene.Some? then
        && t.render.scene.isLoaded == r.scene.isLoaded
        && t.render.scene.native.scene.Some?
        && t.render.scene.native.scene.value.def == r.scene.native.scene.value.def
        && t.render.scene.native.scene.value.calls == r.scene.native.scene.value.calls + [PointerCall(kind, p.value)]
      else t.render == r
  {
  }

  /** A new artboard or state machine during a load drops the deferred inputs,
      so the completion replays nothing; a new animation keeps them. */
  lemma {:induction false} SelectionDuringLoadDropsInputs(u: UiState, v: Option<string>, data: seq<byte>)
    requires LoadsValid(u) && u.loader.Some?
    ensures var u' := ArtboardChanged(u, v);
      LoadCompleted(u', u.loader.value, Some(data)).queue == u.queue + [AssignArtboard(v), Update(File, Some(data))]
    ensures var u' := StateMachineChanged(u, v);
      LoadCompleted(u', u.loader.value, Some(data)).queue == u.queue + [AssignStateMachine(v), Update(File, Some(data))]
    ensures var u' := AnimationChanged(u, v);
      LoadCompleted(u', u.loader.value, Some(data)).queue
      == u.queue + [AssignAnimation(v), Update(File, Some(data))] + Replayed(u.deferred.value)
  {
    assert Replayed([]) == [];
  }

  /** At most one inval loop is current: only the newest can be. */
  lemma AtMostOneLoopRuns(u: UiState)
    requires LoopsValid(u)
    ensures forall i :: 0 <= i < |u.loops| - 1 ==> u.loops[i] < u.invalToken
  {
    forall i | 0 <= i < |u.loops| - 1
      ensures u.loops[i] < u.invalToken
    {
      assert u.loops[i] < u.loops[|u.loops| - 1];
    }
  }

  /** Hiding the window ends every inval loop (once each wakes up); showing it
      leaves exactly the newest loop current. */
  lemma VisibilityControlsLoops(u: UiState)
    requires LoopsValid(u) && u.handlers > 0
    ensures var u' := VisibilityChanged(u, false);
      forall i :: 0 <= i < |u'.loops| ==> u'.loops[i] != u'.invalToken
    ensures var u' := VisibilityChanged(u, true);
      |u'.loops| > 0 && u'.loops[|u'.loops| - 1] == u'.invalToken
  {
    HandlersKeepLoops(u, false, u.handlers);
    HiddenLoops(u, u.handlers);
    HandlersKeepLoops(u, true, u.handlers - 1);
  }

  lemma {:induction false} HiddenLoops(u: UiState, k: nat)
    requires LoopsValid(u)
    ensures HandlersRan(u, false, k).loops == u.loops
    ensures HandlersRan(u, false, k).invalToken == u.invalToken + k
  {
    if k > 0 {
      HiddenLoops(u, k - 1);
    }
  }

  // ---------------------------------------------------------------------------
  // The completion as written.

  const A: Option<string> := Some("a.riv")
  const B: Option<string> := Some("b.riv")
  const C: Option<string> := Some("c.riv")

  /** Source A, then source B, then A's (cancelled) completion: as written it
      nulls the deferred list that B's load owns, and B's completion with data
      then throws in the replay loop. The intended completion leaves B intact. */
  lemma SupersededCompletionBreaksNewerLoad(data: seq<byte>)
    ensures var u2 := SourceChanged(SourceChanged(RivePlayerInitial.ui, A), B);
      var u3 := LoadCompletedAsWritten(u2, 0, Some(data));
      u3.loader.None? && u3.deferred.None? && CompletionRaises(u3, 1, Some(data))
    ensures var u2 := SourceChanged(SourceChanged(RivePlayerInitial.ui, A), B);
      var u3 := LoadCompleted(u2, 0, Some(data));
      u3.loader == Some(1) && !CompletionRaises(u3, 1, Some(data))
  {
  }

  /** Source A, source B, A's completion, source C: as written the loader is
      null when C starts, so B is never cancelled; if C completes first and B
      after, B's stale bytes are the last File update queued while the source
      is C. */
  lemma StaleLoadOverridesNewer(dataB: seq<byte>, dataC: seq<byte>)
    ensures var u2 := SourceChanged(SourceChanged(RivePlayerInitial.ui, A), B);
      var u4 := SourceChanged(LoadCompletedAsWritten(u2, 0, None), C);
      var u6 := LoadCompletedAsWritten(LoadCompletedAsWritten(u4, 2, Some(dataC)), 1, Some(dataB));
      && 1 !in u4.loads.cancelled
      && u6.source == C && u6.loads.sources[1] == B
      && u6.queue[|u6.queue| - 1] == Update(File, Some(dataB))
  {
    var u2 := SourceChanged(SourceChanged(RivePlayerInitial.ui, A), B);
    var u4 := SourceChanged(LoadCompletedAsWritten(u2, 0, None), C);
    assert u4.loads.cancelled == {0};
  }

  /** The same events with the intended completion: C's load cancels B's,
      whose completion then changes nothing but its own bookkeeping. */
  lemma StaleLoadIgnoredWhenGuarded(dataB: seq<byte>, dataC: seq<byte>)
    ensures var u2 := SourceChanged(SourceChanged(RivePlayerInitial.ui, A), B);
      var u4 := SourceChanged(LoadCompleted(u2, 0, None), C);
      var u5 := LoadCompleted(u4, 2, Some(dataC));
      var u6 := LoadCompleted(u5, 1, Some(dataB));
      && 1 in u4.loads.cancelled
      && u6.queue == u5.queue
      && u6.queue[|u6.queue| - 1] == Update(File, Some(dataC))
  {
    var u2 := SourceChanged(SourceChanged(RivePlayerInitial.ui, A), B);
    var u3 := LoadCompleted(u2, 0, None);
    assert u3.loader == Some(1);
    var u4 := SourceChanged(u3, C);
    assert u4.loads.cancelled == {0, 1};
  }
}
