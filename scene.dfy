/**
  The managed `Scene` wrapper: a native scene plus the `_isLoaded` flag. Only
  the four load methods write the flag; the input setters consult it and raise
  when a loaded scene lacks the named input.
*/
module Scenes {
  import opened Wrappers
  import opened Runtime
  import opened NativeScenes

  /** A call of one of the three input setters, as queued by the players. */
  datatype InputCall =
    | SetBool(name: string, value: bool)
    | SetNumber(name: string, number: real)
    | FireTrigger(name: string)

  /** The exception the input setters raise: "... input 'name' not found." */
  datatype InputNotFound = BoolNotFound(name: string) | NumberNotFound(name: string) | TriggerNotFound(name: string)

  datatype SceneState = SceneState(isLoaded: bool, native: NativeState)

  /** A `new Scene()`: nothing loaded. */
  const NewScene := SceneState(false, Empty)

  /** The flag is only set while the native side holds a scene, and the native
      side keeps its ownership chain. */
  predicate Consistent(s: SceneState) {
    (s.isLoaded ==> s.native.scene.Some?) && Chained(s.native)
  }

  /** `LoadFile(byte[])`: null or empty data never reaches the native side. */
  function FileDataLoaded(importer: seq<byte> -> Option<RivFile>, s: SceneState, data: Option<seq<byte>>): SceneState {
    if data.None? || |data.value| == 0 then s.(isLoaded := false)
    else SceneState(false, FileLoaded(importer(data.value)))
  }

  function ArtboardNameLoaded(s: SceneState, name: Option<string>): SceneState {
    SceneState(false, ArtboardLoaded(s.native, name))
  }

  function StateMachineNameLoaded(s: SceneState, name: Option<string>): SceneState {
    var n := StateMachineLoaded(s.native, name);
    SceneState(n.scene.Some?, n)
  }

  function AnimationNameLoaded(s: SceneState, name: Option<string>): SceneState {
    var n := AnimationLoaded(s.native, name);
    SceneState(n.scene.Some?, n)
  }

  /** Whether the native side has an input of the call's name and kind. */
  predicate Finds(n: NativeState, call: InputCall) {
    match call
    case SetBool(name, _) => HasBool(n, name)
    case SetNumber(name, _) => HasNumber(n, name)
    case FireTrigger(name) => HasTrigger(n, name)
  }

  function NativeApplied(n: NativeState, call: InputCall): NativeState {
    match call
    case SetBool(name, v) => BoolSet(n, name, v)
    case SetNumber(name, x) => NumberSet(n, name, x)
    case FireTrigger(name) => TriggerFired(n, name)
  }

  /** The state after an input setter: the native call is made only when loaded. */
  function InputApplied(s: SceneState, call: InputCall): SceneState {
    if s.isLoaded then s.(native := NativeApplied(s.native, call)) else s
  }

  /** Whether an input setter raises. */
  predicate Raises(s: SceneState, call: InputCall) {
    s.isLoaded && !Finds(s.native, call)
  }

  function NotFound(call: InputCall): InputNotFound {
    match call
    case SetBool(name, _) => BoolNotFound(name)
    case SetNumber(name, _) => NumberNotFound(name)
    case FireTrigger(name) => TriggerNotFound(name)
  }

  /** Advance, draw and pointer calls go straight to the native side. */
  function Forwarded(s: SceneState, call: SceneCall): SceneState {
    s.(native := Recorded(s.native, call))
  }

  // ---------------------------------------------------------------------------
  // Properties.

  /** Every operation keeps the scene consistent. */
  lemma OperationsKeepConsistent(importer: seq<byte> -> Option<RivFile>, s: SceneState,
                                 data: Option<seq<byte>>, name: Option<string>,
                                 call: InputCall, c: SceneCall)
    requires Consistent(s)
    ensures Consistent(FileDataLoaded(importer, s, data))
    ensures Consistent(ArtboardNameLoaded(s, name))
    ensures Consistent(StateMachineNameLoaded(s, name))
    ensures Consistent(AnimationNameLoaded(s, name))
    ensures Consistent(InputApplied(s, call))
    ensures Consistent(Forwarded(s, c))
  {
    LoadsKeepChain(s.native, if data.Some? then importer(data.value) else None, name);
    match call {
      case SetBool(nm, b) => InputsKeepObjects(s.native, nm, b, 0.0, c);
      case SetNumber(nm, x) => InputsKeepObjects(s.native, nm, false, x, c);
      case FireTrigger(nm) => InputsKeepObjects(s.native, nm, false, 0.0, c);
    }
    InputsKeepObjects(s.native, "", false, 0.0, c);
  }

  /** The flag moves only in the four load methods; file and artboard loads
      always clear it, state-machine and animation loads set it to whether the
      native side now holds a scene. */
  lemma LoadedFlag(importer: seq<byte> -> Option<RivFile>, s: SceneState,
                   data: Option<seq<byte>>, name: Option<string>, call: InputCall, c: SceneCall)
    ensures !FileDataLoaded(importer, s, data).isLoaded
    ensures !ArtboardNameLoaded(s, name).isLoaded
    ensures StateMachineNameLoaded(s, name).isLoaded == StateMachineNameLoaded(s, name).native.scene.Some?
    ensures AnimationNameLoaded(s, name).isLoaded == AnimationNameLoaded(s, name).native.scene.Some?
    ensures InputApplied(s, call).isLoaded == s.isLoaded
    ensures Forwarded(s, c).isLoaded == s.isLoaded
  {
  }

  /** Null or empty data leaves the native side untouched. */
  lemma EmptyDataSkipsNative(importer: seq<byte> -> Option<RivFile>, s: SceneState, data: Option<seq<byte>>)
    requires data.None? || data.value == []
    ensures FileDataLoaded(importer, s, data) == SceneState(false, s.native)
  {
  }

  /** An input setter raises exactly when the scene is loaded and has no input
      of that name and kind; an unloaded scene ignores it entirely. */
  lemma InputsRaiseExactly(s: SceneState, call: InputCall)
    requires Consistent(s)
    ensures Raises(s, call) <==> s.isLoaded && !Finds(s.native, call)
    ensures !s.isLoaded ==> InputApplied(s, call) == s && !Raises(s, call)
    ensures Raises(s, call) ==> InputApplied(s, call) == s
  {
    if Raises(s, call) {
      match call {
        case SetBool(nm, b) => SettersChangeOnlyTheirInput(s.native, nm, b, 0.0);
        case SetNumber(nm, x) => SettersChangeOnlyTheirInput(s.native, nm, false, x);
        case FireTrigger(nm) => SettersChangeOnlyTheirInput(s.native, nm, false, 0.0);
      }
    }
  }

  // ---------------------------------------------------------------------------
  // The class.

  class Scene {
    var isLoaded: bool
    const native: NativeScene

    function State(): SceneState
      reads this, native
    {
      SceneState(isLoaded, native.State())
    }

    constructor (importer: seq<byte> -> Option<RivFile>)
      ensures State() == NewScene && fresh(native) && native.importer == importer
    {
      native := new NativeScene(importer);
      isLoaded := false;
    }

    method LoadFile(data: Option<seq<byte>>) returns (ok: bool)
      modifies this, native
      ensures State() == FileDataLoaded(native.importer, old(State()), data)
      ensures ok <==> data.Some? && |data.value| > 0 && native.file.Some?
    {
      isLoaded := false;
      if data.None? || |data.value| == 0 {
        return false;
      }
      ok := native.LoadFile(data.value);
    }

    method LoadArtboard(name: Option<string>) returns (ok: bool)
      modifies this, native
      ensures State() == ArtboardNameLoaded(old(State()), name)
      ensures ok <==> native.artboard.Some?
    {
      isLoaded := false;
      ok := native.LoadArtboard(name);
    }

    method LoadStateMachine(name: Option<string>) returns (ok: bool)
      modifies this, native
      ensures State() == StateMachineNameLoaded(old(State()), name)
      ensures ok == isLoaded
    {
      isLoaded := native.LoadStateMachine(name);
      ok := isLoaded;
    }

    method LoadAnimation(name: Option<string>) returns (ok: bool)
      modifies this, native
      ensures State() == AnimationNameLoaded(old(State()), name)
      ensures ok == isLoaded
    {
      isLoaded := native.LoadAnimation(name);
      ok := isLoaded;
    }

    method SetBool(name: string, value: bool) returns (o: Outcome<InputNotFound>)
      modifies native
      ensures State() == InputApplied(old(State()), InputCall.SetBool(name, value))
      ensures o.Fail? <==> Raises(old(State()), InputCall.SetBool(name, value))
      ensures o.Fail? ==> o.error == BoolNotFound(name)
    {
      o := Pass;
      if isLoaded {
        var found := native.SetBool(name, value);
        if !found {
          o := Fail(BoolNotFound(name));
        }
      }
    }

    method SetNumber(name: string, value: real) returns (o: Outcome<InputNotFound>)
      modifies native
      ensures State() == InputApplied(old(State()), InputCall.SetNumber(name, value))
      ensures o.Fail? <==> Raises(old(State()), InputCall.SetNumber(name, value))
      ensures o.Fail? ==> o.error == NumberNotFound(name)
    {
      o := Pass;
      if isLoaded {
        var found := native.SetNumber(name, value);
        if !found {
          o := Fail(NumberNotFound(name));
        }
      }
    }

    method FireTrigger(name: string) returns (o: Outcome<InputNotFound>)
      modifies native
      ensures State() == InputApplied(old(State()), InputCall.FireTrigger(name))
      ensures o.Fail? <==> Raises(old(State()), InputCall.FireTrigger(name))
      ensures o.Fail? ==> o.error == TriggerNotFound(name)
    {
      o := Pass;
      if isLoaded {
        var found := native.FireTrigger(name);
        if !found {
          o := Fail(TriggerNotFound(name));
        }
      }
    }

    /** `Scene_Width`: the native scene's width, 0 without a native scene. */
    function Width(): (w: real)
      reads this, native
      ensures native.scene.None? ==> w == 0.0
      ensures native.scene.Some? ==> w == native.scene.value.def.width
    {
      NativeScenes.Width(native.State())
    }

    /** `Scene_Height`: the native scene's height, 0 without a native scene. */
    function Height(): (h: real)
      reads this, native
      ensures native.scene.None? ==> h == 0.0
      ensures native.scene.Some? ==> h == native.scene.value.def.height
    {
      NativeScenes.Height(native.State())
    }

    /** True when `Draw()` should be called; never without a native scene. */
    method AdvanceAndApply(elapsedSeconds: real) returns (r: bool)
      modifies native
      ensures State() == Forwarded(old(State()), Advanced(elapsedSeconds))
      ensures r ==> old(native.scene).Some?
    {
      r := native.AdvanceAndApply(elapsedSeconds);
    }

    method Draw()
      modifies native
      ensures State() == Forwarded(old(State()), Drawn)
    {
      native.Draw();
    }

    method PointerDown(pos: Vec2D)
      modifies native
      ensures State() == Forwarded(old(State()), SceneCall.PointerDown(pos))
    {
      native.PointerDown(pos);
    }

    method PointerMove(pos: Vec2D)
      modifies native
      ensures State() == Forwarded(old(State()), SceneCall.PointerMove(pos))
    {
      native.PointerMove(pos);
    }

    method PointerUp(pos: Vec2D)
      modifies native
      ensures State() == Forwarded(old(State()), SceneCall.PointerUp(pos))
    {
      native.PointerUp(pos);
    }
  }
}
