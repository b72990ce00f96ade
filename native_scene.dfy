/**
  `NativeScene` of the C++ interop layer: it owns a file, an artboard instance
  taken from that file and a scene instance taken from that artboard, and the
  `Scene_Native*` entry points forward to the scene only when one exists.
*/
module NativeScenes {
  import opened Wrappers
  import opened Runtime

  /** The three owning pointers `m_File`, `m_Artboard`, `m_Scene`. */
  datatype NativeState = NativeState(
    file: Option<RivFile>,
    artboard: Option<ArtboardDef>,
    scene: Option<SceneInstance>)

  const Empty := NativeState(None, None, None)

  /** The ownership chain: no file means no artboard, no artboard means no scene,
      and each present object comes from the one above it. */
  predicate Chained(n: NativeState) {
    && (n.artboard.Some? ==> n.file.Some? && ArtboardIn(n.file.value, n.artboard.value))
    && (n.scene.Some? ==> n.artboard.Some? && SceneIn(n.artboard.value, n.scene.value.def))
  }

  // ---------------------------------------------------------------------------
  // The state after each operation of the class.

  /** `loadFile`: scene and artboard are dropped, the import result is kept. */
  function FileLoaded(imported: Option<RivFile>): NativeState {
    NativeState(imported, None, None)
  }

  function ArtboardLoaded(n: NativeState, name: Option<string>): NativeState {
    n.(scene := None,
       artboard := if n.file.Some? then ArtboardFor(n.file.value, name) else n.artboard)
  }

  function StateMachineLoaded(n: NativeState, name: Option<string>): NativeState {
    if n.artboard.Some? then n.(scene := InstanceOf(StateMachineFor(n.artboard.value, name))) else n
  }

  function AnimationLoaded(n: NativeState, name: Option<string>): NativeState {
    if n.artboard.Some? then n.(scene := InstanceOf(AnimationFor(n.artboard.value, name))) else n
  }

  predicate HasBool(n: NativeState, name: string) {
    n.scene.Some? && name in n.scene.value.bools
  }

  predicate HasNumber(n: NativeState, name: string) {
    n.scene.Some? && name in n.scene.value.numbers
  }

  predicate HasTrigger(n: NativeState, name: string) {
    n.scene.Some? && name in n.scene.value.def.triggers
  }

  function BoolSet(n: NativeState, name: string, value: bool): NativeState {
    if HasBool(n, name) then
      n.(scene := Some(n.scene.value.(bools := n.scene.value.bools[name := value])))
    else n
  }

  function NumberSet(n: NativeState, name: string, value: real): NativeState {
    if HasNumber(n, name) then
      n.(scene := Some(n.scene.value.(numbers := n.scene.value.numbers[name := value])))
    else n
  }

  function TriggerFired(n: NativeState, name: string): NativeState {
    if HasTrigger(n, name) then Recorded(n, Fired(name)) else n
  }

  /** A call forwarded to the scene instance, or dropped when there is none. */
  function Recorded(n: NativeState, call: SceneCall): NativeState {
    if n.scene.Some? then n.(scene := Some(n.scene.value.(calls := n.scene.value.calls + [call]))) else n
  }

  // ---------------------------------------------------------------------------
  // The guarded accessors `Scene_NativeWidth` ... `Scene_NativeDurationSeconds`.

  function Width(n: NativeState): real {
    if n.scene.Some? then n.scene.value.def.width else 0.0
  }

  function Height(n: NativeState): real {
    if n.scene.Some? then n.scene.value.def.height else 0.0
  }

  function Loop(n: NativeState): int {
    if n.scene.Some? then n.scene.value.def.loop else 0
  }

  function IsTranslucent(n: NativeState): bool {
    n.scene.Some? && n.scene.value.def.translucent
  }

  function DurationSeconds(n: NativeState): real {
    if n.scene.Some? then n.scene.value.def.durationSeconds else 0.0
  }

  /** `Scene_NativeName` as intended: the name of the current scene, or "". */
  function Name(n: NativeState): string {
    if n.scene.Some? then n.scene.value.def.name else ""
  }

  /** `Scene_NativeName` as written: the name is kept in a function-local
      `static` thread-local string, which C++ initialises on the first call
      only; `cache` is that variable (None before its first initialisation).
      Returns the name and the new value of the variable. */
  function NameAsWritten(cache: Option<string>, n: NativeState): (r: (string, Option<string>))
    ensures cache.Some? ==> r.1 == cache
    ensures r.1.Some? <==> cache.Some? || n.scene.Some?
    ensures r.0 == "" || r.1 == Some(r.0)
    ensures cache.None? ==> r.0 == Name(n)
  {
    if n.scene.None? then ("", cache)
    else if cache.Some? then (cache.value, cache)
    else (n.scene.value.def.name, Some(n.scene.value.def.name))
  }

  // ---------------------------------------------------------------------------
  // Properties.

  /** Every load operation keeps the ownership chain. */
  lemma LoadsKeepChain(n: NativeState, imported: Option<RivFile>, name: Option<string>)
    requires Chained(n)
    ensures Chained(FileLoaded(imported))
    ensures Chained(ArtboardLoaded(n, name))
    ensures Chained(StateMachineLoaded(n, name))
    ensures Chained(AnimationLoaded(n, name))
  {
    if n.file.Some? { ArtboardForIn(n.file.value, name); }
    if n.artboard.Some? {
      StateMachineForIn(n.artboard.value, name);
      AnimationForIn(n.artboard.value, name);
    }
  }

  /** Setting inputs and forwarding calls never changes which file, artboard or
      scene definition is loaded, so the chain is kept too. */
  lemma InputsKeepObjects(n: NativeState, name: string, b: bool, x: real, call: SceneCall)
    ensures var m := BoolSet(n, name, b);
      m.file == n.file && m.artboard == n.artboard && m.scene.Some? == n.scene.Some?
      && (m.scene.Some? ==> m.scene.value.def == n.scene.value.def)
    ensures var m := NumberSet(n, name, x);
      m.file == n.file && m.artboard == n.artboard && m.scene.Some? == n.scene.Some?
      && (m.scene.Some? ==> m.scene.value.def == n.scene.value.def)
    ensures var m := TriggerFired(n, name);
      m.file == n.file && m.artboard == n.artboard && m.scene.Some? == n.scene.Some?
      && (m.scene.Some? ==> m.scene.value.def == n.scene.value.def)
    ensures var m := Recorded(n, call);
      m.file == n.file && m.artboard == n.artboard && m.scene.Some? == n.scene.Some?
      && (m.scene.Some? ==> m.scene.value.def == n.scene.value.def)
  {
  }

  /** The input setters report success, and change the input, exactly when a
      scene exists and has an input of that name and kind; nothing else moves. */
  lemma SettersChangeOnlyTheirInput(n: NativeState, name: string, b: bool, x: real)
    ensures HasBool(n, name) ==>
      BoolSet(n, name, b).scene.value.bools == n.scene.value.bools[name := b]
      && BoolSet(n, name, b).scene.value.numbers == n.scene.value.numbers
      && BoolSet(n, name, b).scene.value.calls == n.scene.value.calls
    ensures !HasBool(n, name) ==> BoolSet(n, name, b) == n
    ensures HasNumber(n, name) ==>
      NumberSet(n, name, x).scene.value.numbers == n.scene.value.numbers[name := x]
      && NumberSet(n, name, x).scene.value.bools == n.scene.value.bools
      && NumberSet(n, name, x).scene.value.calls == n.scene.value.calls
    ensures !HasNumber(n, name) ==> NumberSet(n, name, x) == n
    ensures HasTrigger(n, name) ==>
      TriggerFired(n, name).scene.value.calls == n.scene.value.calls + [Fired(name)]
    ensures !HasTrigger(n, name) ==> TriggerFired(n, name) == n
  {
  }

  /** Without a scene every accessor answers a neutral value and every
      forwarded call is dropped. */
  lemma NeutralWithoutScene(n: NativeState, call: SceneCall)
    requires n.scene.None?
    ensures Width(n) == 0.0 && Height(n) == 0.0 && DurationSeconds(n) == 0.0
    ensures Loop(n) == 0 && !IsTranslucent(n) && Name(n) == ""
    ensures Recorded(n, call) == n
  {
  }

  /** With a scene the accessors read the scene and forwarded calls reach it, in order. */
  lemma ForwardedWithScene(n: NativeState, call: SceneCall)
    requires n.scene.Some?
    ensures Width(n) == n.scene.value.def.width && Height(n) == n.scene.value.def.height
    ensures Loop(n) == n.scene.value.def.loop && IsTranslucent(n) == n.scene.value.def.translucent
    ensures DurationSeconds(n) == n.scene.value.def.durationSeconds && Name(n) == n.scene.value.def.name
    ensures Recorded(n, call).scene.value.calls == n.scene.value.calls + [call]
    ensures Recorded(n, call).scene.value.def == n.scene.value.def
  {
  }

  /** Two states on which every accessor gives the same answer. */
  predicate SameAnswers(m: NativeState, n: NativeState) {
    && Width(m) == Width(n) && Height(m) == Height(n) && Loop(m) == Loop(n)
    && IsTranslucent(m) == IsTranslucent(n) && DurationSeconds(m) == DurationSeconds(n) && Name(m) == Name(n)
  }

  /** The accessors read only the scene's definition: input setters and
      forwarded calls never change what they answer, and a file or artboard
      load makes them all neutral. */
  lemma AccessorsReadDefinition(n: NativeState, imported: Option<RivFile>, name: string, abName: Option<string>,
                                b: bool, x: real, call: SceneCall)
    ensures SameAnswers(BoolSet(n, name, b), n) && SameAnswers(NumberSet(n, name, x), n)
    ensures SameAnswers(TriggerFired(n, name), n) && SameAnswers(Recorded(n, call), n)
    ensures SameAnswers(FileLoaded(imported), Empty) && SameAnswers(ArtboardLoaded(n, abName), Empty)
  {
  }

  /** The cached name goes stale: after a first scene named "a" has been asked
      for its name, a second scene named "b" is reported as "a". */
  lemma NameGoesStale(a: SceneDef, b: SceneDef)
    requires a.name == "a" && b.name == "b"
    ensures var na := NativeState(None, None, Some(Instantiate(a)));
      var nb := NativeState(None, None, Some(Instantiate(b)));
      var first := NameAsWritten(None, na);
      first.0 == Name(na) && NameAsWritten(first.1, nb).0 == "a" != Name(nb)
  {
  }

  // ---------------------------------------------------------------------------
  // The class.

  class NativeScene {
    /** `File::import` with the factory this object was created with. */
    const importer: seq<byte> -> Option<RivFile>
    var file: Option<RivFile>
    var artboard: Option<ArtboardDef>
    var scene: Option<SceneInstance>

    function State(): NativeState
      reads this
    {
      NativeState(file, artboard, scene)
    }

    constructor (importer: seq<byte> -> Option<RivFile>)
      ensures State() == Empty && this.importer == importer
    {
      this.importer := importer;
      file, artboard, scene := None, None, None;
    }

    method LoadFile(bytes: seq<byte>) returns (ok: bool)
      modifies this
      ensures State() == FileLoaded(importer(bytes))
      ensures ok <==> file.Some?
    {
      scene := None;
      artboard := None;
      file := importer(bytes);
      ok := file.Some?;
    }

    method LoadStateMachine(name: Option<string>) returns (ok: bool)
      modifies this
      ensures State() == StateMachineLoaded(old(State()), name)
      ensures ok <==> scene.Some?
    {
      if artboard.Some? {
        scene := InstanceOf(StateMachineFor(artboard.value, name));
      }
      ok := scene.Some?;
    }

    method LoadArtboard(name: Option<string>) returns (ok: bool)
      modifies this
      ensures State() == ArtboardLoaded(old(State()), name)
      ensures ok <==> artboard.Some?
    {
      scene := None;
      if file.Some? {
        artboard := ArtboardFor(file.value, name);
      }
      ok := artboard.Some?;
    }

    method LoadAnimation(name: Option<string>) returns (ok: bool)
      modifies this
      ensures State() == AnimationLoaded(old(State()), name)
      ensures ok <==> scene.Some?
    {
      if artboard.Some? {
        scene := InstanceOf(AnimationFor(artboard.value, name));
      }
      ok := scene.Some?;
    }

    method SetBool(name: string, value: bool) returns (found: bool)
      modifies this
      ensures found <==> HasBool(old(State()), name)
      ensures State() == BoolSet(old(State()), name, value)
    {
      found := scene.Some? && name in scene.value.bools;
      if found {
        scene := Some(scene.value.(bools := scene.value.bools[name := value]));
      }
    }

    method SetNumber(name: string, value: real) returns (found: bool)
      modifies this
      ensures found <==> HasNumber(old(State()), name)
      ensures State() == NumberSet(old(State()), name, value)
    {
      found := scene.Some? && name in scene.value.numbers;
      if found {
        scene := Some(scene.value.(numbers := scene.value.numbers[name := value]));
      }
    }

    method FireTrigger(name: string) returns (found: bool)
      modifies this
      ensures found <==> HasTrigger(old(State()), name)
      ensures State() == TriggerFired(old(State()), name)
    {
      found := scene.Some? && name in scene.value.def.triggers;
      if found {
        scene := Some(scene.value.(calls := scene.value.calls + [Fired(name)]));
      }
    }

    /** `Scene_NativeAdvanceAndApply`: false without a scene; with one, whatever
        the runtime scene's own `advanceAndApply` answers (left open here). */
    method AdvanceAndApply(elapsedSeconds: real) returns (r: bool)
      modifies this
      ensures r ==> old(scene).Some?
      ensures State() == Recorded(old(State()), Advanced(elapsedSeconds))
    {
      r := false;
      if scene.Some? {
        scene := Some(scene.value.(calls := scene.value.calls + [Advanced(elapsedSeconds)]));
        r :| true;
      }
    }

    method Draw()
      modifies this
      ensures State() == Recorded(old(State()), Drawn)
    {
      if scene.Some? {
        scene := Some(scene.value.(calls := scene.value.calls + [Drawn]));
      }
    }

    method PointerDown(pos: Vec2D)
      modifies this
      ensures State() == Recorded(old(State()), SceneCall.PointerDown(pos))
    {
      if scene.Some? {
        scene := Some(scene.value.(calls := scene.value.calls + [SceneCall.PointerDown(pos)]));
      }
    }

    method PointerMove(pos: Vec2D)
      modifies this
      ensures State() == Recorded(old(State()), SceneCall.PointerMove(pos))
    {
      if scene.Some? {
        scene := Some(scene.value.(calls := scene.value.calls + [SceneCall.PointerMove(pos)]));
      }
    }

    method PointerUp(pos: Vec2D)
      modifies this
      ensures State() == Recorded(old(State()), SceneCall.PointerUp(pos))
    {
      if scene.Some? {
        scene := Some(scene.value.(calls := scene.value.calls + [SceneCall.PointerUp(pos)]));
      }
    }
  }
}
