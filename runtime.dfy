/**
  The rive runtime objects that the scene wrapper drives, seen only through the
  interface it uses: a file made of artboards, an artboard offering state
  machines and animations, and a scene instance whose inputs can be set.
  Named lookups may fail; the default and index-0 lookups may find nothing.
*/
module Runtime {
  import opened Wrappers

  newtype byte = x: int | 0 <= x < 256

  datatype Vec2D = Vec2D(x: real, y: real)

  /** A state machine or linear animation as the artboard defines it. For an
      animation the runtime reports no inputs. */
  datatype SceneDef = SceneDef(
    name: string,
    width: real,
    height: real,
    durationSeconds: real,
    loop: int,
    translucent: bool,
    bools: map<string, bool>,
    numbers: map<string, real>,
    triggers: set<string>)

  datatype ArtboardDef = ArtboardDef(
    stateMachines: map<string, SceneDef>,
    firstStateMachine: Option<SceneDef>,
    animations: map<string, SceneDef>,
    firstAnimation: Option<SceneDef>)

  datatype RivFile = RivFile(
    artboards: map<string, ArtboardDef>,
    defaultArtboard: Option<ArtboardDef>)

  /** What a scene instance has been asked to do since it was created. */
  datatype SceneCall =
    | Fired(trigger: string)
    | Advanced(elapsedSeconds: real)
    | Drawn
    | PointerDown(pos: Vec2D)
    | PointerMove(pos: Vec2D)
    | PointerUp(pos: Vec2D)

  /** A live scene: its definition, the current input values and its history. */
  datatype SceneInstance = SceneInstance(
    def: SceneDef,
    bools: map<string, bool>,
    numbers: map<string, real>,
    calls: seq<SceneCall>)

  /** The C++ test `name && name[0]` and the C# `!String.IsNullOrEmpty(name)`. */
  predicate Named(name: Option<string>) {
    name.Some? && |name.value| > 0
  }

  function Lookup<T>(m: map<string, T>, name: string): (r: Option<T>)
    ensures r.Some? <==> name in m
    ensures r.Some? ==> r.value == m[name]
  {
    if name in m then Some(m[name]) else None
  }

  /** A fresh instance of a scene: every input at its initial value. */
  function Instantiate(def: SceneDef): (sc: SceneInstance)
    ensures sc.def == def && sc.calls == []
    ensures sc.bools.Keys == def.bools.Keys && sc.numbers.Keys == def.numbers.Keys
  {
    SceneInstance(def, def.bools, def.numbers, [])
  }

  /** `artboardNamed(name)` for a non-empty name, else `artboardDefault()`. */
  function ArtboardFor(f: RivFile, name: Option<string>): Option<ArtboardDef> {
    if Named(name) then Lookup(f.artboards, name.value) else f.defaultArtboard
  }

  /** `stateMachineNamed(name)` for a non-empty name, else `stateMachineAt(0)`. */
  function StateMachineFor(ab: ArtboardDef, name: Option<string>): Option<SceneDef> {
    if Named(name) then Lookup(ab.stateMachines, name.value) else ab.firstStateMachine
  }

  /** `animationNamed(name)` for a non-empty name, else `animationAt(0)`. */
  function AnimationFor(ab: ArtboardDef, name: Option<string>): Option<SceneDef> {
    if Named(name) then Lookup(ab.animations, name.value) else ab.firstAnimation
  }

  function InstanceOf(def: Option<SceneDef>): Option<SceneInstance> {
    if def.Some? then Some(Instantiate(def.value)) else None
  }

  /** The artboard belongs to the file: it is one of its artboards or its default. */
  predicate ArtboardIn(f: RivFile, ab: ArtboardDef) {
    ab in f.artboards.Values || f.defaultArtboard == Some(ab)
  }

  /** The scene was instantiated from one of the artboard's state machines or animations. */
  predicate SceneIn(ab: ArtboardDef, def: SceneDef) {
    || def in ab.stateMachines.Values || ab.firstStateMachine == Some(def)
    || def in ab.animations.Values || ab.firstAnimation == Some(def)
  }

  lemma ArtboardForIn(f: RivFile, name: Option<string>)
    ensures ArtboardFor(f, name).Some? ==> ArtboardIn(f, ArtboardFor(f, name).value)
  {
    if Named(name) && name.value in f.artboards {
      assert f.artboards[name.value] in f.artboards.Values;
    }
  }

  lemma StateMachineForIn(ab: ArtboardDef, name: Option<string>)
    ensures StateMachineFor(ab, name).Some? ==> SceneIn(ab, StateMachineFor(ab, name).value)
  {
    if Named(name) && name.value in ab.stateMachines {
      assert ab.stateMachines[name.value] in ab.stateMachines.Values;
    }
  }

  lemma AnimationForIn(ab: ArtboardDef, name: Option<string>)
    ensures AnimationFor(ab, name).Some? ==> SceneIn(ab, AnimationFor(ab, name).value)
  {
    if Named(name) && name.value in ab.animations {
      assert ab.animations[name.value] in ab.animations.Values;
    }
  }
}
