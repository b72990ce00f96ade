/**
  The XAML-declared state-machine inputs of a `RivePlayer` and the collection
  that binds them to it. Each input holds a non-owning reference to its player
  (a `WeakReference<RivePlayer>`, here `Option<PlayerId>` plus the set of
  players still alive) and forwards its value to the player whenever its
  target, its player or its value is set. A forwarded call is recorded in the
  input's `sent` log; on the player's side it is `Players.Player.SetBool`,
  `SetNumber` or `FireTrigger`.
*/
module Inputs {
  import opened Wrappers
  import opened Scenes

  /** Identifies a player; a weak reference resolves to it only while it is alive. */
  type PlayerId = nat

  datatype InputKind = BoolKind | NumberKind | TriggerKind

  /** A call made on a player through a resolved reference. */
  datatype Forward = Forward(player: PlayerId, call: InputCall)

  datatype InputState = InputState(
    kind: InputKind,
    target: Option<string>,
    player: Option<PlayerId>,
    boolValue: bool,
    numberValue: real,
    sent: seq<Forward>)

  /** A new input: no target, an empty reference and the property defaults. */
  function NewInput(kind: InputKind): InputState {
    InputState(kind, None, None, false, 0.0, [])
  }

  /** `_rivePlayer.TryGetTarget` succeeds. */
  predicate Live(s: InputState, alive: set<PlayerId>) {
    s.player.Some? && s.player.value in alive
  }

  /** The guard of `Apply()`: a non-empty target and a live player. */
  predicate Forwards(s: InputState, alive: set<PlayerId>) {
    s.target.Some? && |s.target.value| > 0 && Live(s, alive)
  }

  /** What the overridden `Apply(rivePlayer, inputName)` calls; triggers have
      no persistent value and call nothing. */
  function ValueCall(kind: InputKind, name: string, b: bool, x: real): Option<InputCall> {
    match kind
    case BoolKind => Some(InputCall.SetBool(name, b))
    case NumberKind => Some(InputCall.SetNumber(name, x))
    case TriggerKind => None
  }

  /** `Apply()`. */
  function Applied(s: InputState, alive: set<PlayerId>): InputState {
    if Forwards(s, alive) then
      var c := ValueCall(s.kind, s.target.value, s.boolValue, s.numberValue);
      if c.Some? then s.(sent := s.sent + [Forward(s.player.value, c.value)]) else s
    else s
  }

  /** The `Target` setter: store, then apply. */
  function TargetSet(s: InputState, t: Option<string>, alive: set<PlayerId>): InputState {
    Applied(s.(target := t), alive)
  }

  /** `SetRivePlayer`: replace the reference, then apply, with no equality check. */
  function PlayerSet(s: InputState, p: Option<PlayerId>, alive: set<PlayerId>): InputState {
    Applied(s.(player := p), alive)
  }

  /** Setting `BoolInput.Value`: the change callback, and so `Apply()`, runs
      only when the value differs. */
  function BoolValueSet(s: InputState, v: bool, alive: set<PlayerId>): InputState
    requires s.kind == BoolKind
  {
    if v == s.boolValue then s else Applied(s.(boolValue := v), alive)
  }

  /** Setting `NumberInput.Value`, likewise. */
  function NumberValueSet(s: InputState, x: real, alive: set<PlayerId>): InputState
    requires s.kind == NumberKind
  {
    if x == s.numberValue then s else Applied(s.(numberValue := x), alive)
  }

  /** `TriggerInput.Fire()`. */
  function Fired(s: InputState, alive: set<PlayerId>): InputState
    requires s.kind == TriggerKind
  {
    if Forwards(s, alive) then s.(sent := s.sent + [Forward(s.player.value, InputCall.FireTrigger(s.target.value))])
    else s
  }

  /** One thing done to an input, with the players alive at that moment. */
  datatype InputOp =
    | TargetTo(t: Option<string>, alive: set<PlayerId>)
    | PlayerTo(p: Option<PlayerId>, alive: set<PlayerId>)
    | BoolTo(b: bool, alive: set<PlayerId>)
    | NumberTo(x: real, alive: set<PlayerId>)
    | FireNow(alive: set<PlayerId>)

  /** The operation exists on an input of this kind. */
  predicate Offered(kind: InputKind, op: InputOp) {
    (op.BoolTo? ==> kind == BoolKind) && (op.NumberTo? ==> kind == NumberKind) && (op.FireNow? ==> kind == TriggerKind)
  }

  function OpApplied(s: InputState, op: InputOp): InputState
    requires Offered(s.kind, op)
  {
    match op
    case TargetTo(t, alive) => TargetSet(s, t, alive)
    case PlayerTo(p, alive) => PlayerSet(s, p, alive)
    case BoolTo(b, alive) => BoolValueSet(s, b, alive)
    case NumberTo(x, alive) => NumberValueSet(s, x, alive)
    case FireNow(alive) => Fired(s, alive)
  }

  function Run(s: InputState, ops: seq<InputOp>): InputState
    requires forall i :: 0 <= i < |ops| ==> Offered(s.kind, ops[i])
    decreases |ops|
  {
    if ops == [] then s
    else
      var t := OpApplied(s, ops[0]);
      assert t.kind == s.kind;
      Run(t, ops[1..])
  }

  /** The name a forwarded call addresses. */
  function CallName(c: InputCall): string {
    match c
    case SetBool(name, _) => name
    case SetNumber(name, _) => name
    case FireTrigger(name) => name
  }

  /** The call is one an input of this kind makes. */
  predicate OfKind(kind: InputKind, c: InputCall) {
    match c
    case SetBool(_, _) => kind == BoolKind
    case SetNumber(_, _) => kind == NumberKind
    case FireTrigger(_) => kind == TriggerKind
  }

  /** Everything sent named a non-empty input and was of the input's own kind
      (the player and input name "are guaranteed to not be null or empty"). */
  predicate SentWell(s: InputState) {
    forall i :: 0 <= i < |s.sent| ==> |CallName(s.sent[i].call)| > 0 && OfKind(s.kind, s.sent[i].call)
  }

  // ---------------------------------------------------------------------------
  // Properties.

  /** `Apply()` sends one call exactly when the target is non-empty, the player
      is live and the input has a value; the call carries the target and the
      current value to that player, and nothing else changes. */
  lemma ApplyForwardsExactly(s: InputState, alive: set<PlayerId>)
    ensures var a := Applied(s, alive);
      && a == s.(sent := a.sent)
      && (|a.sent| == |s.sent| + 1 <==> Forwards(s, alive) && s.kind != TriggerKind)
      && (|a.sent| == |s.sent| <==> !(Forwards(s, alive) && s.kind != TriggerKind))
      && a.sent[..|s.sent|] == s.sent
    ensures Forwards(s, alive) && s.kind == BoolKind ==>
      Applied(s, alive).sent == s.sent + [Forward(s.player.value, InputCall.SetBool(s.target.value, s.boolValue))]
    ensures Forwards(s, alive) && s.kind == NumberKind ==>
      Applied(s, alive).sent == s.sent + [Forward(s.player.value, InputCall.SetNumber(s.target.value, s.numberValue))]
  {
  }

  /** Every operation keeps what was sent well formed. */
  lemma OpsSendWell(s: InputState, op: InputOp)
    requires Offered(s.kind, op) && SentWell(s)
    ensures SentWell(OpApplied(s, op)) && OpApplied(s, op).kind == s.kind
  {
  }

  /** An input whose reference is empty sends nothing, whatever is done to it,
      until a player is attached; in particular a new input sends nothing
      before an attach. */
  lemma {:induction false} NothingSentUnattached(s: InputState, ops: seq<InputOp>)
    requires forall i :: 0 <= i < |ops| ==> Offered(s.kind, ops[i])
    requires s.player.None?
    requires forall i :: 0 <= i < |ops| ==> !(ops[i].PlayerTo? && ops[i].p.Some?)
    ensures Run(s, ops).sent == s.sent && Run(s, ops).player.None?
    decreases |ops|
  {
    if ops != [] {
      var t := OpApplied(s, ops[0]);
      assert t.sent == s.sent && t.player.None? && t.kind == s.kind;
      NothingSentUnattached(t, ops[1..]);
    }
  }

  lemma NewInputSendsNothing(kind: InputKind, ops: seq<InputOp>)
    requires forall i :: 0 <= i < |ops| ==> Offered(kind, ops[i])
    requires forall i :: 0 <= i < |ops| ==> !(ops[i].PlayerTo? && ops[i].p.Some?)
    ensures Run(NewInput(kind), ops).sent == []
  {
    NothingSentUnattached(NewInput(kind), ops);
  }

  /** Setting the same player again re-applies: despite the comment on
      `SetRivePlayer`, there is no equality check. */
  lemma ReattachReapplies(s: InputState, alive: set<PlayerId>)
    requires Forwards(s, alive) && s.kind != TriggerKind
    ensures PlayerSet(s, s.player, alive).sent == Applied(s, alive).sent
    ensures |PlayerSet(s, s.player, alive).sent| == |s.sent| + 1
  {
  }

  /** Storing a target applies with that new target. */
  lemma TargetThenApply(s: InputState, t: Option<string>, alive: set<PlayerId>)
    ensures TargetSet(s, t, alive).target == t
    ensures t.Some? && |t.value| > 0 && Live(s, alive) && s.kind == BoolKind ==>
      TargetSet(s, t, alive).sent == s.sent + [Forward(s.player.value, InputCall.SetBool(t.value, s.boolValue))]
    ensures (t.None? || t.value == []) ==> TargetSet(s, t, alive).sent == s.sent
  {
  }

  /** A changed value is sent at once to a live player; an unchanged one is
      not sent again. */
  lemma ValueChangesReapply(s: InputState, b: bool, x: real, alive: set<PlayerId>)
    ensures s.kind == BoolKind && b != s.boolValue && Forwards(s, alive) ==>
      BoolValueSet(s, b, alive).sent == s.sent + [Forward(s.player.value, InputCall.SetBool(s.target.value, b))]
    ensures s.kind == BoolKind && b == s.boolValue ==> BoolValueSet(s, b, alive) == s
    ensures s.kind == NumberKind && x != s.numberValue && Forwards(s, alive) ==>
      NumberValueSet(s, x, alive).sent == s.sent + [Forward(s.player.value, InputCall.SetNumber(s.target.value, x))]
    ensures s.kind == NumberKind && x == s.numberValue ==> NumberValueSet(s, x, alive) == s
  {
  }

  /** A trigger sends only when fired, and then exactly one `FireTrigger` of
      its target, when the target is non-empty and the player live. */
  lemma TriggersSendOnlyWhenFired(s: InputState, t: Option<string>, p: Option<PlayerId>, alive: set<PlayerId>)
    requires s.kind == TriggerKind
    ensures TargetSet(s, t, alive).sent == s.sent && PlayerSet(s, p, alive).sent == s.sent
    ensures Forwards(s, alive) ==> Fired(s, alive).sent == s.sent + [Forward(s.player.value, InputCall.FireTrigger(s.target.value))]
    ensures !Forwards(s, alive) ==> Fired(s, alive) == s
  {
  }

  /** A reference whose player has gone sends nothing. */
  lemma DeadPlayerGetsNothing(s: InputState, op: InputOp)
    requires Offered(s.kind, op) && s.player.Some? && !op.PlayerTo?
    requires s.player.value !in (match op
      case TargetTo(_, a) => a case PlayerTo(_, a) => a case BoolTo(_, a) => a
      case NumberTo(_, a) => a case FireNow(a) => a)
    ensures OpApplied(s, op).sent == s.sent
  {
  }

  // ---------------------------------------------------------------------------
  // The classes.

  class StateMachineInput {
    const kind: InputKind
    var target: Option<string>
    var player: Option<PlayerId>
    var boolValue: bool
    var numberValue: real
    var sent: seq<Forward>

    function State(): InputState
      reads this
    {
      InputState(kind, target, player, boolValue, numberValue, sent)
    }

    constructor (kind: InputKind)
      ensures State() == NewInput(kind)
    {
      this.kind := kind;
      target, player, boolValue, numberValue, sent := None, None, false, 0.0, [];
    }

    method SetTarget(t: Option<string>, alive: set<PlayerId>)
      modifies this
      ensures State() == TargetSet(old(State()), t, alive)
    {
      target := t;
      Apply(alive);
    }

    method SetRivePlayer(p: Option<PlayerId>, alive: set<PlayerId>)
      modifies this
      ensures State() == PlayerSet(old(State()), p, alive)
    {
      player := p;
      Apply(alive);
    }

    method Apply(alive: set<PlayerId>)
      modifies this
      ensures State() == Applied(old(State()), alive)
    {
      if target.Some? && |target.value| > 0 && player.Some? && player.value in alive {
        ApplyTo(player.value, target.value);
      }
    }

    /** The per-kind override; `TriggerInput`'s does nothing. */
    method ApplyTo(p: PlayerId, name: string)
      modifies this
      ensures var c := ValueCall(kind, name, boolValue, numberValue);
        State() == old(State()).(sent := old(sent) + if c.Some? then [Forward(p, c.value)] else [])
    {
      match kind {
        case BoolKind => sent := sent + [Forward(p, InputCall.SetBool(name, boolValue))];
        case NumberKind => sent := sent + [Forward(p, InputCall.SetNumber(name, numberValue))];
        case TriggerKind =>
      }
    }

    method SetBoolValue(v: bool, alive: set<PlayerId>)
      requires kind == BoolKind
      modifies this
      ensures State() == BoolValueSet(old(State()), v, alive)
    {
      if v != boolValue {
        boolValue := v;
        Apply(alive);
      }
    }

    method SetNumberValue(x: real, alive: set<PlayerId>)
      requires kind == NumberKind
      modifies this
      ensures State() == NumberValueSet(old(State()), x, alive)
    {
      if x != numberValue {
        numberValue := x;
        Apply(alive);
      }
    }

    method Fire(alive: set<PlayerId>)
      requires kind == TriggerKind
      modifies this
      ensures State() == Fired(old(State()), alive)
    {
      if target.Some? && |target.value| > 0 && player.Some? && player.value in alive {
        sent := sent + [Forward(player.value, InputCall.FireTrigger(target.value))];
      }
    }
  }

  datatype CollectionChange = Reset | ItemInserted | ItemRemoved | ItemChanged

  /** `sender[index]` outside the vector. */
  datatype IndexError = IndexOutOfRange(index: int)

  /** An input detached from its player: `SetRivePlayer(new WeakReference(null))`,
      which forwards nothing. */
  function Detached(s: InputState): InputState {
    s.(player := None)
  }

  lemma DetachIsPlayerSet(s: InputState, alive: set<PlayerId>)
    ensures PlayerSet(s, None, alive) == Detached(s)
    ensures Detached(Detached(s)) == Detached(s)
    ensures Detached(s).sent == s.sent
  {
  }

  class StateMachineInputCollection {
    /** The weak reference taken at construction. */
    const owner: PlayerId
    /** The vector's elements as the change event sees them. */
    var items: seq<StateMachineInput>

    constructor (owner: PlayerId)
      ensures this.owner == owner && items == []
    {
      this.owner := owner;
      items := [];
    }

    /** `InputsVectorChanged`: insertion or replacement attaches the element at
        the event's index to the owner, removal detaches it, and a reset
        detaches every element. */
    method InputsVectorChanged(change: CollectionChange, index: int, alive: set<PlayerId>) returns (o: Outcome<IndexError>)
      modifies set i | 0 <= i < |items| :: items[i]
      ensures items == old(items)
      ensures change != Reset && !(0 <= index < |items|) ==> o == Fail(IndexOutOfRange(index))
      ensures (change == ItemInserted || change == ItemChanged) && 0 <= index < |items| ==>
        o.Pass? && items[index].State() == PlayerSet(old(items[index].State()), Some(owner), alive) &&
        forall i :: 0 <= i < |items| && items[i] != items[index] ==> items[i].State() == old(items[i].State())
      ensures change == ItemRemoved && 0 <= index < |items| ==>
        o.Pass? && items[index].State() == Detached(old(items[index].State())) &&
        forall i :: 0 <= i < |items| && items[i] != items[index] ==> items[i].State() == old(items[i].State())
      ensures change == Reset ==>
        o.Pass? && forall i :: 0 <= i < |items| ==> items[i].State() == Detached(old(items[i].State()))
    {
      match change {
        case ItemInserted =>
          if !(0 <= index < |items|) {
            return Fail(IndexOutOfRange(index));
          }
          items[index].SetRivePlayer(Some(owner), alive);
          o := Pass;
        case ItemChanged =>
          if !(0 <= index < |items|) {
            return Fail(IndexOutOfRange(index));
          }
          items[index].SetRivePlayer(Some(owner), alive);
          o := Pass;
        case ItemRemoved =>
          if !(0 <= index < |items|) {
            return Fail(IndexOutOfRange(index));
          }
          items[index].SetRivePlayer(None, alive);
          o := Pass;
        case Reset =>
          var j := 0;
          while j < |items|
            invariant 0 <= j <= |items|
            invariant forall i :: 0 <= i < |items| ==>
              items[i].State() == old(items[i].State()) || items[i].State() == Detached(old(items[i].State()))
            invariant forall i :: 0 <= i < j ==> items[i].State() == Detached(old(items[i].State()))
          {
            items[j].SetRivePlayer(None, alive);
            j := j + 1;
          }
          o := Pass;
      }
    }

    /** The vector becomes `newItems` and raises `change` at `index`. */
    method Changed(newItems: seq<StateMachineInput>, change: CollectionChange, index: int, alive: set<PlayerId>)
      returns (o: Outcome<IndexError>)
      modifies this, set i | 0 <= i < |newItems| :: newItems[i]
      ensures items == newItems
      ensures change != Reset && !(0 <= index < |items|) ==> o == Fail(IndexOutOfRange(index))
      ensures (change == ItemInserted || change == ItemChanged) && 0 <= index < |items| ==>
        o.Pass? && items[index].State() == PlayerSet(old(newItems[index].State()), Some(owner), alive)
      ensures change == ItemRemoved && 0 <= index < |items| ==>
        o.Pass? && items[index].State() == Detached(old(newItems[index].State()))
      ensures change == Reset ==>
        o.Pass? && forall i :: 0 <= i < |items| ==> items[i].State() == Detached(old(newItems[i].State()))
    {
      items := newItems;
      o := InputsVectorChanged(change, index, alive);
    }
  }
}
