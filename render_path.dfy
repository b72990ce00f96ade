/**
  `RenderPath`: an `SKPath` built from a point array and a verb stream, the
  encoding rive's native path uses. The constructor reads the verbs in order,
  each taking its points consecutively from the array, and fails on an
  unknown verb, on running out of points, or on leaving points unused.
*/
module RenderPaths {
  import opened Wrappers
  import Skia
  import Runtime

  /** The managed `FillRule` codes. */
  const NonZero := 0
  const EvenOdd := 1

  /** `SKPathVerb` codes. */
  const MoveVerb: int := 0
  const LineVerb: int := 1
  const QuadVerb: int := 2
  const ConicVerb: int := 3
  const CubicVerb: int := 4
  const CloseVerb: int := 5
  const DoneVerb: int := 6

  datatype PathError =
    | InvalidFillRule(rule: int)   // InvalidEnumArgumentException
    | InvalidVerb                  // "invalid path verb"
    | IndexOutOfRange              // pts[ptsIdx] past the end of the array
    | InvalidPointCount            // "invalid number of points"

  /** What the path records, in order. */
  datatype PathCommand =
    | MoveTo(p: Skia.SKPoint)
    | LineTo(p: Skia.SKPoint)
    | QuadTo(c: Skia.SKPoint, p: Skia.SKPoint)
    | CubicTo(c1: Skia.SKPoint, c2: Skia.SKPoint, p: Skia.SKPoint)
    | Close

  function ToSKPathFillType(rule: int): (r: Result<Skia.SKPathFillType, PathError>)
    ensures r.Success? <==> rule == NonZero || rule == EvenOdd
    ensures rule == NonZero ==> r == Success(Skia.Winding)
    ensures rule == EvenOdd ==> r == Success(Skia.SKPathFillType.EvenOdd)
    ensures r.Failure? ==> r.error == InvalidFillRule(rule)
  {
    if rule == NonZero then Success(Skia.Winding)
    else if rule == EvenOdd then Success(Skia.SKPathFillType.EvenOdd)
    else Failure(InvalidFillRule(rule))
  }

  /** The verbs the constructor handles; Conic, Done and any other byte are not. */
  predicate Known(v: int) {
    v == MoveVerb || v == LineVerb || v == QuadVerb || v == CubicVerb || v == CloseVerb
  }

  /** How many points a verb takes from the array. */
  function Arity(v: int): nat {
    if v == MoveVerb || v == LineVerb then 1
    else if v == QuadVerb then 2
    else if v == CubicVerb then 3
    else 0
  }

  /** The command verb `v` records from its points. */
  function Command(v: int, ps: seq<Skia.SKPoint>): PathCommand
    requires Known(v) && |ps| == Arity(v)
  {
    if v == MoveVerb then MoveTo(ps[0])
    else if v == LineVerb then LineTo(ps[0])
    else if v == QuadVerb then QuadTo(ps[0], ps[1])
    else if v == CubicVerb then CubicTo(ps[0], ps[1], ps[2])
    else Close
  }

  /** How many points the first `n` verbs take. */
  function Offset(verbs: seq<Runtime.byte>, n: nat): nat
    requires n <= |verbs|
  {
    if n == 0 then 0 else Offset(verbs, n - 1) + Arity(verbs[n - 1] as int)
  }

  /** Whether verb `k` is known and finds its points in the array. */
  predicate Fits(pts: seq<Skia.SKPoint>, verbs: seq<Runtime.byte>, k: nat)
    requires k < |verbs|
  {
    Known(verbs[k] as int) && Offset(verbs, k) + Arity(verbs[k] as int) <= |pts|
  }

  /** The command verb `k` records: its points are the ones right after those
      of the verbs before it. */
  function CommandAt(pts: seq<Skia.SKPoint>, verbs: seq<Runtime.byte>, k: nat): PathCommand
    requires k < |verbs| && Fits(pts, verbs, k)
  {
    Command(verbs[k] as int, pts[Offset(verbs, k)..Offset(verbs, k) + Arity(verbs[k] as int)])
  }

  /** One `case` of the constructor's `switch`, the verb read at `ptsIdx`:
      its command and how many points it takes, or the exception it raises. */
  function VerbStep(pts: seq<Skia.SKPoint>, ptsIdx: nat, v: int): Result<(PathCommand, nat), PathError> {
    if !Known(v) then Failure(InvalidVerb)
    else if ptsIdx + Arity(v) > |pts| then Failure(IndexOutOfRange)
    else Success((Command(v, pts[ptsIdx..ptsIdx + Arity(v)]), Arity(v)))
  }

  datatype Progress = Progress(commands: seq<PathCommand>, ptsIdx: nat)

  /** The state of the `foreach` after the first `n` verbs: the commands
      recorded and `ptsIdx`, or the exception that ended it. */
  function Walk(pts: seq<Skia.SKPoint>, verbs: seq<Runtime.byte>, n: nat): Result<Progress, PathError>
    requires n <= |verbs|
  {
    if n == 0 then Success(Progress([], 0))
    else
      var prev := Walk(pts, verbs, n - 1);
      if prev.Failure? then prev
      else
        var step := VerbStep(pts, prev.value.ptsIdx, (verbs[n - 1] as int));
        if step.Failure? then Failure(step.error)
        else Success(Progress(prev.value.commands + [step.value.0], prev.value.ptsIdx + step.value.1))
  }

  /** The constructor: the fill type first, then the verbs, then the count. */
  function Built(pts: seq<Skia.SKPoint>, verbs: seq<Runtime.byte>, rule: int): Result<(Skia.SKPathFillType, seq<PathCommand>), PathError> {
    var fill := ToSKPathFillType(rule);
    if fill.Failure? then Failure(fill.error)
    else
      var w := Walk(pts, verbs, |verbs|);
      if w.Failure? then Failure(w.error)
      else if w.value.ptsIdx != |pts| then Failure(InvalidPointCount)
      else Success((fill.value, w.value.commands))
  }

  // ---------------------------------------------------------------------------
  // Properties.

  /** A walk that gets through `n` verbs has recorded one command per verb and
      stands at the points those verbs take. */
  lemma {:induction false} WalkCounts(pts: seq<Skia.SKPoint>, verbs: seq<Runtime.byte>, n: nat)
    requires n <= |verbs|
    ensures Walk(pts, verbs, n).Success? ==>
      |Walk(pts, verbs, n).value.commands| == n && Walk(pts, verbs, n).value.ptsIdx == Offset(verbs, n) <= |pts|
  {
    if n > 0 {
      WalkCounts(pts, verbs, n - 1);
    }
  }

  /** The walk gets through `n` verbs exactly when each of them fits. */
  lemma {:induction false} WalkSucceeds(pts: seq<Skia.SKPoint>, verbs: seq<Runtime.byte>, n: nat)
    requires n <= |verbs|
    ensures Walk(pts, verbs, n).Success? <==> forall k :: 0 <= k < n ==> Fits(pts, verbs, k)
  {
    if n > 0 {
      WalkSucceeds(pts, verbs, n - 1);
      WalkCounts(pts, verbs, n - 1);
      assert (forall k :: 0 <= k < n ==> Fits(pts, verbs, k)) <==>
        (forall k :: 0 <= k < n - 1 ==> Fits(pts, verbs, k)) && Fits(pts, verbs, n - 1);
    }
  }

  /** Command `k` of a walk through `n` verbs is the one verb `k` records. */
  lemma {:induction false} WalkRecords(pts: seq<Skia.SKPoint>, verbs: seq<Runtime.byte>, n: nat, k: nat)
    requires k < n <= |verbs|
    requires Walk(pts, verbs, n).Success?
    ensures Fits(pts, verbs, k)
    ensures |Walk(pts, verbs, n).value.commands| == n
    ensures Walk(pts, verbs, n).value.commands[k] == CommandAt(pts, verbs, k)
  {
    WalkSucceeds(pts, verbs, n);
    WalkCounts(pts, verbs, n);
    WalkCounts(pts, verbs, n - 1);
    if k < n - 1 {
      WalkRecords(pts, verbs, n - 1, k);
    }
  }

  /** The first verb that does not fit decides the exception: "invalid path
      verb" when it is unknown, an index error when it runs out of points. */
  lemma {:induction false} WalkFailsAtFirstMisfit(pts: seq<Skia.SKPoint>, verbs: seq<Runtime.byte>, n: nat, k: nat)
    requires k < n <= |verbs|
    requires forall j :: 0 <= j < k ==> Fits(pts, verbs, j)
    requires !Fits(pts, verbs, k)
    ensures Walk(pts, verbs, n) == Failure(if !Known(verbs[k] as int) then InvalidVerb else IndexOutOfRange)
  {
    if n == k + 1 {
      WalkSucceeds(pts, verbs, k);
      WalkCounts(pts, verbs, k);
    } else {
      WalkFailsAtFirstMisfit(pts, verbs, n - 1, k);
    }
  }

  /** Construction succeeds exactly when the fill rule is known, every verb
      fits and the verbs take all the points; the path then has that fill type
      and one command per verb, in order, with points taken consecutively. */
  lemma ConstructionSucceeds(pts: seq<Skia.SKPoint>, verbs: seq<Runtime.byte>, rule: int)
    ensures Built(pts, verbs, rule).Success? <==>
      && (rule == NonZero || rule == EvenOdd)
      && (forall k :: 0 <= k < |verbs| ==> Fits(pts, verbs, k))
      && Offset(verbs, |verbs|) == |pts|
    ensures var b := Built(pts, verbs, rule);
      b.Success? ==>
        && b.value.0 == ToSKPathFillType(rule).value
        && |b.value.1| == |verbs|
        && forall k :: 0 <= k < |verbs| ==> Fits(pts, verbs, k) && b.value.1[k] == CommandAt(pts, verbs, k)
  {
    WalkSucceeds(pts, verbs, |verbs|);
    WalkCounts(pts, verbs, |verbs|);
    var b := Built(pts, verbs, rule);
    if b.Success? {
      forall k | 0 <= k < |verbs|
        ensures Fits(pts, verbs, k) && b.value.1[k] == CommandAt(pts, verbs, k)
      {
        WalkRecords(pts, verbs, |verbs|, k);
      }
    }
  }

  /** Every verb known, with each fitting, is the same as the verbs' total not
      exceeding the points given. */
  lemma {:induction false} KnownVerbsFit(pts: seq<Skia.SKPoint>, verbs: seq<Runtime.byte>, n: nat)
    requires n <= |verbs|
    requires forall k :: 0 <= k < n ==> Known(verbs[k] as int)
    ensures (forall k :: 0 <= k < n ==> Fits(pts, verbs, k)) <==> Offset(verbs, n) <= |pts|
  {
    if n > 0 {
      KnownVerbsFit(pts, verbs, n - 1);
      assert (forall k :: 0 <= k < n ==> Fits(pts, verbs, k)) <==>
        (forall k :: 0 <= k < n - 1 ==> Fits(pts, verbs, k)) && Fits(pts, verbs, n - 1);
    }
  }

  /** The walk only ever raises the verb or the index error, and never the
      verb error while every verb is known. */
  lemma {:induction false} WalkErrors(pts: seq<Skia.SKPoint>, verbs: seq<Runtime.byte>, n: nat)
    requires n <= |verbs|
    ensures Walk(pts, verbs, n).Failure? ==>
      Walk(pts, verbs, n).error == InvalidVerb || Walk(pts, verbs, n).error == IndexOutOfRange
    ensures (forall k :: 0 <= k < n ==> Known(verbs[k] as int)) ==> Walk(pts, verbs, n) != Failure(InvalidVerb)
  {
    if n > 0 {
      WalkErrors(pts, verbs, n - 1);
    }
  }

  /** The exceptions: a fill rule outside the enum raises before any verb is
      read; known verbs that need more points than given raise an index error;
      known verbs that leave points over raise "invalid number of points". */
  lemma ConstructionErrors(pts: seq<Skia.SKPoint>, verbs: seq<Runtime.byte>, rule: int)
    ensures rule != NonZero && rule != EvenOdd ==> Built(pts, verbs, rule) == Failure(InvalidFillRule(rule))
    ensures (rule == NonZero || rule == EvenOdd) && (forall k :: 0 <= k < |verbs| ==> Known(verbs[k] as int)) ==>
      (Offset(verbs, |verbs|) > |pts| <==> Built(pts, verbs, rule) == Failure(IndexOutOfRange)) &&
      (Offset(verbs, |verbs|) < |pts| <==> Built(pts, verbs, rule) == Failure(InvalidPointCount))
  {
    WalkSucceeds(pts, verbs, |verbs|);
    WalkCounts(pts, verbs, |verbs|);
    WalkErrors(pts, verbs, |verbs|);
    if forall k :: 0 <= k < |verbs| ==> Known(verbs[k] as int) {
      KnownVerbsFit(pts, verbs, |verbs|);
    }
  }

  // ---------------------------------------------------------------------------
  // The class.

  class RenderPath {
    var fillType: Skia.SKPathFillType
    var commands: seq<PathCommand>

    /** The parameterless constructor: an empty path with Skia's default fill. */
    constructor Empty()
      ensures fillType == Skia.Winding && commands == []
    {
      fillType, commands := Skia.Winding, [];
    }

    /** `RenderPath(SKPoint[], byte[], FillRule)`; the object is only returned
        when the constructor completes. */
    static method Create(pts: array<Skia.SKPoint>, verbs: array<Runtime.byte>, rule: int) returns (r: Result<RenderPath, PathError>)
      ensures r.Failure? ==> Built(pts[..], verbs[..], rule) == Failure(r.error)
      ensures r.Success? ==> Built(pts[..], verbs[..], rule) == Success((r.value.fillType, r.value.commands)) && fresh(r.value)
    {
      var fill := ToSKPathFillType(rule);
      if fill.Failure? {
        return Failure(fill.error);
      }
      var path := new RenderPath.Empty();
      path.fillType := fill.value;
      ghost var ps, vs := pts[..], verbs[..];
      var ptsIdx: nat := 0;
      var i := 0;
      while i < verbs.Length
        invariant 0 <= i <= verbs.Length
        invariant ptsIdx <= pts.Length && Walk(ps, vs, i) == Success(Progress(path.commands, ptsIdx))
        invariant path.fillType == fill.value
      {
        var v := verbs[i] as int;
        assert v == vs[i] as int;
        var step := path.AddVerb(pts, ptsIdx, v);
        assert pts[..] == ps;
        if step.Failure? {
          WalkStops(ps, vs, i, |vs|);
          return Failure(step.error);
        }
        ptsIdx := step.value;
        i := i + 1;
      }
      if ptsIdx != pts.Length {
        return Failure(InvalidPointCount);
      }
      return Success(path);
    }

    /** The `switch` on one verb: records its command and returns the advanced
        `ptsIdx`, or the exception, with the path then left as it was. */
    method AddVerb(pts: array<Skia.SKPoint>, ptsIdx: nat, v: int) returns (next: Result<nat, PathError>)
      requires ptsIdx <= pts.Length
      modifies this
      ensures var step := VerbStep(pts[..], ptsIdx, v);
        && fillType == old(fillType)
        && (step.Success? ==> next == Success(ptsIdx + step.value.1) && commands == old(commands) + [step.value.0])
        && (step.Failure? ==> next == Failure(step.error) && commands == old(commands))
    {
      if v == MoveVerb {
        if ptsIdx >= pts.Length {
          return Failure(IndexOutOfRange);
        }
        commands := commands + [MoveTo(pts[ptsIdx])];
        next := Success(ptsIdx + 1);
      } else if v == LineVerb {
        if ptsIdx >= pts.Length {
          return Failure(IndexOutOfRange);
        }
        commands := commands + [LineTo(pts[ptsIdx])];
        next := Success(ptsIdx + 1);
      } else if v == QuadVerb {
        if ptsIdx + 1 >= pts.Length {
          return Failure(IndexOutOfRange);
        }
        commands := commands + [QuadTo(pts[ptsIdx], pts[ptsIdx + 1])];
        next := Success(ptsIdx + 2);
      } else if v == CubicVerb {
        if ptsIdx + 2 >= pts.Length {
          return Failure(IndexOutOfRange);
        }
        commands := commands + [CubicTo(pts[ptsIdx], pts[ptsIdx + 1], pts[ptsIdx + 2])];
        next := Success(ptsIdx + 3);
      } else if v == CloseVerb {
        commands := commands + [Close];
        next := Success(ptsIdx);
      } else {
        next := Failure(InvalidVerb);
      }
    }

    /** The `FillRule` setter: the same mapping, raising on an unknown code
        and then leaving the path as it was. */
    method SetFillRule(rule: int) returns (o: Outcome<PathError>)
      modifies this
      ensures var f := ToSKPathFillType(rule);
        if f.Success? then o.Pass? && fillType == f.value && commands == old(commands)
        else o == Fail(f.error) && fillType == old(fillType) && commands == old(commands)
    {
      var f := ToSKPathFillType(rule);
      if f.Failure? {
        return Fail(f.error);
      }
      fillType := f.value;
      o := Pass;
    }
  }

  /** Once the walk fails at some verb it stays failed. */
  lemma {:induction false} WalkStops(pts: seq<Skia.SKPoint>, verbs: seq<Runtime.byte>, i: nat, n: nat)
    requires i < n <= |verbs|
    requires Walk(pts, verbs, i + 1).Failure?
    ensures Walk(pts, verbs, n) == Walk(pts, verbs, i + 1)
    decreases n
  {
    if n > i + 1 {
      WalkStops(pts, verbs, i, n - 1);
    }
  }
}
