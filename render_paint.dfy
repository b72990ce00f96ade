/**
  `RenderPaint`: the managed paint the native renderer configures through
  callbacks. The native side passes enum values as plain integers, so each
  conversion is total over `int`: a code that names a member of the managed
  enum maps to the Skia value of the same name, and any other code raises.
*/
module RenderPaints {
  import opened Wrappers
  import Skia

  /** `InvalidEnumArgumentException("Invalid <enum> " + value)`. */
  datatype InvalidEnum = InvalidEnum(enumName: string, code: int)

  datatype RenderPaintStyle = Stroke | Fill {
    function Code(): int {
      match this
      case Stroke => 0
      case Fill => 1
    }
    function Name(): string {
      match this
      case Stroke => "Stroke"
      case Fill => "Fill"
    }
  }

  datatype StrokeJoin = Miter | Round | Bevel {
    function Code(): int {
      match this
      case Miter => 0
      case Round => 1
      case Bevel => 2
    }
    function Name(): string {
      match this
      case Miter => "Miter"
      case Round => "Round"
      case Bevel => "Bevel"
    }
  }

  datatype StrokeCap = Butt | Round | Square {
    function Code(): int {
      match this
      case Butt => 0
      case Round => 1
      case Square => 2
    }
    function Name(): string {
      match this
      case Butt => "Butt"
      case Round => "Round"
      case Square => "Square"
    }
  }

  datatype BlendMode =
    | SrcOver | Screen | Overlay | Darken | Lighten | ColorDodge | ColorBurn | HardLight
    | SoftLight | Difference | Exclusion | Multiply | Hue | Saturation | Color | Luminosity
  {
    function Code(): int {
      match this
      case SrcOver => 3
      case Screen => 14
      case Overlay => 15
      case Darken => 16
      case Lighten => 17
      case ColorDodge => 18
      case ColorBurn => 19
      case HardLight => 20
      case SoftLight => 21
      case Difference => 22
      case Exclusion => 23
      case Multiply => 24
      case Hue => 25
      case Saturation => 26
      case Color => 27
      case Luminosity => 28
    }
    function Name(): string {
      match this
      case SrcOver => "SrcOver"
      case Screen => "Screen"
      case Overlay => "Overlay"
      case Darken => "Darken"
      case Lighten => "Lighten"
      case ColorDodge => "ColorDodge"
      case ColorBurn => "ColorBurn"
      case HardLight => "HardLight"
      case SoftLight => "SoftLight"
      case Difference => "Difference"
      case Exclusion => "Exclusion"
      case Multiply => "Multiply"
      case Hue => "Hue"
      case Saturation => "Saturation"
      case Color => "Color"
      case Luminosity => "Luminosity"
    }
  }

  // ---------------------------------------------------------------------------
  // The four conversions.

  function ToSKPaintStyle(style: int): (r: Result<Skia.SKPaintStyle, InvalidEnum>)
    ensures r.Success? <==> exists s: RenderPaintStyle :: s.Code() == style
    ensures forall s: RenderPaintStyle :: s.Code() == style ==> r.Success? && r.value.Name() == s.Name()
    ensures r.Failure? ==> r.error == InvalidEnum("RenderPaintStyle", style)
  {
    if style == RenderPaintStyle.Stroke.Code() then Success(Skia.SKPaintStyle.Stroke)
    else if style == RenderPaintStyle.Fill.Code() then Success(Skia.SKPaintStyle.Fill)
    else Failure(InvalidEnum("RenderPaintStyle", style))
  }

  function ToSKStrokeJoin(join: int): (r: Result<Skia.SKStrokeJoin, InvalidEnum>)
    ensures r.Success? <==> exists j: StrokeJoin :: j.Code() == join
    ensures forall j: StrokeJoin :: j.Code() == join ==> r.Success? && r.value.Name() == j.Name()
    ensures r.Success? ==> r.value.Ordinal() == join
    ensures r.Failure? ==> r.error == InvalidEnum("StrokeJoin", join)
  {
    if join == StrokeJoin.Miter.Code() then Success(Skia.SKStrokeJoin.Miter)
    else if join == StrokeJoin.Round.Code() then Success(Skia.SKStrokeJoin.Round)
    else if join == StrokeJoin.Bevel.Code() then Success(Skia.SKStrokeJoin.Bevel)
    else Failure(InvalidEnum("StrokeJoin", join))
  }

  function ToSKStrokeCap(cap: int): (r: Result<Skia.SKStrokeCap, InvalidEnum>)
    ensures r.Success? <==> exists c: StrokeCap :: c.Code() == cap
    ensures forall c: StrokeCap :: c.Code() == cap ==> r.Success? && r.value.Name() == c.Name()
    ensures r.Success? ==> r.value.Ordinal() == cap
    ensures r.Failure? ==> r.error == InvalidEnum("StrokeCap", cap)
  {
    if cap == StrokeCap.Butt.Code() then Success(Skia.SKStrokeCap.Butt)
    else if cap == StrokeCap.Round.Code() then Success(Skia.SKStrokeCap.Round)
    else if cap == StrokeCap.Square.Code() then Success(Skia.SKStrokeCap.Square)
    else Failure(InvalidEnum("StrokeCap", cap))
  }

  /** The managed codes are Skia's own ordinals: 3 and 14 to 28 are accepted,
      and each maps to the Skia mode with that ordinal. */
  function ToSKBlendMode(blendMode: int): (r: Result<Skia.SKBlendMode, InvalidEnum>)
    ensures r.Success? <==> blendMode == 3 || 14 <= blendMode <= 28
    ensures r.Success? ==> r.value.Ordinal() == blendMode
    ensures r.Failure? ==> r.error == InvalidEnum("BlendMode", blendMode)
  {
    match blendMode
    case 3 => Success(Skia.SKBlendMode.SrcOver)
    case 14 => Success(Skia.SKBlendMode.Screen)
    case 15 => Success(Skia.SKBlendMode.Overlay)
    case 16 => Success(Skia.SKBlendMode.Darken)
    case 17 => Success(Skia.SKBlendMode.Lighten)
    case 18 => Success(Skia.SKBlendMode.ColorDodge)
    case 19 => Success(Skia.SKBlendMode.ColorBurn)
    case 20 => Success(Skia.SKBlendMode.HardLight)
    case 21 => Success(Skia.SKBlendMode.SoftLight)
    case 22 => Success(Skia.SKBlendMode.Difference)
    case 23 => Success(Skia.SKBlendMode.Exclusion)
    case 24 => Success(Skia.SKBlendMode.Multiply)
    case 25 => Success(Skia.SKBlendMode.Hue)
    case 26 => Success(Skia.SKBlendMode.Saturation)
    case 27 => Success(Skia.SKBlendMode.Color)
    case 28 => Success(Skia.SKBlendMode.Luminosity)
    case _ => Failure(InvalidEnum("BlendMode", blendMode))
  }

  /** Each managed blend mode maps to the Skia mode of the same name. */
  lemma BlendModesKeepNames(b: BlendMode)
    ensures ToSKBlendMode(b.Code()).Success? && ToSKBlendMode(b.Code()).value.Name() == b.Name()
  {
    match b {
      case SrcOver => case Screen => case Overlay => case Darken =>
      case Lighten => case ColorDodge => case ColorBurn => case HardLight =>
      case SoftLight => case Difference => case Exclusion => case Multiply =>
      case Hue => case Saturation => case Color => case Luminosity =>
    }
  }

  /** A code is accepted exactly when it is the code of a managed blend mode. */
  lemma BlendModeCodes(blendMode: int)
    ensures ToSKBlendMode(blendMode).Success? <==> exists b: BlendMode :: b.Code() == blendMode
  {
    if ToSKBlendMode(blendMode).Success? {
      var b := match blendMode
        case 3 => BlendMode.SrcOver
        case 14 => BlendMode.Screen
        case 15 => BlendMode.Overlay
        case 16 => BlendMode.Darken
        case 17 => BlendMode.Lighten
        case 18 => BlendMode.ColorDodge
        case 19 => BlendMode.ColorBurn
        case 20 => BlendMode.HardLight
        case 21 => BlendMode.SoftLight
        case 22 => BlendMode.Difference
        case 23 => BlendMode.Exclusion
        case 24 => BlendMode.Multiply
        case 25 => BlendMode.Hue
        case 26 => BlendMode.Saturation
        case 27 => BlendMode.Color
        case _ => BlendMode.Luminosity;
      assert b.Code() == blendMode;
    } else {
      forall b: BlendMode
        ensures b.Code() != blendMode
      {
        BlendModesKeepNames(b);
      }
    }
  }

  /** No two accepted codes map to the same Skia value. */
  lemma ConversionsInjective(a: int, b: int)
    ensures ToSKPaintStyle(a).Success? && ToSKPaintStyle(b).Success? && ToSKPaintStyle(a) == ToSKPaintStyle(b) ==> a == b
    ensures ToSKStrokeJoin(a).Success? && ToSKStrokeJoin(a) == ToSKStrokeJoin(b) ==> a == b
    ensures ToSKStrokeCap(a).Success? && ToSKStrokeCap(a) == ToSKStrokeCap(b) ==> a == b
    ensures ToSKBlendMode(a).Success? && ToSKBlendMode(a) == ToSKBlendMode(b) ==> a == b
  {
  }

  // ---------------------------------------------------------------------------
  // The paint.

  /** The `SKPaint` a `RenderPaint` wraps, restricted to what it sets. */
  datatype PaintState = PaintState(
    style: Skia.SKPaintStyle,
    color: Skia.SKColor,
    antialias: bool,
    shader: Option<Skia.SKShader>,
    strokeWidth: real,
    join: Skia.SKStrokeJoin,
    cap: Skia.SKStrokeCap,
    blendMode: Skia.SKBlendMode)

  /** The colour conversion of the gradient loops, one element at a time. */
  function Colors(colors: seq<Skia.uint32>): (r: seq<Skia.SKColor>)
    ensures |r| == |colors|
    ensures forall i :: 0 <= i < |colors| ==> r[i] == Skia.SKColor(colors[i])
  {
    seq(|colors|, i requires 0 <= i < |colors| => Skia.SKColor(colors[i]))
  }

  class RenderPaint {
    var style: Skia.SKPaintStyle
    var color: Skia.SKColor
    var antialias: bool
    var shader: Option<Skia.SKShader>
    var strokeWidth: real
    var join: Skia.SKStrokeJoin
    var cap: Skia.SKStrokeCap
    var blendMode: Skia.SKBlendMode

    function State(): PaintState
      reads this
    {
      PaintState(style, color, antialias, shader, strokeWidth, join, cap, blendMode)
    }

    /** The paint starts black, antialiased and filled; the rest are Skia's
        defaults. */
    constructor ()
      ensures style == Skia.SKPaintStyle.Fill && color == Skia.Black && antialias && shader.None?
      ensures strokeWidth == 0.0 && join == Skia.SKStrokeJoin.Miter && cap == Skia.SKStrokeCap.Butt
      ensures blendMode == Skia.SKBlendMode.SrcOver
    {
      style, color, antialias, shader := Skia.SKPaintStyle.Fill, Skia.Black, true, None;
      strokeWidth, join, cap, blendMode := 0.0, Skia.SKStrokeJoin.Miter, Skia.SKStrokeCap.Butt, Skia.SKBlendMode.SrcOver;
    }

    /** The `Style` setter: a code it does not recognise raises and leaves the
        paint as it was. */
    method SetStyle(code: int) returns (o: Outcome<InvalidEnum>)
      modifies this
      ensures var r := ToSKPaintStyle(code);
        if r.Success? then o.Pass? && State() == old(State()).(style := r.value)
        else o == Fail(r.error) && State() == old(State())
    {
      var r := ToSKPaintStyle(code);
      if r.Failure? {
        return Fail(r.error);
      }
      style := r.value;
      o := Pass;
    }

    method SetJoin(code: int) returns (o: Outcome<InvalidEnum>)
      modifies this
      ensures var r := ToSKStrokeJoin(code);
        if r.Success? then o.Pass? && State() == old(State()).(join := r.value)
        else o == Fail(r.error) && State() == old(State())
    {
      var r := ToSKStrokeJoin(code);
      if r.Failure? {
        return Fail(r.error);
      }
      join := r.value;
      o := Pass;
    }

    method SetCap(code: int) returns (o: Outcome<InvalidEnum>)
      modifies this
      ensures var r := ToSKStrokeCap(code);
        if r.Success? then o.Pass? && State() == old(State()).(cap := r.value)
        else o == Fail(r.error) && State() == old(State())
    {
      var r := ToSKStrokeCap(code);
      if r.Failure? {
        return Fail(r.error);
      }
      cap := r.value;
      o := Pass;
    }

    method SetBlendMode(code: int) returns (o: Outcome<InvalidEnum>)
      modifies this
      ensures var r := ToSKBlendMode(code);
        if r.Success? then o.Pass? && State() == old(State()).(blendMode := r.value)
        else o == Fail(r.error) && State() == old(State())
    {
      var r := ToSKBlendMode(code);
      if r.Failure? {
        return Fail(r.error);
      }
      blendMode := r.value;
      o := Pass;
    }

    method SetColor(argb: Skia.uint32)
      modifies this
      ensures State() == old(State()).(color := Skia.SKColor(argb))
    {
      color := Skia.SKColor(argb);
    }

    method SetThickness(width: real)
      modifies this
      ensures State() == old(State()).(strokeWidth := width)
    {
      strokeWidth := width;
    }

    /** The copy loop shared by both gradients: a new array of the same length
        whose element i is the colour `colors[i]`. */
    static method CopyColors(colors: array<Skia.uint32>) returns (skColors: array<Skia.SKColor>)
      ensures fresh(skColors)
      ensures skColors.Length == colors.Length
      ensures forall i :: 0 <= i < colors.Length ==> skColors[i] == Skia.SKColor(colors[i])
    {
      skColors := new Skia.SKColor[colors.Length](_ => Skia.Black);
      var i := 0;
      while i < colors.Length
        invariant 0 <= i <= colors.Length
        invariant forall k :: 0 <= k < i ==> skColors[k] == Skia.SKColor(colors[k])
      {
        skColors[i] := Skia.SKColor(colors[i]);
        i := i + 1;
      }
    }

    method LinearGradient(sx: real, sy: real, ex: real, ey: real, colors: array<Skia.uint32>, stops: array<real>)
      modifies this
      ensures State() == old(State()).(shader := Some(Skia.SKShader.LinearGradient(Skia.SKPoint(sx, sy), Skia.SKPoint(ex, ey), Colors(colors[..]), stops[..])))
    {
      var skColors := CopyColors(colors);
      assert skColors[..] == Colors(colors[..]);
      shader := Some(Skia.SKShader.LinearGradient(Skia.SKPoint(sx, sy), Skia.SKPoint(ex, ey), skColors[..], stops[..]));
    }

    method RadialGradient(cx: real, cy: real, radius: real, colors: array<Skia.uint32>, stops: array<real>)
      modifies this
      ensures State() == old(State()).(shader := Some(Skia.SKShader.RadialGradient(Skia.SKPoint(cx, cy), radius, Colors(colors[..]), stops[..])))
    {
      var skColors := CopyColors(colors);
      assert skColors[..] == Colors(colors[..]);
      shader := Some(Skia.SKShader.RadialGradient(Skia.SKPoint(cx, cy), radius, skColors[..], stops[..]));
    }
  }
}
