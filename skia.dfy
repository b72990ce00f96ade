/**
  The SkiaSharp values the renderer objects produce, as plain data: each enum
  with its ordinal in SkiaSharp and its member name, points, colours and the
  shaders a paint can hold.
*/
module Skia {
  newtype uint32 = x: int | 0 <= x < 0x1_0000_0000

  datatype SKPoint = SKPoint(x: real, y: real)

  /** `SKColor` is a 32-bit ARGB value; the conversion from `UInt32` keeps it. */
  datatype SKColor = SKColor(argb: uint32)

  const Black := SKColor(0xFF00_0000)

  datatype SKPathFillType = Winding | EvenOdd | InverseWinding | InverseEvenOdd {
    function Name(): string {
      match this
      case Winding => "Winding"
      case EvenOdd => "EvenOdd"
      case InverseWinding => "InverseWinding"
      case InverseEvenOdd => "InverseEvenOdd"
    }
  }

  datatype SKPaintStyle = Fill | Stroke | StrokeAndFill {
    function Ordinal(): int {
      match this
      case Fill => 0
      case Stroke => 1
      case StrokeAndFill => 2
    }
    function Name(): string {
      match this
      case Fill => "Fill"
      case Stroke => "Stroke"
      case StrokeAndFill => "StrokeAndFill"
    }
  }

  datatype SKStrokeJoin = Miter | Round | Bevel {
    function Ordinal(): int {
      match this
      case Miter => 0
      case Round => 1
      case Bevel => 2
    }
    function Name(): string {
      match this
      case Miter => "Miter"
      case Round => "Round"
      case Bevel => "Bevel"
    }
  }

  datatype SKStrokeCap = Butt | Round | Square {
    function Ordinal(): int {
      match this
      case Butt => 0
      case Round => 1
      case Square => 2
    }
    function Name(): string {
      match this
      case Butt => "Butt"
      case Round => "Round"
      case Square => "Square"
    }
  }

  datatype SKBlendMode =
    | Clear | Src | Dst | SrcOver | DstOver | SrcIn | DstIn | SrcOut | DstOut
    | SrcATop | DstATop | Xor | Plus | Modulate | Screen | Overlay | Darken
    | Lighten | ColorDodge | ColorBurn | HardLight | SoftLight | Difference
    | Exclusion | Multiply | Hue | Saturation | Color | Luminosity
  {
    function Ordinal(): int {
      match this
      case Clear => 0
      case Src => 1
      case Dst => 2
      case SrcOver => 3
      case DstOver => 4
      case SrcIn => 5
      case DstIn => 6
      case SrcOut => 7
      case DstOut => 8
      case SrcATop => 9
      case DstATop => 10
      case Xor => 11
      case Plus => 12
      case Modulate => 13
      case Screen => 14
      case Overlay => 15
      case Darken => 16
      case Lighten => 17
      case ColorDodge => 18
      case ColorBurn => 19
      case HardLight => 20
      case SoftLight => 21
      case Difference => 22
      case Exclusion => 23
      case Multiply => 24
      case Hue => 25
      case Saturation => 26
      case Color => 27
      case Luminosity => 28
    }
    function Name(): string {
      match this
      case Clear => "Clear"
      case Src => "Src"
      case Dst => "Dst"
      case SrcOver => "SrcOver"
      case DstOver => "DstOver"
      case SrcIn => "SrcIn"
      case DstIn => "DstIn"
      case SrcOut => "SrcOut"
      case DstOut => "DstOut"
      case SrcATop => "SrcATop"
      case DstATop => "DstATop"
      case Xor => "Xor"
      case Plus => "Plus"
      case Modulate => "Modulate"
      case Screen => "Screen"
      case Overlay => "Overlay"
      case Darken => "Darken"
      case Lighten => "Lighten"
      case ColorDodge => "ColorDodge"
      case ColorBurn => "ColorBurn"
      case HardLight => "HardLight"
      case SoftLight => "SoftLight"
      case Difference => "Difference"
      case Exclusion => "Exclusion"
      case Multiply => "Multiply"
      case Hue => "Hue"
      case Saturation => "Saturation"
      case Color => "Color"
      case Luminosity => "Luminosity"
    }
  }

  /** `SKShader.CreateLinearGradient` / `CreateRadialGradient` with the clamp
      tile mode, which is the only one the paint uses. */
  datatype SKShader =
    | LinearGradient(start: SKPoint, end: SKPoint, colors: seq<SKColor>, stops: seq<real>)
    | RadialGradient(center: SKPoint, radius: real, colors: seq<SKColor>, stops: seq<real>)
}
