/**
 * The parts of the framework's geometry and style vocabulary that the SVG
 * element reads or writes: points, sizes, bounds and style lengths.
 * Quantities are exact reals rather than 32-bit floats.
 */
module Geometry {

  /** A 2D point; used for logical pixels and for device (scaled) pixels alike. */
  datatype Point = Point(x: real, y: real)

  /** A 2D size; `Size<f32>` for intrinsic sizes and scale factors. */
  datatype Size = Size(width: real, height: real)

  /** An axis-aligned rectangle in logical pixels. */
  datatype Bounds = Bounds(origin: Point, size: Size)

  function Add(p: Point, q: Point): Point
  {
    Point(p.x + q.x, p.y + q.y)
  }

  /** `Point::scale`: multiplies both coordinates by the device scale factor. */
  function ScalePoint(p: Point, factor: real): Point
  {
    Point(p.x * factor, p.y * factor)
  }

  /** `Negate` on a point. */
  function Negate(p: Point): Point
  {
    Point(-p.x, -p.y)
  }

  /** `Bounds::center`: the midpoint of the rectangle. */
  function Center(b: Bounds): (r: Point)
    ensures r.x - b.origin.x == b.origin.x + b.size.width - r.x
    ensures r.y - b.origin.y == b.origin.y + b.size.height - r.y
  {
    Point(b.origin.x + b.size.width / 2.0, b.origin.y + b.size.height / 2.0)
  }

  /** An absolute length: logical pixels, or multiples of the root font size. */
  datatype AbsoluteLength = Pixels(pixels: real) | Rems(rems: real)

  /** A definite length: absolute, or a fraction of the parent's size. */
  datatype DefiniteLength = Absolute(absolute: AbsoluteLength) | Fraction(fraction: real)

  /** A style length along one axis. */
  datatype Length = Definite(definite: DefiniteLength) | Auto

  /** `AbsoluteLength::to_pixels(rem_size)`. */
  function ToPixels(a: AbsoluteLength, remSize: real): real
  {
    match a
    case Pixels(p) => p
    case Rems(n) => n * remSize
  }

  /** `Length::Definite(px(x).into())`: a definite absolute length of `x` pixels. */
  function Px(x: real): Length
  {
    Definite(Absolute(Pixels(x)))
  }

  /** True when `l` is a definite absolute length, the only kind that can anchor the other axis. */
  predicate IsAbsolute(l: Length) {
    l.Definite? && l.definite.Absolute?
  }
}
