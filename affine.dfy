/**
 * The renderer's `TransformationMatrix`: a 2D affine map made of a 2x2
 * rotation-and-scale part `[[a, b], [c, d]]` and a translation `(tx, ty)`.
 * The operations are exact over the reals. Rotation is kept abstract: the
 * cosine and sine of an angle come from a `trig` function supplied by the
 * caller, of which the laws below assume only that angle 0 has cosine 1 and
 * sine 0.
 */
module Affine {
  import opened Geometry

  datatype Matrix = Matrix(a: real, b: real, c: real, d: real, tx: real, ty: real)

  /** The cosine and sine of one angle. */
  datatype Trig = Trig(cos: real, sin: real)

  /** `TransformationMatrix::unit()`, also its `Default`. */
  function Unit(): Matrix {
    Matrix(1.0, 0.0, 0.0, 1.0, 0.0, 0.0)
  }

  /** Where `m` sends the point `p`. */
  function Apply(m: Matrix, p: Point): Point {
    Point(m.a * p.x + m.b * p.y + m.tx, m.c * p.x + m.d * p.y + m.ty)
  }

  /** `compose(self, other)`: the matrix product `m * o`. */
  function Compose(m: Matrix, o: Matrix): Matrix {
    Matrix(m.a * o.a + m.b * o.c, m.a * o.b + m.b * o.d,
           m.c * o.a + m.d * o.c, m.c * o.b + m.d * o.d,
           m.tx + m.a * o.tx + m.b * o.ty, m.ty + m.c * o.tx + m.d * o.ty)
  }

  // Ring laws over the reals, each used as one rewriting step below.

  lemma MulOverSum(k: real, u: real, v: real, w: real)
    ensures k * (u + v + w) == k * u + k * v + k * w
  {
  }

  lemma SumTimes(a: real, b: real, x: real)
    ensures (a + b) * x == a * x + b * x
  {
  }

  lemma MulAssoc(a: real, b: real, x: real)
    ensures (a * b) * x == a * (b * x)
  {
  }

  lemma NegTimes(a: real, x: real)
    ensures (-a) * x == -(a * x)
  {
  }

  /** The first coordinate of a product applied to a point. */
  lemma ApplyComposeX(m: Matrix, o: Matrix, p: Point)
    ensures Apply(Compose(m, o), p).x == Apply(m, Apply(o, p)).x
  {
    var x, y := p.x, p.y;
    MulOverSum(m.a, o.a * x, o.b * y, o.tx);
    MulOverSum(m.b, o.c * x, o.d * y, o.ty);
    SumTimes(m.a * o.a, m.b * o.c, x);
    SumTimes(m.a * o.b, m.b * o.d, y);
    MulAssoc(m.a, o.a, x); MulAssoc(m.b, o.c, x); MulAssoc(m.a, o.b, y); MulAssoc(m.b, o.d, y);
  }

  /** The second coordinate of a product applied to a point. */
  lemma ApplyComposeY(m: Matrix, o: Matrix, p: Point)
    ensures Apply(Compose(m, o), p).y == Apply(m, Apply(o, p)).y
  {
    var x, y := p.x, p.y;
    MulOverSum(m.c, o.a * x, o.b * y, o.tx);
    MulOverSum(m.d, o.c * x, o.d * y, o.ty);
    SumTimes(m.c * o.a, m.d * o.c, x);
    SumTimes(m.c * o.b, m.d * o.d, y);
    MulAssoc(m.c, o.a, x); MulAssoc(m.d, o.c, x); MulAssoc(m.c, o.b, y); MulAssoc(m.d, o.d, y);
  }

  /** The product applies its right factor first: composing is applying in sequence. */
  lemma ApplyCompose(m: Matrix, o: Matrix, p: Point)
    ensures Apply(Compose(m, o), p) == Apply(m, Apply(o, p))
  {
    ApplyComposeX(m, o, p);
    ApplyComposeY(m, o, p);
  }

  /** The unit matrix leaves every point where it is. */
  lemma UnitFixes(p: Point)
    ensures Apply(Unit(), p) == p
  {
    assert Apply(Unit(), p).x == p.x;
    assert Apply(Unit(), p).y == p.y;
  }

  /** `translate(p)`: compose with a pure translation by `p`. */
  function Translate(m: Matrix, p: Point): Matrix {
    Compose(m, Matrix(1.0, 0.0, 0.0, 1.0, p.x, p.y))
  }

  /** `rotate(angle)`: compose with the rotation `[[cos, -sin], [sin, cos]]`. */
  function Rotate(m: Matrix, angle: real, trig: real -> Trig): Matrix {
    var t := trig(angle);
    Compose(m, Matrix(t.cos, -t.sin, t.sin, t.cos, 0.0, 0.0))
  }

  /** `scale(size)`: compose with the axis scaling `[[width, 0], [0, height]]`. */
  function Scale(m: Matrix, s: Size): Matrix {
    Compose(m, Matrix(s.width, 0.0, 0.0, s.height, 0.0, 0.0))
  }

  /** `translate` keeps the rotation-and-scale part of a matrix. */
  lemma TranslateKeepsLinear(m: Matrix, v: Point)
    ensures Translate(m, v).a == m.a && Translate(m, v).b == m.b
    ensures Translate(m, v).c == m.c && Translate(m, v).d == m.d
  {
  }

  /** `scale` multiplies the first column by the width and the second by the height. */
  lemma ScaleLinear(m: Matrix, s: Size)
    ensures Scale(m, s).a == m.a * s.width && Scale(m, s).b == m.b * s.height
    ensures Scale(m, s).c == m.c * s.width && Scale(m, s).d == m.d * s.height
  {
  }

  /** Rotating a pure translation gives the rotation as its rotation-and-scale part. */
  lemma RotateTranslationLinear(w: Point, angle: real, trig: real -> Trig)
    ensures var r, t := Rotate(Translate(Unit(), w), angle, trig), trig(angle);
            r.a == t.cos && r.b == -t.sin && r.c == t.sin && r.d == t.cos
  {
    TranslateKeepsLinear(Unit(), w);
  }

  /** The rotation of `p` by the angle whose cosine and sine are `t`. */
  function Rotated(p: Point, t: Trig): Point {
    Point(t.cos * p.x - t.sin * p.y, t.sin * p.x + t.cos * p.y)
  }

  /** `m.translate(v)` first moves a point by `v`, then applies `m`. */
  lemma ApplyTranslate(m: Matrix, v: Point, p: Point)
    ensures Apply(Translate(m, v), p) == Apply(m, Add(p, v))
  {
    var k := Matrix(1.0, 0.0, 0.0, 1.0, v.x, v.y);
    ApplyCompose(m, k, p);
    assert Apply(k, p) == Add(p, v);
  }

  /** `m.scale(s)` first scales a point axis by axis, then applies `m`. */
  lemma ApplyScale(m: Matrix, s: Size, p: Point)
    ensures Apply(Scale(m, s), p) == Apply(m, Point(s.width * p.x, s.height * p.y))
  {
    var k := Matrix(s.width, 0.0, 0.0, s.height, 0.0, 0.0);
    ApplyCompose(m, k, p);
    assert Apply(k, p) == Point(s.width * p.x, s.height * p.y);
  }

  /** `m.rotate(angle)` first rotates a point about the origin, then applies `m`. */
  lemma ApplyRotate(m: Matrix, angle: real, trig: real -> Trig, p: Point)
    ensures Apply(Rotate(m, angle, trig), p) == Apply(m, Rotated(p, trig(angle)))
  {
    var t := trig(angle);
    var r := Matrix(t.cos, -t.sin, t.sin, t.cos, 0.0, 0.0);
    assert Apply(r, p).x == Rotated(p, t).x by {
      NegTimes(t.sin, p.y);
    }
    assert Apply(r, p) == Rotated(p, t);
    ApplyCompose(m, r, p);
  }
}
