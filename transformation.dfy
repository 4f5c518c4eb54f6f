/**
 * `Transformation`: the scale / translate / rotate descriptor an SVG element
 * may carry, its builder functions, and `into_matrix`, which turns it into an
 * affine matrix pivoting around the element's center in device pixels.
 */
module Transform {
  import opened Geometry
  import opened Affine

  /** An angle in radians. */
  datatype Radians = Radians(angle: real)

  /** Scale per axis, translation in logical pixels, rotation in radians. */
  datatype Transformation = Transformation(scale: Size, translate: Point, rotate: Radians)

  /** `Transformation::default()`: unit scale, no translation, no rotation. */
  function Default(): (t: Transformation)
    ensures t.scale.width == t.scale.height == 1.0
    ensures t.translate.x == t.translate.y == 0.0
    ensures t.rotate.angle == 0.0
  {
    Transformation(Size(1.0, 1.0), Point(0.0, 0.0), Radians(0.0))
  }

  /** `Transformation::scale`: the given scale, everything else as in `Default()`. */
  function ScaleBy(scale: Size): (t: Transformation)
    ensures t.scale == scale
    ensures t.translate == Default().translate && t.rotate == Default().rotate
  {
    Transformation(scale, Point(0.0, 0.0), Radians(0.0))
  }

  /** `Transformation::translate`: the given translation, everything else as in `Default()`. */
  function TranslateBy(translate: Point): (t: Transformation)
    ensures t.translate == translate
    ensures t.scale == Default().scale && t.rotate == Default().rotate
  {
    Transformation(Size(1.0, 1.0), translate, Radians(0.0))
  }

  /** `Transformation::rotate`: the given rotation, everything else as in `Default()`. */
  function RotateBy(rotate: Radians): (t: Transformation)
    ensures t.rotate == rotate
    ensures t.scale == Default().scale && t.translate == Default().translate
  {
    Transformation(Size(1.0, 1.0), Point(0.0, 0.0), rotate)
  }

  /** `with_scaling`: replaces the scale and keeps the other two fields. */
  function WithScaling(t: Transformation, scale: Size): (r: Transformation)
    ensures r.scale == scale && r.translate == t.translate && r.rotate == t.rotate
  {
    t.(scale := scale)
  }

  /** `with_translation`: replaces the translation and keeps the other two fields. */
  function WithTranslation(t: Transformation, translate: Point): (r: Transformation)
    ensures r.translate == translate && r.scale == t.scale && r.rotate == t.rotate
  {
    t.(translate := translate)
  }

  /** `with_rotation`: replaces the rotation and keeps the other two fields. */
  function WithRotation(t: Transformation, rotate: Radians): (r: Transformation)
    ensures r.rotate == rotate && r.scale == t.scale && r.translate == t.translate
  {
    t.(rotate := rotate)
  }

  /**
   * `into_matrix(center, scale_factor)`. Read bottom-up: move the scaled
   * center to the origin, scale, rotate, then move back to the scaled center
   * plus the scaled translation.
   */
  function IntoMatrix(t: Transformation, center: Point, scaleFactor: real, trig: real -> Trig): (m: Matrix)
    // The rotation-and-scale part is rotation after scaling, whatever the center,
    // the scale factor and the translation.
    ensures m.a == trig(t.rotate.angle).cos * t.scale.width && m.b == -trig(t.rotate.angle).sin * t.scale.height
    ensures m.c == trig(t.rotate.angle).sin * t.scale.width && m.d == trig(t.rotate.angle).cos * t.scale.height
  {
    ChainLinear(Add(ScalePoint(center, scaleFactor), ScalePoint(t.translate, scaleFactor)), t.rotate.angle, trig,
                t.scale, Negate(ScalePoint(center, scaleFactor)));
    Translate(Scale(Rotate(Translate(Unit(), Add(ScalePoint(center, scaleFactor), ScalePoint(t.translate, scaleFactor))),
                           t.rotate.angle, trig),
                    t.scale),
              Negate(ScalePoint(center, scaleFactor)))
  }

  /** The rotation-and-scale part of the chain is rotation after scaling, whatever `w` and `back`. */
  lemma ChainLinear(w: Point, angle: real, trig: real -> Trig, scale: Size, back: Point)
    ensures var m, r := Translate(Scale(Rotate(Translate(Unit(), w), angle, trig), scale), back), trig(angle);
            m.a == r.cos * scale.width && m.b == -r.sin * scale.height &&
            m.c == r.sin * scale.width && m.d == r.cos * scale.height
  {
    var m1 := Rotate(Translate(Unit(), w), angle, trig);
    RotateTranslationLinear(w, angle, trig);
    ScaleLinear(m1, scale);
    TranslateKeepsLinear(Scale(m1, scale), back);
  }

  /** Scaling by `scale` and then rotating by `angle`: the linear part of the transformation. */
  function RotateScale(p: Point, angle: real, scale: Size, trig: real -> Trig): Point {
    Rotated(Point(scale.width * p.x, scale.height * p.y), trig(angle))
  }

  // ---- Laws of the builders ----

  /** Each named constructor is its setter applied to `Default()`. */
  lemma ConstructorsAreSettersOnDefault(scale: Size, translate: Point, rotate: Radians)
    ensures ScaleBy(scale) == WithScaling(Default(), scale)
    ensures TranslateBy(translate) == WithTranslation(Default(), translate)
    ensures RotateBy(rotate) == WithRotation(Default(), rotate)
  {
  }

  // ---- Laws of into_matrix ----

  /** The upper two steps of the chain: rotate `k`, then move it by `w`. */
  lemma RotateThenMove(w: Point, angle: real, trig: real -> Trig, k: Point)
    ensures Apply(Rotate(Translate(Unit(), w), angle, trig), k) == Add(w, Rotated(k, trig(angle)))
  {
    var v := Rotated(k, trig(angle));
    ApplyRotate(Translate(Unit(), w), angle, trig, k);
    ApplyTranslate(Unit(), w, v);
    UnitFixes(Add(v, w));
  }

  /**
   * The whole chain of `into_matrix`, read bottom-up: move `p` by `back`,
   * scale, rotate, then move by `w`.
   */
  lemma Chain(w: Point, angle: real, trig: real -> Trig, scale: Size, back: Point, p: Point)
    ensures Apply(Translate(Scale(Rotate(Translate(Unit(), w), angle, trig), scale), back), p)
            == Add(w, RotateScale(Add(p, back), angle, scale, trig))
  {
    var m1 := Rotate(Translate(Unit(), w), angle, trig);
    var q := Add(p, back);
    var k := Point(scale.width * q.x, scale.height * q.y);
    calc {
      Apply(Translate(Scale(m1, scale), back), p);
      { ApplyTranslate(Scale(m1, scale), back, p); }
      Apply(Scale(m1, scale), q);
      { ApplyScale(m1, scale, q); }
      Apply(m1, k);
      { RotateThenMove(w, angle, trig, k); }
      Add(w, Rotated(k, trig(angle)));
      Add(w, RotateScale(q, angle, scale, trig));
    }
  }

  /** The chain sends the pivot `c` it is built around to `w`. */
  lemma ChainPivot(w: Point, angle: real, trig: real -> Trig, scale: Size, c: Point)
    ensures Apply(Translate(Scale(Rotate(Translate(Unit(), w), angle, trig), scale), Negate(c)), c) == w
  {
    Chain(w, angle, trig, scale, Negate(c), c);
    assert Add(c, Negate(c)) == Point(0.0, 0.0);
    assert RotateScale(Point(0.0, 0.0), angle, scale, trig) == Point(0.0, 0.0);
  }

  /**
   * What the matrix does to a point `p` (device pixels): with `c` the scaled
   * center, `p` goes to `c + translate * scaleFactor + R(K(p - c))`, where K
   * scales and R rotates.
   */
  lemma IntoMatrixMapsPoint(t: Transformation, center: Point, scaleFactor: real, trig: real -> Trig, p: Point)
    ensures var c := ScalePoint(center, scaleFactor);
            Apply(IntoMatrix(t, center, scaleFactor, trig), p)
            == Add(Add(c, ScalePoint(t.translate, scaleFactor)),
                   RotateScale(Add(p, Negate(c)), t.rotate.angle, t.scale, trig))
  {
    var c := ScalePoint(center, scaleFactor);
    Chain(Add(c, ScalePoint(t.translate, scaleFactor)), t.rotate.angle, trig, t.scale, Negate(c), p);
  }

  /** `Transformation::default()` composes to the unit matrix for every center and scale factor. */
  lemma DefaultIsUnit(center: Point, scaleFactor: real, trig: real -> Trig)
    requires trig(0.0) == Trig(1.0, 0.0)
    ensures IntoMatrix(Default(), center, scaleFactor, trig) == Unit()
  {
  }

  /**
   * A pure translation is the translation by `translate * scaleFactor`,
   * whatever the center.
   */
  lemma PureTranslation(translate: Point, center: Point, scaleFactor: real, trig: real -> Trig)
    requires trig(0.0) == Trig(1.0, 0.0)
    ensures IntoMatrix(TranslateBy(translate), center, scaleFactor, trig)
            == Translate(Unit(), ScalePoint(translate, scaleFactor))
  {
  }

  /**
   * Scaling and rotation pivot around the center: the scaled center is moved
   * by the scaled translation and by nothing else.
   */
  lemma CenterIsPivot(t: Transformation, center: Point, scaleFactor: real, trig: real -> Trig)
    ensures Apply(IntoMatrix(t, center, scaleFactor, trig), ScalePoint(center, scaleFactor))
            == Add(ScalePoint(center, scaleFactor), ScalePoint(t.translate, scaleFactor))
  {
    var c := ScalePoint(center, scaleFactor);
    ChainPivot(Add(c, ScalePoint(t.translate, scaleFactor)), t.rotate.angle, trig, t.scale, c);
  }
}
