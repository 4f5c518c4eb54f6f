/**
 * Layout-time sizing of an SVG element: probing the content for its
 * intrinsic size, and filling in the style's `Auto` axes from that size and
 * its aspect ratio.
 */
module Sizing {
  import opened Wrappers
  import opened Geometry

  type Positive = x: real | x > 0.0 witness 1.0

  /**
   * The natural size of the vector content. The parser's tree size is
   * always strictly positive on both axes, so the aspect ratio is defined.
   */
  datatype IntrinsicSize = IntrinsicSize(width: Positive, height: Positive)

  /** The part of the element's style that sizing reads and writes. */
  datatype Style = Style(width: Length, height: Length, aspectRatio: Option<real>)

  /** Why the asset source could not produce bytes. */
  datatype AssetError = AssetError(message: string)

  /** Why the bytes are not valid vector content. */
  datatype ParseError = ParseError(message: string)

  function AspectRatio(s: IntrinsicSize): Positive
  {
    s.width / s.height
  }

  /**
   * Loading `path` from the asset source and parsing the bytes: the size is
   * known only when the source has bytes for the path and they parse.
   */
  function Probe(path: string, source: string -> Result<Option<Bytes>, AssetError>,
                 parse: Bytes -> Result<IntrinsicSize, ParseError>): (r: Option<IntrinsicSize>)
    ensures r.Some? <==> source(path).Ok? && source(path).value.Some? && parse(source(path).value.value).Ok?
    ensures r.Some? ==> r.value == parse(source(path).value.value).value
  {
    match source(path)
    case Ok(Some(bytes)) =>
      (match parse(bytes)
       case Ok(tree) => Some(tree)
       case Err(_) => None)
    case _ => None
  }

  /**
   * The element's cached size after the probing step: a size already known
   * is kept; otherwise a registered path is probed; without a path nothing
   * is known.
   */
  function CachedSize(cached: Option<IntrinsicSize>, path: Option<string>,
                      source: string -> Result<Option<Bytes>, AssetError>,
                      parse: Bytes -> Result<IntrinsicSize, ParseError>): (r: Option<IntrinsicSize>)
    ensures cached.Some? ==> r == cached
    ensures cached.None? && path.None? ==> r.None?
    ensures cached.None? && path.Some? ==> r == Probe(path.value, source, parse)
  {
    if cached.None? && path.Some? then Probe(path.value, source, parse) else cached
  }

  /** The width, in pixels, that keeps the aspect ratio of `s` at the absolute height `h`. */
  function WidthFor(s: IntrinsicSize, h: AbsoluteLength, remSize: real): real {
    AspectRatio(s) * ToPixels(h, remSize)
  }

  /** The height, in pixels, that keeps the aspect ratio of `s` at the absolute width `w`. */
  function HeightFor(s: IntrinsicSize, w: AbsoluteLength, remSize: real): real {
    ToPixels(w, remSize) / AspectRatio(s)
  }

  /**
   * Reference definition of the sized style, axis by axis: an `Auto` axis is
   * derived from the other axis when that one is a definite absolute length,
   * and otherwise takes the intrinsic size; a definite axis is kept.
   */
  function SizedStyle(size: Option<IntrinsicSize>, style: Style, remSize: real): (r: Style)
    // Without an intrinsic size nothing changes, not even the aspect ratio.
    ensures size.None? ==> r == style
    // With one, the aspect ratio is always declared, and both axes end up definite.
    ensures size.Some? ==> r.aspectRatio == Some(size.value.width / size.value.height)
    ensures size.Some? ==> r.width.Definite? && r.height.Definite?
    // A definite axis is never overwritten.
    ensures style.width.Definite? ==> r.width == style.width
    ensures style.height.Definite? ==> r.height == style.height
    // An absolute axis anchors an `Auto` one.
    ensures size.Some? && style.width.Auto? && IsAbsolute(style.height) ==>
              r.width == Px(WidthFor(size.value, style.height.definite.absolute, remSize))
    ensures size.Some? && style.height.Auto? && IsAbsolute(style.width) ==>
              r.height == Px(HeightFor(size.value, style.width.definite.absolute, remSize))
    // An `Auto` or fractional axis does not: the intrinsic size is used instead.
    ensures size.Some? && style.width.Auto? && !IsAbsolute(style.height) ==> r.width == Px(size.value.width)
    ensures size.Some? && style.height.Auto? && !IsAbsolute(style.width) ==> r.height == Px(size.value.height)
  {
    if size.None? then style
    else
      var s := size.value;
      Style(width := if style.width.Definite? then style.width
                     else if IsAbsolute(style.height) then Px(WidthFor(s, style.height.definite.absolute, remSize))
                     else Px(s.width),
            height := if style.height.Definite? then style.height
                      else if IsAbsolute(style.width) then Px(HeightFor(s, style.width.definite.absolute, remSize))
                      else Px(s.height),
            aspectRatio := Some(AspectRatio(s)))
  }

  /**
   * The sizing step of `request_layout`, as the element performs it: set the
   * aspect ratio, then fill in the width, then the height, where the height
   * step reads the width the previous step may have just written.
   */
  method ResolveStyle(size: Option<IntrinsicSize>, style: Style, remSize: real) returns (r: Style)
    ensures r == SizedStyle(size, style, remSize)
  {
    r := style;
    if size.Some? {
      var s := size.value;
      var ar := AspectRatio(s);
      r := r.(aspectRatio := Some(ar));
      if r.width.Auto? {
        match r.height {
          case Definite(Absolute(h)) =>
            assert h == style.height.definite.absolute;
            r := r.(width := Px(ar * ToPixels(h, remSize)));
            assert ar * ToPixels(h, remSize) == WidthFor(s, h, remSize);
          case _ =>
            r := r.(width := Px(s.width));
        }
      }
      if r.height.Auto? {
        match r.width {
          case Definite(Absolute(w)) =>
            if style.width.Auto? {
              // The width was just written from the intrinsic width.
              assert w == Pixels(s.width);
              BothAutoRoundTrip(s);
            } else {
              assert w == style.width.definite.absolute;
            }
            r := r.(height := Px(ToPixels(w, remSize) / ar));
          case _ =>
            r := r.(height := Px(s.height));
        }
      }
    }
  }

  /** Deriving the height from the intrinsic width gives back the intrinsic height. */
  lemma BothAutoRoundTrip(s: IntrinsicSize)
    ensures s.width / (s.width / s.height) == s.height
  {
    var ar := s.width / s.height;
    assert ar * s.height == s.width;
  }

  /**
   * Whenever sizing derives an axis, the style it produces has the content's
   * aspect ratio: width = ratio * height, both in pixels. This holds when an
   * axis is `Auto` and the other is `Auto` or absolute (a fractional axis
   * leaves the ratio to the layout engine).
   */
  lemma DerivedSizeKeepsAspectRatio(s: IntrinsicSize, style: Style, remSize: real)
    requires style.width.Auto? || style.height.Auto?
    requires style.width.Auto? || IsAbsolute(style.width)
    requires style.height.Auto? || IsAbsolute(style.height)
    ensures var r := SizedStyle(Some(s), style, remSize);
            IsAbsolute(r.width) && IsAbsolute(r.height) &&
            ToPixels(r.width.definite.absolute, remSize)
            == AspectRatio(s) * ToPixels(r.height.definite.absolute, remSize)
  {
    var ar := AspectRatio(s);
    if style.width.Auto? && style.height.Auto? {
      assert ar * s.height == s.width;
    } else if style.height.Auto? {
      var w := ToPixels(style.width.definite.absolute, remSize);
      assert ar * (w / ar) == w;
    }
  }

  /**
   * Once the size is cached, a later layout pass keeps it, whatever the path,
   * the asset source and the parser say then.
   */
  lemma CacheIsSticky(cached: Option<IntrinsicSize>, path: Option<string>,
                      source: string -> Result<Option<Bytes>, AssetError>,
                      parse: Bytes -> Result<IntrinsicSize, ParseError>,
                      path': Option<string>,
                      source': string -> Result<Option<Bytes>, AssetError>,
                      parse': Bytes -> Result<IntrinsicSize, ParseError>)
    requires CachedSize(cached, path, source, parse).Some?
    ensures CachedSize(CachedSize(cached, path, source, parse), path', source', parse')
            == CachedSize(cached, path, source, parse)
  {
  }

  /** A fractional axis is never an anchor: its value does not affect the other axis. */
  lemma FractionIsNotAnAnchor(size: Option<IntrinsicSize>, style: Style, f: real, g: real, remSize: real)
    ensures SizedStyle(size, style.(height := Definite(Fraction(f))), remSize).width
            == SizedStyle(size, style.(height := Definite(Fraction(g))), remSize).width
    ensures SizedStyle(size, style.(width := Definite(Fraction(f))), remSize).height
            == SizedStyle(size, style.(width := Definite(Fraction(g))), remSize).height
  {
  }
}
