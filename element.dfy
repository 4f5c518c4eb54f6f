/**
 * The SVG element itself: its configuration, the builder methods that set
 * it, the layout step that caches the intrinsic size and sizes the style,
 * and the paint step that chooses the draw call.
 */
module Element {
  import opened Wrappers
  import opened Geometry
  import opened Affine
  import opened Transform
  import Sizing
  import Paint

  class Svg {
    var transformation: Option<Transformation>
    /** The intrinsic size, filled in lazily by the first layout pass that can parse the content. */
    var size: Option<Sizing.IntrinsicSize>
    /** A registered asset path, drawn by reference. */
    var path: Option<string>
    /** An external file path, drawn from the bytes read from it. */
    var externalPath: Option<string>

    /** `svg()`: an element with nothing configured. */
    constructor ()
      ensures transformation.None? && size.None? && path.None? && externalPath.None?
    {
      transformation := None;
      size := None;
      path := None;
      externalPath := None;
    }

    /** `path(p)`: sets the registered path; nothing else changes. */
    method Path(p: string)
      modifies this
      ensures path == Some(p)
      ensures externalPath == old(externalPath) && transformation == old(transformation) && size == old(size)
    {
      path := Some(p);
    }

    /** `external_path(p)`: sets the external path; nothing else changes. */
    method ExternalPath(p: string)
      modifies this
      ensures externalPath == Some(p)
      ensures path == old(path) && transformation == old(transformation) && size == old(size)
    {
      externalPath := Some(p);
    }

    /** `with_transformation(t)`: sets the transformation; nothing else changes. */
    method WithTransformation(t: Transformation)
      modifies this
      ensures transformation == Some(t)
      ensures path == old(path) && externalPath == old(externalPath) && size == old(size)
    {
      transformation := Some(t);
    }

    /**
     * The sizing part of `request_layout`: probe the registered path once,
     * caching the intrinsic size, then size the style from it. `source` is
     * the asset source and `parse` the vector-graphics parser.
     */
    method RequestLayout(style: Sizing.Style, remSize: real,
                         source: string -> Result<Option<Bytes>, Sizing.AssetError>,
                         parse: Bytes -> Result<Sizing.IntrinsicSize, Sizing.ParseError>)
      returns (r: Sizing.Style)
      modifies this`size
      ensures size == Sizing.CachedSize(old(size), path, source, parse)
      ensures old(size).Some? ==> size == old(size)
      ensures size.None? ==> r == style
      ensures r == Sizing.SizedStyle(size, style, remSize)
    {
      if size.None? && path.Some? {
        match source(path.value) {
          case Ok(Some(bytes)) =>
            match parse(bytes) {
              case Ok(tree) => size := Some(tree);
              case Err(_) =>
            }
          case _ =>
        }
      }
      r := Sizing.ResolveStyle(size, style, remSize);
    }

    /** The paint step: the draw call for this element's configuration, if any. */
    function PaintCall(color: Option<Paint.Hsla>, useAsset: string -> Paint.AssetState,
                       bounds: Bounds, scaleFactor: real, trig: real -> Trig): (r: Option<Paint.DrawCall>)
      reads this
      ensures r.Some? ==> color.Some? && (path.Some? || externalPath.Some?)
      ensures r.Some? ==> (r.value.bytes.None? <==> path.Some?)
    {
      Paint.PaintSvg(path, externalPath, transformation, color, useAsset, bounds, scaleFactor, trig)
    }
  }

  /**
   * Two layout passes on one element: once the first has cached a size, the
   * second keeps it and sizes the style the same way, even if the asset
   * source and the parser would now answer differently.
   */
  method LayoutTwice(e: Svg, style: Sizing.Style, remSize: real,
                     source: string -> Result<Option<Bytes>, Sizing.AssetError>,
                     parse: Bytes -> Result<Sizing.IntrinsicSize, Sizing.ParseError>,
                     source': string -> Result<Option<Bytes>, Sizing.AssetError>,
                     parse': Bytes -> Result<Sizing.IntrinsicSize, Sizing.ParseError>)
    returns (first: Sizing.Style, second: Sizing.Style)
    modifies e
    ensures Sizing.CachedSize(old(e.size), old(e.path), source, parse).Some? ==> second == first
  {
    first := e.RequestLayout(style, remSize, source, parse);
    second := e.RequestLayout(style, remSize, source', parse');
  }
}
