/**
 * The paint-time decision of an SVG element: which source to draw from,
 * whether to draw at all, and the arguments of the one draw call.
 */
module Paint {
  import opened Wrappers
  import opened Geometry
  import opened Affine
  import opened Transform

  /** A foreground color (hue, saturation, lightness, alpha). */
  datatype Hsla = Hsla(h: real, s: real, l: real, a: real)

  /** Why reading an external file failed. */
  datatype IoError = IoError(message: string)

  /**
   * The state of the external-file asset for one path, as the window's asset
   * cache reports it: `None` while the read is still pending, then the
   * cached outcome of the read.
   */
  type AssetState = Option<Result<Bytes, IoError>>

  /** The arguments of one `paint_svg` call. */
  datatype DrawCall = DrawCall(bounds: Bounds, path: string, bytes: Option<Bytes>,
                               transformation: Matrix, color: Hsla)

  /** The matrix handed to the renderer: the element's transformation, or the unit matrix without one. */
  function PaintMatrix(transformation: Option<Transformation>, bounds: Bounds, scaleFactor: real,
                       trig: real -> Trig): (m: Matrix)
    ensures transformation.None? ==> m == Unit()
    ensures transformation.Some? ==> m == IntoMatrix(transformation.value, Center(bounds), scaleFactor, trig)
  {
    match transformation
    case None => Unit()
    case Some(t) => IntoMatrix(t, Center(bounds), scaleFactor, trig)
  }

  /** The bytes of an external asset when its read has finished and succeeded. */
  function ReadyBytes(asset: AssetState): (r: Option<Bytes>)
    ensures r.Some? <==> asset.Some? && asset.value.Ok?
    ensures r.Some? ==> r.value == asset.value.value
  {
    if asset.Some? && asset.value.Ok? then Some(asset.value.value) else None
  }

  /**
   * What paint draws, if anything. `path` (a registered asset) comes first
   * and is drawn without bytes; otherwise `externalPath` is drawn with the
   * bytes of its asset once they are available. Without a color nothing is
   * drawn.
   */
  function PaintSvg(path: Option<string>, externalPath: Option<string>, transformation: Option<Transformation>,
                    color: Option<Hsla>, useAsset: string -> AssetState,
                    bounds: Bounds, scaleFactor: real, trig: real -> Trig): (r: Option<DrawCall>)
    // When a draw happens, and from which source.
    ensures r.Some? <==> color.Some? && (path.Some? || (externalPath.Some? && ReadyBytes(useAsset(externalPath.value)).Some?))
    ensures r.Some? && path.Some? ==> r.value.path == path.value && r.value.bytes.None?
    ensures r.Some? && path.None? ==>
              r.value.path == externalPath.value && r.value.bytes == ReadyBytes(useAsset(externalPath.value))
    // Every draw uses the layout bounds, the color and the element's transformation.
    ensures r.Some? ==>
              r.value.bounds == bounds && r.value.color == color.value &&
              r.value.transformation == PaintMatrix(transformation, bounds, scaleFactor, trig)
  {
    if path.Some? && color.Some? then
      Some(DrawCall(bounds, path.value, None, PaintMatrix(transformation, bounds, scaleFactor, trig), color.value))
    else if externalPath.Some? && color.Some? then
      match useAsset(externalPath.value)
      case Some(Ok(bytes)) =>
        Some(DrawCall(bounds, externalPath.value, Some(bytes),
                      PaintMatrix(transformation, bounds, scaleFactor, trig), color.value))
      case _ => None
    else
      None
  }

  /**
   * A registered path takes precedence: the external path and its asset
   * state do not influence what is drawn.
   */
  lemma PathTakesPrecedence(path: string, externalPath: Option<string>, externalPath': Option<string>,
                            transformation: Option<Transformation>, color: Option<Hsla>,
                            useAsset: string -> AssetState, useAsset': string -> AssetState,
                            bounds: Bounds, scaleFactor: real, trig: real -> Trig)
    ensures PaintSvg(Some(path), externalPath, transformation, color, useAsset, bounds, scaleFactor, trig)
            == PaintSvg(Some(path), externalPath', transformation, color, useAsset', bounds, scaleFactor, trig)
  {
  }

  /** Without a color nothing is drawn, on either path. */
  lemma NoColorNoDraw(path: Option<string>, externalPath: Option<string>, transformation: Option<Transformation>,
                      useAsset: string -> AssetState, bounds: Bounds, scaleFactor: real, trig: real -> Trig)
    ensures PaintSvg(path, externalPath, transformation, None, useAsset, bounds, scaleFactor, trig).None?
  {
  }

  /** On the external path a pending or failed read draws nothing. */
  lemma UnavailableAssetNoDraw(externalPath: string, transformation: Option<Transformation>, color: Option<Hsla>,
                               useAsset: string -> AssetState, bounds: Bounds, scaleFactor: real, trig: real -> Trig)
    requires useAsset(externalPath).None? || useAsset(externalPath).value.Err?
    ensures PaintSvg(None, Some(externalPath), transformation, color, useAsset, bounds, scaleFactor, trig).None?
  {
  }

  /** No transformation and the default transformation paint with the same (unit) matrix. */
  lemma DefaultTransformationIsNone(bounds: Bounds, scaleFactor: real, trig: real -> Trig)
    requires trig(0.0) == Trig(1.0, 0.0)
    ensures PaintMatrix(Some(Default()), bounds, scaleFactor, trig) == PaintMatrix(None, bounds, scaleFactor, trig)
  {
    DefaultIsUnit(Center(bounds), scaleFactor, trig);
  }
}
