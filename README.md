# SVG element: sizing, transformation and paint dispatch

A model of the SVG element of the GPUI UI framework (`crates/gpui/src/elements/svg.rs`).
The element draws vector content from one of two sources. A *registered path* names an
asset in the application's asset source and is drawn by reference. An *external path*
names a file whose bytes are read asynchronously and handed to the renderer. Three pieces
of decision logic are modelled and proved:

- **Layout sizing** (`Sizing`, `Element.Svg.RequestLayout`). On layout, an element with a
  registered path probes that path's content for its intrinsic size. It retries on every
  pass until a probe succeeds, then keeps that size for the rest of the instance's life.
  An element with only an external path is never probed, so it gets no aspect ratio and
  its `Auto` axes stay `Auto`. Once the size is known, the element declares the content's
  aspect ratio and fills in the `Auto` axes of its style. An `Auto`
  axis is derived from the other axis only when that axis is a definite *absolute* length.
  Otherwise it takes the intrinsic extent. The height step reads the width the width step
  may have just written. `Sizing.ResolveStyle` performs these writes in sequence.
  `Sizing.SizedStyle` is an axis-by-axis reference definition. The method is proved equal
  to it, including the case where both axes are `Auto`: there the height is
  `w / (w / h) = h`.
- **Transformation** (`Transform`, `Affine`). These are the builder functions of the
  `Transformation` value. `into_matrix` composes
  `translate(c·s + t·s) · rotate(r) · scale(k) · translate(−c·s)` over 2D affine matrices.
  Here c is the bounds center and s the device scale factor. The model proves what the
  matrix does to every point. It proves the default transformation gives the unit matrix.
  It proves a pure translation moves every point by `t·s`, whatever the center. It proves
  the center is the pivot of rotation and scaling.
- **Paint dispatch** (`Paint.PaintSvg`). This decides which draw call, if any, paint
  issues. A registered path wins over an external one and is drawn without bytes. An
  external path is drawn with its bytes only once its read has finished and succeeded.
  Without a text color nothing is drawn.

Quantities are exact reals, not 32-bit floats. The element's collaborators appear as
parameters:
- the asset source: `source`, a function from path to `Result<Option<bytes>, error>`;
- the vector-graphics parser: `parse`, from bytes to `Result<IntrinsicSize, error>`;
- the window's asset cache for external files: `useAsset`, from path to
  `Option<Result<bytes, io-error>>`;
- cosine and sine: `trig`, from an angle to its cosine and sine.

The laws about rotation assume only that `trig(0.0)` is cosine 1, sine 0.

The parser's tree size is always strictly positive on both axes. So the intrinsic size is
modelled with positive components, and the aspect ratio is always defined.

Several gpui definitions that the element relies on are defined elsewhere in gpui:
`TransformationMatrix` (its `unit`, `compose`, `translate`, `rotate`, `scale`),
`AbsoluteLength::to_pixels`, `Bounds::center`, `Point::scale` and the `Length` types.
`Geometry` and `Affine` give them their standard meanings. A matrix product applies its right factor
first. Rems are multiplied by the root font size. The center is the midpoint of the bounds.

Two behaviours of the code are worth stating on their own:
- With both axes `Auto`, the code derives the height from the width it has just written
  (`w / ar`). Over the reals this equals the intrinsic height (`Sizing.ResolveStyle`).
- On the registered path, paint does no lookup and always issues the draw by reference.
  `Paint.PaintSvg` does the same.

## Model

| member | source | states |
|---|---|---|
| `Sizing.Probe` | crates/gpui/src/elements/svg.rs:80-84 | a size is found exactly when the asset source has bytes for the path and they parse; it is the parsed size |
| `Sizing.CachedSize` | crates/gpui/src/elements/svg.rs:79-85 | a cached size is kept; otherwise the registered path is probed; with no path and no cached size nothing is known |
| `Sizing.CacheIsSticky` | crates/gpui/src/elements/svg.rs:79-86 | once a size is cached, any later probe, whatever the path, asset source and parser, leaves it unchanged |
| `Sizing.SizedStyle` | crates/gpui/src/elements/svg.rs:86-107 | no size: style unchanged, aspect ratio not set; with a size: aspect ratio = w/h even when both axes are definite; a definite axis is never overwritten; an absolute axis anchors an `Auto` one (width = ar·px(h), height = px(w)/ar); otherwise an `Auto` axis takes the intrinsic extent |
| `Sizing.ResolveStyle` | crates/gpui/src/elements/svg.rs:86-107 | the sequential writes (aspect ratio, then width, then a height that reads the new width) give exactly the reference sizing, including height = intrinsic height when both axes are `Auto` |
| `Sizing.BothAutoRoundTrip` | crates/gpui/src/elements/svg.rs:95-104 | deriving the height from the freshly written intrinsic width gives back the intrinsic height: w / (w/h) = h |
| `Sizing.DerivedSizeKeepsAspectRatio` | crates/gpui/src/elements/svg.rs:87-105 | when an axis is `Auto` and the other is `Auto` or absolute, both result axes are absolute and width = ar · height in pixels |
| `Sizing.FractionIsNotAnAnchor` | crates/gpui/src/elements/svg.rs:91-105 | the value of a fractional (relative) axis never affects the other axis |
| `Affine.ApplyCompose` | crates/gpui/src/elements/svg.rs:286-292 | a matrix product applies its right factor first, so the chain is read from the bottom |
| `Transform.Default` | crates/gpui/src/elements/svg.rs:228-235 | unit scale, zero translation, zero rotation |
| `Transform.ScaleBy` | crates/gpui/src/elements/svg.rs:240-246 | sets the scale; translation and rotation are the defaults |
| `Transform.TranslateBy` | crates/gpui/src/elements/svg.rs:249-255 | sets the translation; scale and rotation are the defaults |
| `Transform.RotateBy` | crates/gpui/src/elements/svg.rs:258-265 | sets the rotation; scale and translation are the defaults |
| `Transform.WithScaling` | crates/gpui/src/elements/svg.rs:268-271 | replaces the scale and keeps translation and rotation |
| `Transform.WithTranslation` | crates/gpui/src/elements/svg.rs:274-277 | replaces the translation and keeps scale and rotation |
| `Transform.WithRotation` | crates/gpui/src/elements/svg.rs:280-283 | replaces the rotation and keeps scale and translation |
| `Transform.IntoMatrix` | crates/gpui/src/elements/svg.rs:285-292 | the chain `translate(c·s + t·s) · rotate(r) · scale(k) · translate(−c·s)`; its rotation-and-scale part is rotation after scaling (cos·kx, −sin·ky, sin·kx, cos·ky), whatever the center, scale factor and translation; what it does to every point is stated by `IntoMatrixMapsPoint` |
| `Transform.ConstructorsAreSettersOnDefault` | crates/gpui/src/elements/svg.rs:240-283 | each named constructor equals its setter applied to the default |
| `Transform.IntoMatrixMapsPoint` | crates/gpui/src/elements/svg.rs:285-292 | the matrix sends p to c·s + t·s + R(K(p − c·s)): scale, then rotate about the scaled center, then translate by the scaled translation |
| `Transform.DefaultIsUnit` | crates/gpui/src/elements/svg.rs:285-292 | the default transformation composes to the unit matrix for every center and scale factor |
| `Transform.PureTranslation` | crates/gpui/src/elements/svg.rs:285-292 | a translation-only transformation composes to the translation by translate · scale factor, whatever the center |
| `Transform.CenterIsPivot` | crates/gpui/src/elements/svg.rs:285-292 | the scaled center is moved by the scaled translation only, whatever the scale and rotation |
| `Paint.PaintMatrix` | crates/gpui/src/elements/svg.rs:155-161 | without a transformation the unit matrix; with one, its matrix at the bounds' center and the window's scale factor |
| `Paint.ReadyBytes` | crates/gpui/src/elements/svg.rs:169-171 | bytes are available exactly when the external read has finished with `Ok`, and they are that read's bytes; a pending or failed read gives none |
| `Paint.PaintSvg` | crates/gpui/src/elements/svg.rs:153-195 | a draw happens exactly when there is a color and either a registered path or an external path whose read succeeded; the registered path is drawn with no bytes, the external one with its bytes; bounds, color and matrix are passed through |
| `Paint.PathTakesPrecedence` | crates/gpui/src/elements/svg.rs:154-166 | with a registered path, the external path and its asset state make no difference |
| `Paint.NoColorNoDraw` | crates/gpui/src/elements/svg.rs:154-167 | without a text color nothing is drawn, on either path |
| `Paint.UnavailableAssetNoDraw` | crates/gpui/src/elements/svg.rs:169-174 | on the external path a pending or failed read draws nothing |
| `Paint.DefaultTransformationIsNone` | crates/gpui/src/elements/svg.rs:155-161 | the default transformation and no transformation paint with the same matrix |
| `Element.Svg.constructor` | crates/gpui/src/elements/svg.rs:22-30 | a new element has no transformation, size, path or external path |
| `Element.Svg.Path` | crates/gpui/src/elements/svg.rs:34-38 | sets the registered path and changes nothing else |
| `Element.Svg.ExternalPath` | crates/gpui/src/elements/svg.rs:41-44 | sets the external path and changes nothing else |
| `Element.Svg.WithTransformation` | crates/gpui/src/elements/svg.rs:48-51 | sets the transformation and changes nothing else |
| `Element.Svg.RequestLayout` | crates/gpui/src/elements/svg.rs:79-107 | updates the cached size as `CachedSize` says and never replaces a cached size; returns the reference sizing of the style for the new size, and the style unchanged when no size is known |
| `Element.Svg.PaintCall` | crates/gpui/src/elements/svg.rs:153-195 | a draw needs a color and a path; bytes are passed exactly when no registered path is set |
| `Element.LayoutTwice` | crates/gpui/src/elements/svg.rs:79-86 | once the first layout pass has cached a size, a second pass gives the same style, even if the content has changed |

## Left out

- `SvgAsset::load` (svg.rs:297-311): an asynchronous file read. Only its outcome is modelled, as the `useAsset` parameter.
- The window's asset cache (`window.use_asset`): de-duplication of concurrent reads, and caching of a failed read. These are concurrency and I/O in code that is not part of this model. A second paint that sees a cached failure draws nothing, as `Paint.UnavailableAssetNoDraw` states.
- `cx.asset_source().load` and `usvg::Tree::from_data` (svg.rs:81-82): foreign calls, modelled as the parameters `source` and `parse`.
- The log of a failed external read (svg.rs:171): `asset.log_err()` logs the cached error on every paint that observes it, not once when the file is read. Logging is not modelled; the model keeps only its effect, that nothing is drawn.
- `window.paint_svg` and `log_err` (svg.rs:163-165, 184-193): the renderer's draw call. The model returns its arguments as a `DrawCall` value. A failure of the draw is logged and ignored by the source, so it is not modelled.
- `window.request_layout` and the rest of the style: only width, height and aspect ratio are modelled, because sizing reads and writes nothing else.
- `Interactivity`, `id`, `source_location`, `prepaint`, the hitbox, `IntoElement`, `Styled` and `InteractiveElement` (svg.rs:58-64, 114-132, 200-218): delegation to framework code that is not part of this model.
- 32-bit float rounding: all quantities are exact reals. So `w / (w / h) = h` holds exactly in the model but only approximately in the source.
- Rotation: cosine and sine are not computed. They come from the `trig` parameter, and only their value at angle 0 is assumed.
- `TransformationMatrix::compose` returns its left operand unchanged when the right one is the unit matrix. Over the reals the plain product gives the same value, so the model uses the product alone.
