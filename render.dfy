/** What `generatePreview` and `exportGraphic` hand to the canvas (script.js:197-221,
    296-319): one `drawImage` call per tile, in drawing order. Both paths draw
    the same list, so the export matches the preview. */
module Render {
  import opened Geometry
  import opened LayoutEngine
  import opened Crop
  import opened Generator

  /** The arguments of one `drawImage` call: the source rectangle in the photo
      and the destination rectangle on the canvas. */
  datatype DrawCall = DrawCall(source: Rect, dest: Rect)

  /** The draw calls for the current settings; nothing is drawn without a photo. */
  function DrawCalls(image: Option<ImageSize>, s: Settings): (calls: seq<DrawCall>)
    requires image.Some? ==> ValidImage(image.value)
    ensures image.None? <==> calls == []
    ensures image.Some? ==> |calls| == 3
  {
    match Layout(image, s)
    case None => []
    case Some(d) =>
      TilesWithinCanvasHeight(image.value, s);
      seq(|d.sizes|, i requires 0 <= i < |d.sizes| => DrawCall(SourceRect(image.value, d.sizes[i]), DestRect(d.sizes[i])))
  }

  /** The `i`-th draw call samples the crop of the `i`-th tile into that tile. */
  lemma DrawCallOfTile(image: ImageSize, s: Settings, i: nat)
    requires ValidImage(image) && i < 3
    ensures var t := Layout(Some(image), s).value.sizes[i];
      t.height > 0.0 && DrawCalls(Some(image), s)[i] == DrawCall(SourceRect(image, t), DestRect(t))
  {
    TileExtent(image, s, i);
  }

  /** A draw call fits its tile: the source lies inside the photo and has the
      destination's aspect ratio. */
  predicate Fits(c: DrawCall, image: ImageSize)
  {
    Inside(c.source, image) && c.dest.height > 0.0 && SameAspect(c.source, c.dest.width, c.dest.height)
  }

  /** The `i`-th draw call of a layout with a non-negative photo size fits its tile. */
  lemma DrawFitsTile(image: ImageSize, s: Settings, i: nat)
    requires ValidImage(image) && s.photoSize >= 0 && i < 3
    ensures Fits(DrawCalls(Some(image), s)[i], image)
  {
    var t := Layout(Some(image), s).value.sizes[i];
    DrawCallOfTile(image, s, i);
    TileExtent(image, s, i);
    CropInsideImage(image, t);
  }

  /** Every tile of a layout with a non-negative photo size samples a window
      inside the photo with exactly its own aspect ratio, so nothing is
      stretched and nothing is read outside the photo. */
  lemma EveryDrawFitsItsTile(image: ImageSize, s: Settings)
    requires ValidImage(image) && s.photoSize >= 0
    ensures forall c :: c in DrawCalls(Some(image), s) ==> Fits(c, image)
  {
    var calls := DrawCalls(Some(image), s);
    forall i | 0 <= i < |calls|
      ensures Fits(calls[i], image)
    {
      DrawFitsTile(image, s, i);
    }
  }

  /** The source of a draw for tile `t` sits at the given percentages along
      the axis the crop cuts. */
  predicate AnchoredBy(c: DrawCall, t: Tile, image: ImageSize, cropX: real, cropY: real)
    requires ValidImage(image)
  {
    t.height > 0.0 &&
    if CropsHorizontally(image, t) then
      c.source.x == PercentOf(image.width - c.source.width, cropX)
    else
      c.source.y == PercentOf(image.height - c.source.height, cropY)
  }

  /** The `i`-th draw call is placed by the layout's anchor. */
  lemma DrawAnchoredBySettings(image: ImageSize, s: Settings, i: nat)
    requires ValidImage(image) && i < 3
    requires 0.0 <= s.cropX <= 100.0 && 0.0 <= s.cropY <= 100.0
    ensures AnchoredBy(DrawCalls(Some(image), s)[i], Layout(Some(image), s).value.sizes[i], image, s.cropX, s.cropY)
  {
    var t := Layout(Some(image), s).value.sizes[i];
    TileSizes(image, s);
    DrawCallOfTile(image, s, i);
    TileExtent(image, s, i);
    CropAnchoredByPercent(image, t);
  }

  /** With anchors in [0, 100] all three crops sit at the same relative position
      along their cropped axis: the anchor captured once for the whole layout. */
  lemma CropsShareTheAnchor(image: ImageSize, s: Settings)
    requires ValidImage(image)
    requires 0.0 <= s.cropX <= 100.0 && 0.0 <= s.cropY <= 100.0
    ensures var d := Layout(Some(image), s).value;
      var calls := DrawCalls(Some(image), s);
      forall i :: 0 <= i < 3 ==> AnchoredBy(calls[i], d.sizes[i], image, s.cropX, s.cropY)
  {
    forall i | 0 <= i < 3
      ensures AnchoredBy(DrawCalls(Some(image), s)[i], Layout(Some(image), s).value.sizes[i], image, s.cropX, s.cropY)
    {
      DrawAnchoredBySettings(image, s, i);
    }
  }

  /** Every frame the generator draws, preview or export, places each crop at
      the generator's own anchor: the object invariant keeps the anchors in
      [0, 100], so the clamp into the photo never moves a window. */
  lemma GeneratorDrawsAtItsAnchor(g: CompoundingGraphicsGenerator)
    requires g.Valid() && g.image.Some?
    ensures var s := g.CurrentSettings();
      forall i :: 0 <= i < 3 ==>
        AnchoredBy(DrawCalls(g.image, s)[i], Layout(g.image, s).value.sizes[i], g.image.value, g.cropX, g.cropY)
  {
    CropsShareTheAnchor(g.image.value, g.CurrentSettings());
  }
}
