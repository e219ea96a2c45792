# Compounding graphics generator — geometry model

The compounding graphics generator takes one uploaded photo and composes three
scaled, cropped copies of it side by side on a fixed 3:2 canvas (600 x 400). The
copies are scaled 1.0, 0.7 and 0.4. In the growing direction the largest one is
drawn first, and in the shrinking direction the order is reversed. The row is
centred horizontally. The dominant (scale 1.0) tile always spans the full
canvas height, and the two smaller tiles are aligned top, bottom or centre.
Each tile shows the largest region of the photo that has the tile's aspect
ratio. That region is positioned by a crop anchor (`cropX`, `cropY`, in
percent), which the user pans by dragging on the preview.

This Dafny project models that geometry and the state the drag changes:

- `geometry.dfy` (module `Geometry`): the shared values. These are the photo
  size, the settings record, the tile record that `calculateDimensions`
  returns, rectangles, and the direction and alignment enumerations.
- `layout.dfy` (module `LayoutEngine`): `calculateDimensions`. There is a
  specification function `Layout`, and an imperative method
  `CalculateDimensions` that builds the three records in an array, reverses
  them in place when shrinking, and places them with a running `currentX` loop
  (`PlaceRow`). The method is proved equal to `Layout`, and the layout's
  properties are proved as lemmas about `Layout`.
- `crop.dfy` (module `Crop`): the source rectangle that `drawCroppedImage` picks
  for a tile. This covers the aspect-ratio branch, the anchor percentage and
  the clamp into the photo. It comes with its fit, anchoring and maximality
  properties.
- `render.dfy` (module `Render`): the list of `drawImage` calls that
  `generatePreview` and `exportGraphic` issue, one per tile. It proves that
  every call fits its tile and that all three crops share the anchor.
- `generator.dfy` (module `Generator`): the `CompoundingGraphicsGenerator`
  object as a class. It holds the fields the source mutates, the image load,
  and the mouse-down, move and up handlers. The anchor update of a drag is
  the function `DragAnchor`, and its properties are proved as lemmas.

All geometry is over Dafny's exact `real` numbers.

## Model

| member | source | states |
|---|---|---|
| LayoutEngine.Layout | script.js:126-195 | No image gives no layout, and an image always gives one. A layout has exactly three tiles on a canvas 400 high and exactly 3:2. |
| LayoutEngine.CalculateDimensions | script.js:126-195 | The imperative algorithm: it builds the records, reverses them in place when shrinking, sums the widths and places the row. It returns exactly the layout `Layout` specifies, including `null` (None) without an image. |
| LayoutEngine.PlaceRow | script.js:165-192 | The `forEach` pass with a running `currentX`. Afterwards the array holds every record with x set to the start plus the widths of the records before it, and y set by the alignment rule. All other fields are unchanged. |
| LayoutEngine.SumWidthsOfSameWidths | script.js:166 | The `reduce` total of widths depends only on the widths, slot by slot. |
| LayoutEngine.PlacedIsContiguous | script.js:166-192 | For any number of records, the placed row starts at `startX` and has no gaps or overlaps (each tile starts where the previous one ends). It keeps the total width and ends at `startX` plus that total. |
| LayoutEngine.TileSizes | script.js:133-159 | Each tile is `400 * photoSize / 100 * scale` wide and `400 * scale` high. All tiles carry the current `cropX` and `cropY`. |
| LayoutEngine.TierOrder | script.js:137-163 | Growing draws scales 1.0, 0.7, 0.4 from left to right. Shrinking draws 0.4, 0.7, 1.0. |
| LayoutEngine.ShrinkingMirrorsGrowing | script.js:161-192 | The shrinking layout is the growing one mirrored about the canvas's vertical centre line. Tile i of shrinking equals tile 2-i of growing with x replaced by 600 - x - width. |
| LayoutEngine.CentredRow | script.js:165-192 | The row starts at (600 - total width) / 2, the tiles abut, and the left and right margins are equal. |
| LayoutEngine.DominantTile | script.js:173-175 | Exactly one tile has scale 1.0: the first when growing and the last when shrinking. It sits at y = 0 and is as high as the canvas. |
| LayoutEngine.SmallerTilesFollowAlignment | script.js:176-189 | A tile other than the dominant one sits at y = 0 for top, at 400 - height for bottom, and at (400 - height) / 2 for centre. |
| LayoutEngine.TilesWithinCanvasHeight | script.js:173-189 | Every tile has a positive height and lies vertically within the canvas, for every alignment. |
| LayoutEngine.TileExtent | script.js:134-158 | Every tile has a positive height. It has a non-negative width when `photoSize` is not negative. |
| LayoutEngine.GrowingTopScenario | script.js:126-195 | With photo size 100, growing and top: the tiles are 400, 280 and 160 square, at x = -120, 280 and 560, all at y = 0. The 840-wide row overflows the 600-wide canvas by 120 on each side. |
| LayoutEngine.AlignmentScenarios | script.js:177-188 | Bottom alignment puts the 160-high tile at y = 240. Centre alignment puts the 280-high tile at y = 60. |
| Crop.SourceRect | script.js:262-287 | The source rectangle has a positive height and exactly the tile's aspect ratio. It uses either the full photo width or the full photo height. |
| Crop.CropInsideImage | script.js:285-287 | For a tile of non-negative width, the clamped source rectangle lies inside the photo for any anchor, however large or negative. |
| Crop.WideCropAnchored | script.js:269-275 | A photo relatively wider than the tile is cropped left and right. The window is full height and starts at `cropX` percent of the horizontal slack, for an anchor in [0, 100]. |
| Crop.TallCropAnchored | script.js:276-283 | Otherwise the photo is cropped top and bottom. The window is full width and starts at `cropY` percent of the vertical slack, for an anchor in [0, 100]. |
| Crop.CropAnchoredByPercent | script.js:264-287 | For anchors in [0, 100] the clamp changes nothing. The window sits at the anchor's percentage along exactly the cropped axis. |
| Crop.CropAnchorExtremes | script.js:274-283 | On the cropped axis, anchor 0 puts the window flush left or top and anchor 100 puts it flush right or bottom, whatever the other anchor holds. |
| Crop.OnlyCroppedAxisAnchorMatters | script.js:269-283 | The anchor of the axis that is not cropped has no effect on the source rectangle. |
| Crop.CropIsLargest | script.js:264-283 | Every window inside the photo with the tile's aspect ratio is no wider and no taller than the chosen one, so the crop is the largest possible. |
| Render.DrawCalls | script.js:197-212 | Without an image nothing is drawn. With an image there are exactly three draws, one per tile. |
| Render.DrawCallOfTile | script.js:209-211 | The i-th draw pairs the i-th tile's source rectangle (`SourceRect`) with that tile's destination rectangle, and the tile has a positive height. |
| Render.EveryDrawFitsItsTile | script.js:209-211 | Every draw reads only from inside the photo and keeps the destination's aspect ratio, so nothing is stretched. This holds for `photoSize >= 0`. |
| Render.CropsShareTheAnchor | script.js:137-158 | For anchors in [0, 100], all three draws place their window at the same percentage along their cropped axis. |
| Render.GeneratorDrawsAtItsAnchor | script.js:285-287 | For a generator that keeps its invariant and holds a photo, every draw of the current settings places its window at the generator's own `cropX` or `cropY` percentage along the cropped axis. Because the invariant keeps the anchors in [0, 100], the clamp never moves a window the app draws. |
| Generator.DragAnchor | script.js:240-249 | The new anchor is always in [0, 100]. It is the old anchor minus delta / 20 when that is in range, 0 below the range, and 100 above it. |
| Generator.DragIsInverted | script.js:243-249 | For an anchor in [0, 100], which `Valid()` guarantees, dragging right or down never raises the anchor and dragging left or up never lowers it. |
| Generator.DragIsMonotone | script.js:248-249 | A longer drag moves the anchor at least as far. |
| Generator.DragBackRestores | script.js:248-249 | For an anchor in [0, 100], which `Valid()` guarantees, dragging back by the same distance restores the anchor, as long as the first drag did not hit an edge. |
| Generator.CompoundingGraphicsGenerator.constructor | script.js:2-14 | The defaults are: no image, growing, top, `#33ff00`, photo size 100, anchors 50/50, not dragging, last pointer (0, 0). The anchor invariant holds. |
| Generator.CompoundingGraphicsGenerator.ImageLoaded | script.js:107-109 | A decoded photo becomes the current image, and the invariant is kept. |
| Generator.CompoundingGraphicsGenerator.HandleMouseDown | script.js:223-229 | Without an image nothing changes. Otherwise a drag starts and the pointer position is remembered. |
| Generator.CompoundingGraphicsGenerator.HandleMouseMove | script.js:233-252 | When not dragging or without an image, nothing changes. Otherwise each anchor becomes `DragAnchor` of its old value and the pointer delta, and the pointer is remembered. The anchors stay in [0, 100]. |
| Generator.CompoundingGraphicsGenerator.HandleMouseUp | script.js:257-258 | The drag ends. |

## Left out

- DOM wiring is not modelled: the event-listener setup, `initializeDefaults`, the cursor styles, the export-button and placeholder visibility, and the bootstrap on `DOMContentLoaded`. None of it changes the geometry.
- The setters for direction, alignment, background colour and photo size (script.js:40-72) are not modelled. Each assigns a field and redraws. The photo-size setter also writes the percentage label (script.js:69), and the colour buttons move the `selected` class (script.js:57-59). Those are DOM updates. The settings are a parameter of `Layout`.
- File reading and image decoding (`FileReader`, `Image`, their error handlers) are I/O. `ImageLoaded` takes the decoded size, assumed positive.
- `getBoundingClientRect` is not modelled. Pointer positions are inputs to the handlers, already relative to the canvas.
- The canvas painting is not modelled: the background fill, the dashed border while dragging, and the pixels `drawImage` produces. The model stops at the rectangles passed to `drawImage`.
- The PNG export plumbing and its file name are not modelled, because they only perform I/O. The export draws the same calls as the preview (`Render.DrawCalls`).
- IEEE double rounding is not modelled. The geometry is exact real arithmetic, so `0.7` and `0.4` are exact and equality comparisons are exact.
- Direction and alignment are enumerations. The source can leave `y` undefined for an alignment string outside top/bottom/center, and that case cannot arise in the model.
- `parseInt` of the slider value is not modelled. `photoSize` is an integer parameter.
- Crop.CropInsideImage: requires a tile width >= 0 (that is, `photoSize >= 0`). For a negative width the source's window can leave the photo, and the model does not claim otherwise.
- Render.EveryDrawFitsItsTile: requires `photoSize >= 0`, for the same reason.

## Notes

- Growing draws the tiles with scales 1.0, 0.7, 0.4 from left to right, so the dominant tile comes first, and shrinking draws the reverse (script.js:137-163). `LayoutEngine.TierOrder` states this.
- A photo size of 0 does not divide by zero. The display aspect is then 0, below the photo's aspect, so the horizontal-crop branch is taken and the division on script.js:279 is never reached. The model keeps this.
