/** The layout engine: `calculateDimensions` of the generator (script.js:126-195). */
module LayoutEngine {
  import opened Geometry

  /** The canvas is always 400 high and 3:2, so 600 wide. */
  const CanvasHeight: real := 400.0
  const CanvasWidth: real := CanvasHeight * 3.0 / 2.0

  /** Width of the dominant tile for a photo-size percentage. */
  function BaseLargestWidth(photoSize: int): real
  {
    CanvasHeight * photoSize as real / 100.0
  }

  /** The unplaced record of one scale tier; every tier carries the same crop anchor. */
  function SizeRecord(s: Settings, scale: real): Tile
  {
    Tile(BaseLargestWidth(s.photoSize) * scale, CanvasHeight * scale, scale, s.cropX, s.cropY, 0.0, 0.0)
  }

  /** The three tier records in the order they are built: 1.0, 0.7, 0.4. */
  function Sizes(s: Settings): seq<Tile>
  {
    [SizeRecord(s, 1.0), SizeRecord(s, 0.7), SizeRecord(s, 0.4)]
  }

  /** The tiers in drawing order: reversed when shrinking. */
  function Ordered(d: Direction, ts: seq<Tile>): seq<Tile>
  {
    if d == Shrinking then seq(|ts|, i requires 0 <= i < |ts| => ts[|ts| - 1 - i]) else ts
  }

  /** Sum of the widths, folded left to right as `reduce` does. */
  function SumWidths(ts: seq<Tile>): real
  {
    if ts == [] then 0.0 else SumWidths(ts[..|ts| - 1]) + ts[|ts| - 1].width
  }

  /** Left margin that centres a row of tiles on the canvas. */
  function StartX(ts: seq<Tile>): real
  {
    (CanvasWidth - SumWidths(ts)) / 2.0
  }

  /** Vertical position of a tile: the dominant tile is pinned to the top, the
      others follow the alignment. */
  function AlignedY(t: Tile, a: Alignment): real
  {
    if t.scale == 1.0 then 0.0
    else match a
      case Top => 0.0
      case Bottom => CanvasHeight - t.height
      case Center => (CanvasHeight - t.height) / 2.0
  }

  /** Tile `ts[i]` placed at its slot in a row that starts at `startX`. */
  function PlaceAt(ts: seq<Tile>, i: nat, startX: real, a: Alignment): Tile
    requires i < |ts|
  {
    ts[i].(x := startX + SumWidths(ts[..i]), y := AlignedY(ts[i], a))
  }

  /** Every tile of `ts` placed in a row from `startX`, without gaps. */
  function Placed(ts: seq<Tile>, startX: real, a: Alignment): seq<Tile>
  {
    seq(|ts|, i requires 0 <= i < |ts| => PlaceAt(ts, i, startX, a))
  }

  /** The layout: nothing without an image; otherwise the three tiers, ordered,
      centred as a group and aligned, on the fixed 600 x 400 canvas. */
  function Layout(image: Option<ImageSize>, s: Settings): (r: Option<Dimensions>)
    ensures r.Some? <==> image.Some?
    ensures r.Some? ==> |r.value.sizes| == 3
    ensures r.Some? ==> r.value.canvasHeight == 400.0 && r.value.canvasWidth * 2.0 == r.value.canvasHeight * 3.0
  {
    if image.None? then None
    else
      var ordered := Ordered(s.direction, Sizes(s));
      Some(Dimensions(Placed(ordered, StartX(ordered), s.alignment), CanvasWidth, CanvasHeight))
  }

  /** The imperative algorithm: build the three records, reverse them in place
      when shrinking, then place them. */
  method CalculateDimensions(image: Option<ImageSize>, s: Settings) returns (r: Option<Dimensions>)
    ensures r == Layout(image, s)
  {
    if image.None? {
      return None;
    }
    var canvasHeight := 400.0;
    var canvasWidth := (canvasHeight * 3.0) / 2.0;
    var largestHeight := canvasHeight;
    var baseLargestWidth := (largestHeight * s.photoSize as real) / 100.0;
    var sizes := new Tile[] [
      Tile(baseLargestWidth, largestHeight, 1.0, s.cropX, s.cropY, 0.0, 0.0),
      Tile(baseLargestWidth * 0.7, largestHeight * 0.7, 0.7, s.cropX, s.cropY, 0.0, 0.0),
      Tile(baseLargestWidth * 0.4, largestHeight * 0.4, 0.4, s.cropX, s.cropY, 0.0, 0.0)
    ];
    assert sizes[0] == SizeRecord(s, 1.0) && sizes[1] == SizeRecord(s, 0.7) && sizes[2] == SizeRecord(s, 0.4);
    assert sizes[..] == Sizes(s);
    if s.direction == Shrinking {
      // Array.prototype.reverse on three elements
      sizes[0], sizes[2] := sizes[2], sizes[0];
    }
    assert sizes[..] == Ordered(s.direction, Sizes(s));

    var totalPhotoWidth := SumWidths(sizes[..]);
    var startX := (canvasWidth - totalPhotoWidth) / 2.0;
    PlaceRow(sizes, startX, s.alignment);
    r := Some(Dimensions(sizes[..], canvasWidth, canvasHeight));
  }

  /** The `forEach` pass: walks the records with a running `currentX`, giving
      each its x and, by the alignment rule, its y. */
  method PlaceRow(sizes: array<Tile>, startX: real, alignment: Alignment)
    modifies sizes
    ensures sizes[..] == Placed(old(sizes[..]), startX, alignment)
  {
    var canvasHeight := 400.0;
    ghost var ordered := sizes[..];
    var currentX := startX;
    var i := 0;
    while i < sizes.Length
      invariant 0 <= i <= sizes.Length
      invariant currentX == startX + SumWidths(ordered[..i])
      invariant forall k :: 0 <= k < i ==> sizes[k] == PlaceAt(ordered, k, startX, alignment)
      invariant forall k :: i <= k < sizes.Length ==> sizes[k] == ordered[k]
    {
      var size := sizes[i];
      var y: real;
      if size.scale == 1.0 {
        y := 0.0;
      } else {
        match alignment
        case Top => y := 0.0;
        case Bottom => y := canvasHeight - size.height;
        case Center => y := (canvasHeight - size.height) / 2.0;
      }
      assert size == ordered[i] && y == AlignedY(size, alignment);
      sizes[i] := size.(x := currentX, y := y);
      assert sizes[i] == PlaceAt(ordered, i, startX, alignment);
      assert ordered[..i + 1][..i] == ordered[..i];
      currentX := currentX + size.width;
      i := i + 1;
    }
    assert sizes[..] == Placed(ordered, startX, alignment);
  }

  // ----- Properties of the layout -----

  /** Equal widths, slot by slot, give equal sums. */
  lemma {:induction false} SumWidthsOfSameWidths(ts: seq<Tile>, us: seq<Tile>)
    requires |ts| == |us|
    requires forall i :: 0 <= i < |ts| ==> ts[i].width == us[i].width
    ensures SumWidths(ts) == SumWidths(us)
  {
    if ts != [] {
      SumWidthsOfSameWidths(ts[..|ts| - 1], us[..|us| - 1]);
    }
  }

  /** In a placed row each tile after the first starts where the previous one ends. */
  lemma {:induction false} PlacedStep(ts: seq<Tile>, startX: real, a: Alignment, i: nat)
    requires 0 < i < |ts|
    ensures Placed(ts, startX, a)[i].x == Placed(ts, startX, a)[i - 1].x + ts[i - 1].width
  {
    assert ts[..i][..i - 1] == ts[..i - 1];
  }

  /** A placed row is contiguous: the first tile starts at `startX`, each later
      tile starts where the previous one ends, the widths are unchanged, and the
      row ends at `startX` plus the total width. */
  lemma {:induction false} PlacedIsContiguous(ts: seq<Tile>, startX: real, a: Alignment)
    ensures |Placed(ts, startX, a)| == |ts|
    ensures |ts| > 0 ==> Placed(ts, startX, a)[0].x == startX
    ensures forall i :: 0 < i < |ts| ==>
      Placed(ts, startX, a)[i].x == Placed(ts, startX, a)[i - 1].x + Placed(ts, startX, a)[i - 1].width
    ensures SumWidths(Placed(ts, startX, a)) == SumWidths(ts)
    ensures |ts| > 0 ==> Placed(ts, startX, a)[|ts| - 1].x + ts[|ts| - 1].width == startX + SumWidths(ts)
  {
    var p := Placed(ts, startX, a);
    forall i | 0 < i < |ts|
      ensures p[i].x == p[i - 1].x + p[i - 1].width
    {
      PlacedStep(ts, startX, a, i);
    }
    SumWidthsOfSameWidths(p, ts);
    if |ts| > 0 {
      assert ts[..|ts| - 1 + 1] == ts;
    }
  }

  /** A placed row of three tiles, written out. */
  lemma {:induction false} PlacedThree(ts: seq<Tile>, startX: real, a: Alignment)
    requires |ts| == 3
    ensures SumWidths(ts) == ts[0].width + ts[1].width + ts[2].width
    ensures Placed(ts, startX, a) == [
      ts[0].(x := startX, y := AlignedY(ts[0], a)),
      ts[1].(x := startX + ts[0].width, y := AlignedY(ts[1], a)),
      ts[2].(x := startX + ts[0].width + ts[1].width, y := AlignedY(ts[2], a))]
  {
    assert ts[..1][..0] == [] && ts[..2][..1] == ts[..1] && ts[..3] == ts;
    assert SumWidths(ts[..1]) == ts[0].width;
    assert SumWidths(ts[..2]) == ts[0].width + ts[1].width;
    assert SumWidths(ts) == ts[0].width + ts[1].width + ts[2].width;
  }

  /** Every tile keeps its tier's size and carries the crop anchor of the settings. */
  lemma TileSizes(image: ImageSize, s: Settings)
    ensures var d := Layout(Some(image), s).value;
      forall i :: 0 <= i < 3 ==>
        d.sizes[i].width == 400.0 * s.photoSize as real / 100.0 * d.sizes[i].scale &&
        d.sizes[i].height == 400.0 * d.sizes[i].scale &&
        d.sizes[i].cropX == s.cropX && d.sizes[i].cropY == s.cropY
  {
  }

  /** Growing draws the tiers 1.0, 0.7, 0.4 from left to right; shrinking draws
      exactly the reverse. */
  lemma TierOrder(image: ImageSize, s: Settings)
    ensures var d := Layout(Some(image), s).value;
      [d.sizes[0].scale, d.sizes[1].scale, d.sizes[2].scale] ==
        if s.direction == Growing then [1.0, 0.7, 0.4] else [0.4, 0.7, 1.0]
  {
  }

  /** The shrinking layout is the growing layout mirrored about the vertical
      centre line of the canvas. */
  lemma ShrinkingMirrorsGrowing(image: ImageSize, s: Settings)
    ensures var g := Layout(Some(image), s.(direction := Growing)).value;
      var h := Layout(Some(image), s.(direction := Shrinking)).value;
      forall i :: 0 <= i < 3 ==>
        h.sizes[i] == g.sizes[2 - i].(x := 600.0 - g.sizes[2 - i].x - g.sizes[2 - i].width)
  {
    var gs := Ordered(Growing, Sizes(s));
    var hs := Ordered(Shrinking, Sizes(s));
    assert hs == [gs[2], gs[1], gs[0]];
    PlacedThree(gs, StartX(gs), s.alignment);
    PlacedThree(hs, StartX(hs), s.alignment);
  }

  /** The tiles form one gap-free row centred on the canvas: equal margins left
      and right. */
  lemma CentredRow(image: ImageSize, s: Settings)
    ensures var d := Layout(Some(image), s).value;
      var total := d.sizes[0].width + d.sizes[1].width + d.sizes[2].width;
      && d.sizes[0].x == (600.0 - total) / 2.0
      && d.sizes[1].x == d.sizes[0].x + d.sizes[0].width
      && d.sizes[2].x == d.sizes[1].x + d.sizes[1].width
      && d.sizes[0].x + total + d.sizes[0].x == d.canvasWidth
      && 600.0 - (d.sizes[2].x + d.sizes[2].width) == d.sizes[0].x
  {
    var ordered := Ordered(s.direction, Sizes(s));
    PlacedThree(ordered, StartX(ordered), s.alignment);
  }

  /** Exactly one tile is dominant (scale 1.0); it is leftmost when growing and
      rightmost when shrinking, and always spans the full canvas height. */
  lemma DominantTile(image: ImageSize, s: Settings)
    ensures var d := Layout(Some(image), s).value;
      var k := if s.direction == Growing then 0 else 2;
      && d.sizes[k].scale == 1.0
      && (forall i :: 0 <= i < 3 && i != k ==> d.sizes[i].scale != 1.0)
      && d.sizes[k].y == 0.0
      && d.sizes[k].height == d.canvasHeight
  {
  }

  /** The two smaller tiles follow the alignment: flush top, flush bottom, or
      vertically centred. */
  lemma SmallerTilesFollowAlignment(image: ImageSize, s: Settings)
    ensures var d := Layout(Some(image), s).value;
      forall i :: 0 <= i < 3 && d.sizes[i].scale != 1.0 ==>
        d.sizes[i].y == match s.alignment
          case Top => 0.0
          case Bottom => 400.0 - d.sizes[i].height
          case Center => (400.0 - d.sizes[i].height) / 2.0
  {
  }

  /** Whatever the settings, every tile lies vertically within the canvas. */
  lemma TilesWithinCanvasHeight(image: ImageSize, s: Settings)
    ensures var d := Layout(Some(image), s).value;
      forall i :: 0 <= i < 3 ==>
        0.0 < d.sizes[i].height && 0.0 <= d.sizes[i].y && d.sizes[i].y + d.sizes[i].height <= d.canvasHeight
  {
  }

  /** Every tile has a positive height, and a non-negative width when the photo
      size is not negative. */
  lemma TileExtent(image: ImageSize, s: Settings, i: nat)
    requires i < 3
    ensures var t := Layout(Some(image), s).value.sizes[i];
      t.height > 0.0 && (s.photoSize >= 0 ==> t.width >= 0.0)
  {
    TileSizes(image, s);
    TierOrder(image, s);
  }

  /** Full-size photo, growing, top-aligned: tiles 400, 280 and 160 wide, all at
      y = 0, the row starting 120 units left of the canvas. */
  lemma GrowingTopScenario(image: ImageSize)
    ensures Layout(Some(image), Settings(Growing, Top, 100, 50.0, 50.0)).value.sizes == [
      Tile(400.0, 400.0, 1.0, 50.0, 50.0, -120.0, 0.0),
      Tile(280.0, 280.0, 0.7, 50.0, 50.0, 280.0, 0.0),
      Tile(160.0, 160.0, 0.4, 50.0, 50.0, 560.0, 0.0)]
  {
    var ordered := Ordered(Growing, Sizes(Settings(Growing, Top, 100, 50.0, 50.0)));
    PlacedThree(ordered, StartX(ordered), Top);
  }

  /** Bottom alignment puts the 160-high tile at y = 240; centre alignment puts
      the 280-high tile at y = 60. */
  lemma AlignmentScenarios(image: ImageSize)
    ensures Layout(Some(image), Settings(Shrinking, Bottom, 100, 50.0, 50.0)).value.sizes[0].y == 240.0
    ensures Layout(Some(image), Settings(Growing, Center, 100, 50.0, 50.0)).value.sizes[1].y == 60.0
  {
  }
}
