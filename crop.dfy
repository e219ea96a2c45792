/** The source rectangle chosen by `drawCroppedImage` (script.js:262-294): the
    largest region of the photo with the tile's aspect ratio, placed by the
    crop anchor. */
module Crop {
  import opened Geometry

  function DisplayAspectRatio(size: Tile): real
    requires size.height > 0.0
  {
    size.width / size.height
  }

  function ImageAspectRatio(image: ImageSize): real
    requires ValidImage(image)
  {
    image.width / image.height
  }

  /** The photo is relatively wider than the tile, so it is cropped left and right;
      otherwise it is cropped top and bottom. */
  predicate CropsHorizontally(image: ImageSize, size: Tile)
    requires ValidImage(image) && size.height > 0.0
  {
    ImageAspectRatio(image) > DisplayAspectRatio(size)
  }

  /** `percent` percent of `slack`: where an anchor puts the crop window. */
  function PercentOf(slack: real, percent: real): real
  {
    slack * (percent / 100.0)
  }

  /** `r` has the aspect ratio `width : height`, stated without dividing. */
  predicate SameAspect(r: Rect, width: real, height: real)
  {
    r.width * height == r.height * width
  }

  // ----- Arithmetic facts the crop rests on -----

  lemma QuotientFacts(a: real, b: real)
    requires b > 0.0
    ensures (a / b) * b == a
    ensures a > 0.0 ==> a / b > 0.0
    ensures a >= 0.0 ==> a / b >= 0.0
  {
  }

  lemma ProductLess(c: real, x: real, y: real)
    requires c > 0.0 && x < y
    ensures c * x < c * y
  {
    assert c * (y - x) > 0.0;
  }

  lemma ProductAtMost(c: real, x: real, y: real)
    requires c >= 0.0 && x <= y
    ensures x * c <= y * c
  {
    assert (y - x) * c >= 0.0;
  }

  lemma CancelFactor(c: real, x: real, y: real)
    requires c > 0.0 && x * c <= y * c
    ensures x <= y
  {
    if x > y {
      ProductLess(c, y, x);
    }
  }

  /** A percentage of a non-negative slack lies within that slack. */
  lemma PercentOfSlack(slack: real, percent: real)
    requires slack >= 0.0 && 0.0 <= percent <= 100.0
    ensures 0.0 <= slack * (percent / 100.0) <= slack
  {
    var p := percent / 100.0;
    assert 0.0 <= p <= 1.0;
    assert slack * (1.0 - p) >= 0.0;
  }

  /** The full-height crop of a photo relatively wider than the display
      aspect ratio `d` is narrower than the photo, and not negative when `d` is not. */
  lemma WideCropFits(iw: real, ih: real, d: real)
    requires iw > 0.0 && ih > 0.0
    requires iw / ih > d
    ensures ih * d < iw
    ensures d >= 0.0 ==> 0.0 <= ih * d
  {
    QuotientFacts(iw, ih);
    ProductLess(ih, d, iw / ih);
  }

  /** The full-width crop of a photo relatively taller than the display aspect
      ratio `d` has a positive height no larger than the photo's. */
  lemma TallCropFits(iw: real, ih: real, d: real)
    requires iw > 0.0 && ih > 0.0
    requires !(iw / ih > d)
    ensures d > 0.0
    ensures 0.0 < iw / d <= ih
    ensures (iw / d) * d == iw
  {
    var a := iw / ih;
    QuotientFacts(iw, ih);
    QuotientFacts(iw, d);
    var sh := iw / d;
    if sh > ih {
      ProductLess(d, ih, sh);
      ProductLess(ih, a, d);
    }
  }

  /** Dividing the photo width by the display aspect ratio keeps that ratio. */
  lemma TallCropAspect(iw: real, w: real, h: real)
    requires iw > 0.0 && h > 0.0 && w / h > 0.0
    ensures iw * h == (iw / (w / h)) * w
  {
    var d := w / h;
    QuotientFacts(w, h);
    QuotientFacts(iw, d);
    calc {
      (iw / d) * w;
      (iw / d) * (d * h);
      ((iw / d) * d) * h;
      iw * h;
    }
  }

  /** A window with the tile's aspect ratio is its height times that ratio. */
  lemma SameAspectWidth(w: real, h: real, size: Tile)
    requires size.height > 0.0 && w * size.height == h * size.width
    ensures w == h * DisplayAspectRatio(size)
  {
    var d := DisplayAspectRatio(size);
    QuotientFacts(size.width, size.height);
    assert w * size.height == (h * d) * size.height;
  }

  // ----- The crop rule -----

  /** The window of a relatively wider photo before clamping: full height, the
      tile's aspect ratio, shifted right by `cropX` percent of the slack. */
  function WideWindow(image: ImageSize, size: Tile): Rect
    requires ValidImage(image) && size.height > 0.0
  {
    var sourceHeight := image.height;
    var sourceWidth := sourceHeight * DisplayAspectRatio(size);
    Rect(PercentOf(image.width - sourceWidth, size.cropX), 0.0, sourceWidth, sourceHeight)
  }

  /** The window of a relatively taller photo before clamping: full width, the
      tile's aspect ratio, shifted down by `cropY` percent of the slack. */
  function TallWindow(image: ImageSize, size: Tile): Rect
    requires ValidImage(image) && size.height > 0.0 && !CropsHorizontally(image, size)
  {
    TallCropFits(image.width, image.height, DisplayAspectRatio(size));
    var sourceWidth := image.width;
    var sourceHeight := sourceWidth / DisplayAspectRatio(size);
    Rect(0.0, PercentOf(image.height - sourceHeight, size.cropY), sourceWidth, sourceHeight)
  }

  /** `Math.max(0, Math.min(v, hi))`: the guard that keeps an origin in [0, hi]. */
  function Clamp(v: real, hi: real): real
  {
    Max(0.0, Min(v, hi))
  }

  /** Both origin coordinates of a window clamped into the photo; the extent is kept. */
  function ClampOrigin(window: Rect, image: ImageSize): Rect
  {
    Rect(Clamp(window.x, image.width - window.width),
         Clamp(window.y, image.height - window.height),
         window.width, window.height)
  }

  lemma WideWindowFacts(image: ImageSize, size: Tile)
    requires ValidImage(image) && size.height > 0.0 && CropsHorizontally(image, size)
    ensures var u := WideWindow(image, size);
      && u.y == 0.0 && u.height == image.height && SameAspect(u, size.width, size.height)
      && u.width < image.width
      && (size.width >= 0.0 ==> 0.0 <= u.width)
  {
    var d := DisplayAspectRatio(size);
    QuotientFacts(size.width, size.height);
    assert (image.height * d) * size.height == image.height * size.width;
    WideCropFits(image.width, image.height, d);
  }

  lemma TallWindowFacts(image: ImageSize, size: Tile)
    requires ValidImage(image) && size.height > 0.0 && !CropsHorizontally(image, size)
    ensures var u := TallWindow(image, size);
      && u.x == 0.0 && u.width == image.width && SameAspect(u, size.width, size.height)
      && 0.0 < u.height <= image.height
  {
    TallCropFits(image.width, image.height, DisplayAspectRatio(size));
    TallCropAspect(image.width, size.width, size.height);
  }

  /** The source rectangle handed to `drawImage` for one tile: the window of
      the branch the aspect ratios select, its origin clamped into the photo. */
  function SourceRect(image: ImageSize, size: Tile): (r: Rect)
    requires ValidImage(image) && size.height > 0.0
    ensures r.height > 0.0
    ensures SameAspect(r, size.width, size.height)
    ensures (r.x == 0.0 && r.width == image.width) || (r.y == 0.0 && r.height == image.height)
  {
    if CropsHorizontally(image, size) then
      WideWindowFacts(image, size);
      ClampOrigin(WideWindow(image, size), image)
    else
      TallWindowFacts(image, size);
      ClampOrigin(TallWindow(image, size), image)
  }

  /** The rectangle lies inside the photo; it cannot stick out on any side. */
  predicate Inside(r: Rect, image: ImageSize)
  {
    0.0 <= r.x && r.x + r.width <= image.width && 0.0 <= r.y && r.y + r.height <= image.height
  }

  /** For a tile of non-negative width, the crop never leaves the photo,
      whatever the anchor. */
  lemma CropInsideImage(image: ImageSize, size: Tile)
    requires ValidImage(image) && size.height > 0.0 && size.width >= 0.0
    ensures Inside(SourceRect(image, size), image)
    ensures SourceRect(image, size).width >= 0.0
  {
    if CropsHorizontally(image, size) {
      WideWindowFacts(image, size);
    } else {
      TallWindowFacts(image, size);
    }
  }

  /** A photo relatively wider than the tile is cropped left and right at
      `cropX` percent of the slack. */
  lemma WideCropAnchored(image: ImageSize, size: Tile)
    requires ValidImage(image) && size.height > 0.0
    requires 0.0 <= size.cropX <= 100.0
    requires CropsHorizontally(image, size)
    ensures var r := SourceRect(image, size);
      r.y == 0.0 && r.height == image.height && r.x == PercentOf(image.width - r.width, size.cropX)
  {
    var u := WideWindow(image, size);
    WideWindowFacts(image, size);
    PercentOfSlack(image.width - u.width, size.cropX);
  }

  /** A photo relatively taller than the tile is cropped top and bottom at
      `cropY` percent of the slack. */
  lemma TallCropAnchored(image: ImageSize, size: Tile)
    requires ValidImage(image) && size.height > 0.0
    requires 0.0 <= size.cropY <= 100.0
    requires !CropsHorizontally(image, size)
    ensures var r := SourceRect(image, size);
      r.x == 0.0 && r.width == image.width && r.y == PercentOf(image.height - r.height, size.cropY)
  {
    var u := TallWindow(image, size);
    TallWindowFacts(image, size);
    PercentOfSlack(image.height - u.height, size.cropY);
  }

  /** The anchor places the crop window by percentage along the one cropped axis:
      for anchors in [0, 100] the clamp changes nothing. */
  lemma CropAnchoredByPercent(image: ImageSize, size: Tile)
    requires ValidImage(image) && size.height > 0.0
    requires 0.0 <= size.cropX <= 100.0 && 0.0 <= size.cropY <= 100.0
    ensures var r := SourceRect(image, size);
      if CropsHorizontally(image, size) then
        r.y == 0.0 && r.height == image.height && r.x == PercentOf(image.width - r.width, size.cropX)
      else
        r.x == 0.0 && r.width == image.width && r.y == PercentOf(image.height - r.height, size.cropY)
  {
    if CropsHorizontally(image, size) {
      WideCropAnchored(image, size);
    } else {
      TallCropAnchored(image, size);
    }
  }

  /** Anchor 0 puts the window flush left (top), anchor 100 flush right (bottom),
      whatever the other anchor holds. */
  lemma CropAnchorExtremes(image: ImageSize, size: Tile)
    requires ValidImage(image) && size.height > 0.0
    ensures var r := SourceRect(image, size);
      && (CropsHorizontally(image, size) && size.cropX == 0.0 ==> r.x == 0.0)
      && (CropsHorizontally(image, size) && size.cropX == 100.0 ==> r.x + r.width == image.width)
      && (!CropsHorizontally(image, size) && size.cropY == 0.0 ==> r.y == 0.0)
      && (!CropsHorizontally(image, size) && size.cropY == 100.0 ==> r.y + r.height == image.height)
  {
    if CropsHorizontally(image, size) && (size.cropX == 0.0 || size.cropX == 100.0) {
      WideCropAnchored(image, size);
    } else if !CropsHorizontally(image, size) && (size.cropY == 0.0 || size.cropY == 100.0) {
      TallCropAnchored(image, size);
    }
  }

  /** Only the anchor of the cropped axis matters: the other one can be anything. */
  lemma OnlyCroppedAxisAnchorMatters(image: ImageSize, size: Tile, other: real)
    requires ValidImage(image) && size.height > 0.0
    ensures CropsHorizontally(image, size) ==> SourceRect(image, size.(cropY := other)) == SourceRect(image, size)
    ensures !CropsHorizontally(image, size) ==> SourceRect(image, size.(cropX := other)) == SourceRect(image, size)
  {
  }

  /** The crop is the largest window of the tile's aspect ratio the photo holds:
      any other such window inside the photo is no wider and no taller. */
  lemma CropIsLargest(image: ImageSize, size: Tile, w: real, h: real)
    requires ValidImage(image) && size.height > 0.0 && size.width >= 0.0
    requires 0.0 <= w <= image.width && 0.0 < h <= image.height
    requires w * size.height == h * size.width
    ensures w <= SourceRect(image, size).width && h <= SourceRect(image, size).height
  {
    SameAspectWidth(w, h, size);
    if CropsHorizontally(image, size) {
      WideWindowIsLargest(image, size, w, h);
    } else {
      TallWindowIsLargest(image, size, w, h);
    }
  }

  lemma WideWindowIsLargest(image: ImageSize, size: Tile, w: real, h: real)
    requires ValidImage(image) && size.height > 0.0 && size.width >= 0.0
    requires CropsHorizontally(image, size)
    requires 0.0 < h <= image.height && w == h * DisplayAspectRatio(size)
    ensures w <= SourceRect(image, size).width && h <= SourceRect(image, size).height
  {
    var d := DisplayAspectRatio(size);
    QuotientFacts(size.width, size.height);
    var u := WideWindow(image, size);
    assert SourceRect(image, size).width == u.width == image.height * d;
    assert SourceRect(image, size).height == image.height;
    ProductAtMost(d, h, image.height);
  }

  lemma TallWindowIsLargest(image: ImageSize, size: Tile, w: real, h: real)
    requires ValidImage(image) && size.height > 0.0
    requires !CropsHorizontally(image, size)
    requires w <= image.width && w == h * DisplayAspectRatio(size)
    ensures w <= SourceRect(image, size).width && h <= SourceRect(image, size).height
  {
    var d := DisplayAspectRatio(size);
    TallCropFits(image.width, image.height, d);
    var u := TallWindow(image, size);
    assert SourceRect(image, size).width == image.width;
    assert SourceRect(image, size).height == u.height == image.width / d;
    CancelFactor(d, h, image.width / d);
  }
}
