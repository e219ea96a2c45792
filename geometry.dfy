/** Values shared by the layout engine, the crop rule and the generator's state. */
module Geometry {

  datatype Option<T> = None | Some(value: T)

  /** Left-to-right order of the three scale tiers: `growing` keeps the dominant
      tile first, `shrinking` reverses the tiers. */
  datatype Direction = Growing | Shrinking

  /** Vertical placement of the two non-dominant tiles. */
  datatype Alignment = Top | Bottom | Center

  /** Intrinsic size of the decoded photo, in pixels. */
  datatype ImageSize = ImageSize(width: real, height: real)

  /** The parameters `calculateDimensions` reads from the generator. */
  datatype Settings = Settings(
    direction: Direction,
    alignment: Alignment,
    photoSize: int,   // percent, from the slider
    cropX: real,      // percent
    cropY: real       // percent
  )

  /** One tile record of the layout. Before placement `x` and `y` hold 0. */
  datatype Tile = Tile(
    width: real,
    height: real,
    scale: real,
    cropX: real,
    cropY: real,
    x: real,
    y: real
  )

  /** What `calculateDimensions` returns: the tiles in drawing order and the canvas size. */
  datatype Dimensions = Dimensions(sizes: seq<Tile>, canvasWidth: real, canvasHeight: real)

  /** An axis-aligned rectangle: origin and extent. */
  datatype Rect = Rect(x: real, y: real, width: real, height: real)

  /** A loaded photo always has a positive width and height. */
  predicate ValidImage(image: ImageSize)
  {
    image.width > 0.0 && image.height > 0.0
  }

  /** The destination rectangle a tile occupies on the canvas. */
  function DestRect(t: Tile): Rect
  {
    Rect(t.x, t.y, t.width, t.height)
  }

  /** `Math.min` and `Math.max` on two numbers. */
  function Min(a: real, b: real): real
  {
    if a <= b then a else b
  }

  function Max(a: real, b: real): real
  {
    if a >= b then a else b
  }
}
