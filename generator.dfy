/** The generator object's state and the drag interaction that moves the crop
    anchor (script.js:1-18, 223-260). */
module Generator {
  import opened Geometry

  /** Pixels of pointer movement per percent of anchor movement, on both axes. */
  const Sensitivity: real := 20.0

  /** The anchor after a drag of `delta` pixels: it moves against the drag, one
      percent per 20 pixels, and is clamped to [0, 100]. */
  function DragAnchor(anchor: real, delta: real): (r: real)
    ensures 0.0 <= r <= 100.0
    ensures 0.0 <= anchor - delta / Sensitivity <= 100.0 ==> r == anchor - delta / Sensitivity
    ensures anchor - delta / Sensitivity < 0.0 ==> r == 0.0
    ensures anchor - delta / Sensitivity > 100.0 ==> r == 100.0
  {
    Max(0.0, Min(100.0, anchor - delta / Sensitivity))
  }

  /** Dragging right (down) never raises the anchor, dragging left (up) never
      lowers it. */
  lemma DragIsInverted(anchor: real, delta: real)
    requires 0.0 <= anchor <= 100.0
    ensures delta >= 0.0 ==> DragAnchor(anchor, delta) <= anchor
    ensures delta <= 0.0 ==> DragAnchor(anchor, delta) >= anchor
  {
  }

  /** A longer drag moves the anchor at least as far. */
  lemma DragIsMonotone(anchor: real, delta1: real, delta2: real)
    requires delta1 <= delta2
    ensures DragAnchor(anchor, delta2) <= DragAnchor(anchor, delta1)
  {
  }

  /** Dragging back by the same distance restores the anchor, as long as the
      first drag did not hit an edge. */
  lemma DragBackRestores(anchor: real, delta: real)
    requires 0.0 <= anchor <= 100.0
    requires 0.0 <= anchor - delta / Sensitivity <= 100.0
    ensures DragAnchor(DragAnchor(anchor, delta), -delta) == anchor
  {
  }

  class CompoundingGraphicsGenerator {
    var image: Option<ImageSize>
    var direction: Direction
    var alignment: Alignment
    var backgroundColor: string
    var photoSize: int
    var cropX: real
    var cropY: real
    var isDragging: bool
    var lastMouseX: real
    var lastMouseY: real

    /** The anchors stay percentages and a loaded photo has a positive size. */
    ghost predicate Valid()
      reads this
    {
      && 0.0 <= cropX <= 100.0
      && 0.0 <= cropY <= 100.0
      && (image.Some? ==> ValidImage(image.value))
    }

    /** The defaults: no photo, growing, top, green background, full size, centred anchor. */
    constructor ()
      ensures Valid()
      ensures image == None && direction == Growing && alignment == Top
      ensures backgroundColor == "#33ff00" && photoSize == 100
      ensures cropX == 50.0 && cropY == 50.0
      ensures !isDragging && lastMouseX == 0.0 && lastMouseY == 0.0
    {
      image := None;
      direction := Growing;
      alignment := Top;
      backgroundColor := "#33ff00";
      photoSize := 100;
      cropX := 50.0;
      cropY := 50.0;
      isDragging := false;
      lastMouseX := 0.0;
      lastMouseY := 0.0;
    }

    /** The parameters the layout reads, captured at once. */
    function CurrentSettings(): Settings
      reads this
    {
      Settings(direction, alignment, photoSize, cropX, cropY)
    }

    /** A decoded photo becomes the current one. */
    method ImageLoaded(size: ImageSize)
      requires Valid() && ValidImage(size)
      modifies this`image
      ensures Valid() && image == Some(size)
    {
      image := Some(size);
    }

    /** Pressing the button starts a drag at the pointer, but only once a photo is loaded. */
    method HandleMouseDown(mouseX: real, mouseY: real)
      modifies this`isDragging, this`lastMouseX, this`lastMouseY
      ensures old(image).None? ==> isDragging == old(isDragging) && lastMouseX == old(lastMouseX) && lastMouseY == old(lastMouseY)
      ensures old(image).Some? ==> isDragging && lastMouseX == mouseX && lastMouseY == mouseY
    {
      if image.None? {
        return;
      }
      isDragging := true;
      lastMouseX := mouseX;
      lastMouseY := mouseY;
    }

    /** Moving the pointer during a drag pans the crop anchor against the
        movement and remembers the pointer; otherwise nothing changes. */
    method HandleMouseMove(mouseX: real, mouseY: real)
      requires Valid()
      modifies this`cropX, this`cropY, this`lastMouseX, this`lastMouseY
      ensures Valid()
      ensures !isDragging || image.None? ==>
        cropX == old(cropX) && cropY == old(cropY) && lastMouseX == old(lastMouseX) && lastMouseY == old(lastMouseY)
      ensures isDragging && image.Some? ==>
        && cropX == DragAnchor(old(cropX), mouseX - old(lastMouseX))
        && cropY == DragAnchor(old(cropY), mouseY - old(lastMouseY))
        && lastMouseX == mouseX && lastMouseY == mouseY
    {
      if !isDragging || image.None? {
        return;
      }
      var deltaX := mouseX - lastMouseX;
      var deltaY := mouseY - lastMouseY;
      cropX := Max(0.0, Min(100.0, cropX - deltaX / Sensitivity));
      cropY := Max(0.0, Min(100.0, cropY - deltaY / Sensitivity));
      lastMouseX := mouseX;
      lastMouseY := mouseY;
    }

    /** Releasing the button (or leaving the canvas) ends the drag. */
    method HandleMouseUp()
      modifies this`isDragging
      ensures !isDragging
    {
      isDragging := false;
    }
  }
}
