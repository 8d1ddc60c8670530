/**
 * The drawing surface: a canvas buffer with its size, what was laid down
 * under the strokes, the strokes painted since, and the pen register of the
 * current gesture. Each handler changes these fields in place; its
 * postcondition ties the new pen state to the functions of module Stroke.
 */
module Canvas {
  import opened Geometry
  import opened Stroke

  /** What lies under the strokes: a transparent buffer, a white fill, or a white fill with the background image on it. */
  datatype Base = Blank | White | Backdrop(placement: Placement)

  /** The buffer size of a canvas element that has never been resized. */
  const DefaultSize: Size := Size(300.0, 150.0)

  class DrawingSurface {
    /** The buffer's pixel size (`canvas.width`, `canvas.height`). */
    var size: Size
    var base: Base
    /** The segments painted over `base`, oldest first. */
    var strokes: seq<Segment>
    var isDrawing: bool
    var lastPosition: Point

    /** The stroke controller's view of this surface. */
    function PenState(): Pen
      reads this
    {
      Pen(isDrawing, lastPosition, strokes)
    }

    /** The buffer holds a flat white field and nothing else. */
    predicate IsBlankWhite()
      reads this
    {
      base == White && strokes == []
    }

    constructor ()
      ensures size == DefaultSize && base == Blank && strokes == []
      ensures !isDrawing && lastPosition == Point(0.0, 0.0)
    {
      size := DefaultSize;
      base := Blank;
      strokes := [];
      isDrawing := false;
      lastPosition := Point(0.0, 0.0);
    }

    /**
     * Resize to the container: the buffer becomes the container size times
     * the pixel ratio and is filled white, which discards what was drawn.
     * Without a container nothing happens. The pen register is untouched.
     */
    method ResizeCanvas(container: Option<Size>, dpr: Option<real>)
      modifies this
      ensures container.None? ==> unchanged(this)
      ensures container.Some? ==> size == BufferSize(container.value, dpr) && IsBlankWhite()
      ensures isDrawing == old(isDrawing) && lastPosition == old(lastPosition)
    {
      if container.None? {
        return;
      }
      var d := DevicePixelRatio(dpr);
      size := Size(container.value.width * d, container.value.height * d);
      base := White;
      strokes := [];
    }

    /**
     * The background image has loaded: the container area is refilled white
     * and the image drawn at its fitted placement, covering earlier strokes.
     */
    method CompositeBackground(container: Size, image: Size)
      requires Positive(container) && Positive(image)
      modifies this
      ensures base == Backdrop(Fit(container, image)) && strokes == []
      ensures size == old(size) && isDrawing == old(isDrawing) && lastPosition == old(lastPosition)
    {
      base := Backdrop(Fit(container, image));
      strokes := [];
    }

    /** Pointer down: the gesture starts at the mapped position; nothing is painted. */
    method StartDrawing(client: Point, rect: Rect)
      requires rect.width > 0.0 && rect.height > 0.0
      modifies this
      ensures PenState() == Start(old(PenState()), CanvasPosition(client, rect, old(size)))
      ensures size == old(size) && base == old(base)
    {
      var at := CanvasPosition(client, rect, size);
      lastPosition := at;
      isDrawing := true;
    }

    /**
     * Pointer move: with no gesture active nothing happens; otherwise one
     * segment is painted from the last position to the mapped position, in
     * the brush's style, and the mapped position becomes the last one.
     */
    method Draw(client: Point, rect: Rect, brush: Brush)
      requires isDrawing ==> rect.width > 0.0 && rect.height > 0.0
      modifies this
      ensures !old(isDrawing) ==> unchanged(this)
      ensures old(isDrawing) ==> PenState() == Move(old(PenState()), CanvasPosition(client, rect, old(size)), brush)
      ensures size == old(size) && base == old(base)
    {
      if !isDrawing {
        return;
      }
      var at := CanvasPosition(client, rect, size);
      strokes := strokes + [Paint(lastPosition, at, brush)];
      lastPosition := at;
    }

    /** Pointer up or out: the gesture ends. */
    method StopDrawing()
      modifies this
      ensures PenState() == Stop(old(PenState()))
      ensures size == old(size) && base == old(base)
    {
      isDrawing := false;
    }

    /**
     * Clear: the whole buffer is erased and, when the container is there,
     * refilled white. The background image is not drawn again.
     */
    method ClearCanvas(container: Option<Size>)
      modifies this
      ensures container.Some? ==> IsBlankWhite()
      ensures container.None? ==> base == Blank && strokes == []
      ensures size == old(size) && isDrawing == old(isDrawing) && lastPosition == old(lastPosition)
    {
      strokes := [];
      if container.Some? {
        base := White;
      } else {
        base := Blank;
      }
    }
  }
}
