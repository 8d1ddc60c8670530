/**
 * Exact arithmetic of the drawing surface: the letterbox/pillarbox fit of
 * a background image inside the canvas container, the map from client
 * (on-screen) coordinates to canvas-buffer coordinates, and the size of the
 * buffer for a container and a device pixel ratio.
 *
 * All quantities are exact reals; the browser's floating point and its
 * integer truncation of `canvas.width`/`canvas.height` are not modelled.
 */
module Geometry {

  datatype Option<T> = None | Some(value: T)

  datatype Point = Point(x: real, y: real)

  /** A width and a height, as of a container, an image or a buffer. */
  datatype Size = Size(width: real, height: real)

  /** A client rectangle as `getBoundingClientRect` reports it. */
  datatype Rect = Rect(left: real, top: real, width: real, height: real)

  /** Where a background image is drawn: its top-left offset and drawn size. */
  datatype Placement = Placement(offsetX: real, offsetY: real, drawWidth: real, drawHeight: real)

  predicate Positive(s: Size) {
    s.width > 0.0 && s.height > 0.0
  }

  function Aspect(s: Size): real
    requires s.height != 0.0
  {
    s.width / s.height
  }

  function Min(a: real, b: real): real {
    if a <= b then a else b
  }

  // ---------------------------------------------------------------------
  // Background fit (the body of the image's load callback)
  // ---------------------------------------------------------------------

  /**
   * The rectangle the background image is drawn into: when the container is
   * relatively wider than the image, the image takes the full height and is
   * centred horizontally (pillarbox); otherwise it takes the full width and
   * is centred vertically (letterbox).
   */
  function Fit(container: Size, image: Size): Placement
    requires Positive(container) && Positive(image)
  {
    var imageAspect := Aspect(image);
    var containerAspect := Aspect(container);
    if containerAspect > imageAspect then
      var drawWidth := container.height * imageAspect;
      Placement((container.width - drawWidth) / 2.0, 0.0, drawWidth, container.height)
    else
      var drawHeight := container.width / imageAspect;
      Placement(0.0, (container.height - drawHeight) / 2.0, container.width, drawHeight)
  }

  /** A wide container: full height, no vertical offset, narrower than the container. */
  lemma FitWide(container: Size, image: Size)
    requires Positive(container) && Positive(image)
    requires Aspect(container) > Aspect(image)
    ensures Fit(container, image).drawHeight == container.height
    ensures Fit(container, image).offsetY == 0.0
    ensures 0.0 < Fit(container, image).drawWidth < container.width
  {
    var ia, ca := Aspect(image), Aspect(container);
    assert container.height * ca == container.width;
    MulStrict(container.height, ia, ca);
  }

  /** A container no wider than the image: full width, no horizontal offset, no taller than the container. */
  lemma FitTall(container: Size, image: Size)
    requires Positive(container) && Positive(image)
    requires Aspect(container) <= Aspect(image)
    ensures Fit(container, image).drawWidth == container.width
    ensures Fit(container, image).offsetX == 0.0
    ensures 0.0 < Fit(container, image).drawHeight <= container.height
  {
    var ia, ca := Aspect(image), Aspect(container);
    var h := container.width / ia;
    assert h * ia == container.width;
    assert container.height * ca == container.width;
    MulWeak(container.height, ca, ia);
    if h > container.height {
      MulStrict(ia, container.height, h);
      assert false;
    }
  }

  /** The drawn rectangle lies inside the container and is centred in it. */
  lemma FitCentred(container: Size, image: Size)
    requires Positive(container) && Positive(image)
    ensures var p := Fit(container, image);
      && 2.0 * p.offsetX + p.drawWidth == container.width
      && 2.0 * p.offsetY + p.drawHeight == container.height
      && p.offsetX >= 0.0 && p.offsetY >= 0.0
  {
    if Aspect(container) > Aspect(image) {
      FitWide(container, image);
    } else {
      FitTall(container, image);
    }
  }

  /** The drawn rectangle has the image's aspect ratio. */
  lemma FitKeepsAspect(container: Size, image: Size)
    requires Positive(container) && Positive(image)
    ensures Fit(container, image).drawHeight > 0.0
    ensures Fit(container, image).drawWidth / Fit(container, image).drawHeight == Aspect(image)
  {
    var p := Fit(container, image);
    var ia := Aspect(image);
    if Aspect(container) > ia {
      FitWide(container, image);
      assert p.drawWidth == p.drawHeight * ia;
    } else {
      FitTall(container, image);
      assert p.drawHeight * ia == p.drawWidth;
    }
  }

  /**
   * Reference definition: the fit is the image scaled by the largest factor
   * that keeps it inside the container ("contain" scaling).
   */
  lemma FitIsContainScale(container: Size, image: Size)
    requires Positive(container) && Positive(image)
    ensures var k := Min(container.width / image.width, container.height / image.height);
      && Fit(container, image).drawWidth == image.width * k
      && Fit(container, image).drawHeight == image.height * k
  {
    var kw, kh := container.width / image.width, container.height / image.height;
    var ia, ca := Aspect(image), Aspect(container);
    var p := Fit(container, image);
    // both comparisons reduce to the same cross product
    CrossMultiply(image.width, image.height, container.width, container.height);
    CrossMultiply(container.height, image.height, container.width, image.width);
    assert ca > ia <==> kh < kw;
    if ca > ia {
      assert p.drawWidth == container.height * ia;
      ScaleSwap(container.height, image.width, image.height);
      assert p.drawWidth == image.width * kh;
    } else {
      assert p.drawHeight == container.width / ia;
      DivideByRatio(container.width, image.width, image.height);
      assert p.drawHeight == image.height * kw;
    }
  }

  /** The fitted image lies within the container on both axes. */
  lemma FitInsideContainer(container: Size, image: Size)
    requires Positive(container) && Positive(image)
    ensures Fit(container, image).drawWidth <= container.width
    ensures Fit(container, image).drawHeight <= container.height
  {
    if Aspect(container) > Aspect(image) {
      FitWide(container, image);
    } else {
      FitTall(container, image);
    }
  }

  /** No larger scale keeps the image inside the container: the contain scale is the greatest one that fits. */
  lemma ContainScaleIsLargest(container: Size, image: Size, k: real)
    requires Positive(container) && Positive(image)
    requires k > 0.0 && image.width * k <= container.width && image.height * k <= container.height
    ensures k <= Min(container.width / image.width, container.height / image.height)
  {
    var kw, kh := container.width / image.width, container.height / image.height;
    assert image.width * kw == container.width;
    assert image.height * kh == container.height;
    if k > kw {
      MulStrict(image.width, kw, k);
    }
    if k > kh {
      MulStrict(image.height, kh, k);
    }
  }

  /** Comparing two ratios by cross-multiplying. */
  lemma CrossMultiply(a: real, b: real, c: real, d: real)
    requires b > 0.0 && d > 0.0
    ensures a / b < c / d <==> a * d < c * b
  {
    var x, y := a / b, c / d;
    assert x * b == a && y * d == c;
    assert a * d == x * (b * d) && c * b == y * (b * d);
    if x < y {
      MulStrict(b * d, x, y);
    } else {
      MulWeak(b * d, y, x);
    }
  }

  /** `a * (b / c) == b * (a / c)` */
  lemma ScaleSwap(a: real, b: real, c: real)
    requires c > 0.0
    ensures a * (b / c) == b * (a / c)
  {
    var x, y := b / c, a / c;
    assert x * c == b && y * c == a;
    assert (a * x) * c == (b * y) * c;
  }

  /** `a / (b / c) == c * (a / b)` */
  lemma DivideByRatio(a: real, b: real, c: real)
    requires b > 0.0 && c > 0.0
    ensures b / c > 0.0
    ensures a / (b / c) == c * (a / b)
  {
    var r, y := b / c, a / b;
    assert r * c == b && y * b == a;
    assert r > 0.0;
    assert (c * y) * r == y * (r * c);
  }

  lemma MulStrict(c: real, a: real, b: real)
    requires c > 0.0 && a < b
    ensures c * a < c * b
  {
  }

  lemma MulWeak(c: real, a: real, b: real)
    requires c > 0.0 && a <= b
    ensures c * a <= c * b
  {
  }

  // ---------------------------------------------------------------------
  // Pointer mapping
  // ---------------------------------------------------------------------

  /**
   * The buffer coordinates of a client point: its offset from the canvas's
   * on-screen rectangle, scaled per axis by buffer size over displayed size.
   */
  function CanvasPosition(client: Point, rect: Rect, buffer: Size): Point
    requires rect.width > 0.0 && rect.height > 0.0
  {
    var scaleX := buffer.width / rect.width;
    var scaleY := buffer.height / rect.height;
    Point((client.x - rect.left) * scaleX, (client.y - rect.top) * scaleY)
  }

  /** The client point shown at a buffer point: the inverse of `CanvasPosition`. */
  function ClientPosition(p: Point, rect: Rect, buffer: Size): Point
    requires Positive(buffer)
  {
    Point(rect.left + p.x * (rect.width / buffer.width), rect.top + p.y * (rect.height / buffer.height))
  }

  /** The rectangle's corners and centre map to the buffer's corners and centre. */
  lemma CanvasPositionEndpoints(rect: Rect, buffer: Size)
    requires rect.width > 0.0 && rect.height > 0.0
    ensures CanvasPosition(Point(rect.left, rect.top), rect, buffer) == Point(0.0, 0.0)
    ensures CanvasPosition(Point(rect.left + rect.width, rect.top + rect.height), rect, buffer)
         == Point(buffer.width, buffer.height)
    ensures CanvasPosition(Point(rect.left + rect.width / 2.0, rect.top + rect.height / 2.0), rect, buffer)
         == Point(buffer.width / 2.0, buffer.height / 2.0)
  {
    var sx, sy := buffer.width / rect.width, buffer.height / rect.height;
    assert rect.width * sx == buffer.width;
    assert rect.height * sy == buffer.height;
    assert (rect.width / 2.0) * sx == buffer.width / 2.0;
    assert (rect.height / 2.0) * sy == buffer.height / 2.0;
  }

  /** The map is linear per axis: a client displacement is scaled by buffer over display size. */
  lemma CanvasPositionLinear(p: Point, q: Point, rect: Rect, buffer: Size)
    requires rect.width > 0.0 && rect.height > 0.0
    ensures CanvasPosition(q, rect, buffer).x - CanvasPosition(p, rect, buffer).x
         == (q.x - p.x) * (buffer.width / rect.width)
    ensures CanvasPosition(q, rect, buffer).y - CanvasPosition(p, rect, buffer).y
         == (q.y - p.y) * (buffer.height / rect.height)
  {
  }

  /** Mapping back and forth between client and buffer coordinates is the identity. */
  lemma CanvasPositionRoundTrip(client: Point, p: Point, rect: Rect, buffer: Size)
    requires rect.width > 0.0 && rect.height > 0.0 && Positive(buffer)
    ensures ClientPosition(CanvasPosition(client, rect, buffer), rect, buffer) == client
    ensures CanvasPosition(ClientPosition(p, rect, buffer), rect, buffer) == p
  {
    var sx, sy := buffer.width / rect.width, buffer.height / rect.height;
    var tx, ty := rect.width / buffer.width, rect.height / buffer.height;
    assert sx * tx == 1.0;
    assert sy * ty == 1.0;
    assert (client.x - rect.left) * sx * tx == client.x - rect.left;
    assert (client.y - rect.top) * sy * ty == client.y - rect.top;
    assert p.x * tx * sx == p.x;
    assert p.y * ty * sy == p.y;
  }

  // ---------------------------------------------------------------------
  // Buffer size
  // ---------------------------------------------------------------------

  /** `window.devicePixelRatio || 1`: an absent or zero ratio counts as 1. */
  function DevicePixelRatio(dpr: Option<real>): real {
    match dpr
    case None => 1.0
    case Some(d) => if d == 0.0 then 1.0 else d
  }

  /** The buffer size for a container of the given size. */
  function BufferSize(container: Size, dpr: Option<real>): Size {
    var d := DevicePixelRatio(dpr);
    Size(container.width * d, container.height * d)
  }

  /** The buffer is the container scaled by the ratio, which defaults to 1. */
  lemma BufferSizeScales(container: Size, dpr: Option<real>)
    ensures dpr.None? ==> BufferSize(container, dpr) == container
    ensures dpr == Some(0.0) ==> BufferSize(container, dpr) == container
    ensures dpr.Some? && dpr.value != 0.0 ==>
      BufferSize(container, dpr) == Size(container.width * dpr.value, container.height * dpr.value)
  {
  }

  /**
   * When the canvas is displayed at the size of the container that sized its
   * buffer, a pointer displacement is scaled by exactly the pixel ratio.
   */
  lemma CanvasPositionScalesByRatio(client: Point, rect: Rect, dpr: Option<real>)
    requires rect.width > 0.0 && rect.height > 0.0
    ensures var buffer := BufferSize(Size(rect.width, rect.height), dpr);
      CanvasPosition(client, rect, buffer)
        == Point((client.x - rect.left) * DevicePixelRatio(dpr), (client.y - rect.top) * DevicePixelRatio(dpr))
  {
    var d := DevicePixelRatio(dpr);
    assert (rect.width * d) / rect.width == d;
    assert (rect.height * d) / rect.height == d;
  }
}
