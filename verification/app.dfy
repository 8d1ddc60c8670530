/**
 * The application controller: the state the root component holds (colour,
 * brush size, active tool, menu and background-selector visibility, chosen
 * background) and the handlers that update it. It owns the drawing surface
 * and passes it the colour, size and a mode derived from the active tool.
 */
module App {
  import opened Geometry
  import opened Stroke
  import opened ToolBar
  import opened Canvas

  const InitialColor: string := "#FF6B6B"
  const InitialBrushSize: int := 5

  /** The canvas mode for a tool: erasing with the eraser, drawing with anything else. */
  function ModeOf(tool: Tool): (mode: Mode)
    ensures mode == Erase <==> tool == Eraser
    ensures mode == Draw <==> (tool == Pencil || tool == Backgrounds)
  {
    match tool
    case Eraser => Erase
    case Pencil | Backgrounds => Draw
  }

  /** The tool each tool-bar callback selects, as the controller wires them. */
  function BoundTool(callback: Callback): Tool {
    match callback
    case OnSelectPencil => Pencil
    case OnSelectEraser => Eraser
    case OnAddBackground => Backgrounds
  }

  /** A button press reaches the controller as the tool that was pressed. */
  lemma DispatchSelectsPressedTool(tool: Tool)
    ensures BoundTool(CallbackFor(tool)) == tool
    ensures CallbackFor(BoundTool(OnSelectPencil)) == OnSelectPencil
    ensures CallbackFor(BoundTool(OnSelectEraser)) == OnSelectEraser
    ensures CallbackFor(BoundTool(OnAddBackground)) == OnAddBackground
  {
  }

  class AppState {
    var color: string
    var brushSize: int
    var activeTool: Tool
    var isMenuOpen: bool
    var showBackgroundSelector: bool
    var selectedBackground: Option<string>
    /** The drawing surface the controller renders and calls into. */
    const canvas: DrawingSurface

    /** The brush configuration handed to the canvas on every render. */
    function CanvasBrush(): (brush: Brush)
      reads this
      ensures brush.color == color && brush.size == brushSize
      ensures brush.mode == Erase <==> activeTool == Eraser
    {
      Brush(color, brushSize, ModeOf(activeTool))
    }

    constructor ()
      ensures color == InitialColor && brushSize == InitialBrushSize && activeTool == Pencil
      ensures !isMenuOpen && !showBackgroundSelector && selectedBackground == None
      ensures fresh(canvas) && canvas.base == Blank && canvas.strokes == [] && !canvas.isDrawing
    {
      color := InitialColor;
      brushSize := InitialBrushSize;
      activeTool := Pencil;
      isMenuOpen := false;
      showBackgroundSelector := false;
      selectedBackground := None;
      canvas := new DrawingSurface();
    }

    /**
     * A tool was chosen: it becomes the active tool, the menu closes, and
     * choosing backgrounds opens the background selector (other tools leave
     * the selector as it was).
     */
    method HandleToolSelect(tool: Tool)
      modifies this
      ensures activeTool == tool && !isMenuOpen
      ensures showBackgroundSelector == (tool == Backgrounds || old(showBackgroundSelector))
      ensures color == old(color) && brushSize == old(brushSize) && selectedBackground == old(selectedBackground)
    {
      activeTool := tool;
      if tool == Backgrounds {
        showBackgroundSelector := true;
      }
      isMenuOpen := false;
    }

    /** A background was chosen: it is recorded and the selector closes. */
    method HandleBackgroundSelect(path: string)
      modifies this
      ensures selectedBackground == Some(path) && !showBackgroundSelector
      ensures color == old(color) && brushSize == old(brushSize)
      ensures activeTool == old(activeTool) && isMenuOpen == old(isMenuOpen)
    {
      selectedBackground := Some(path);
      showBackgroundSelector := false;
    }

    /** The selector's close button hides it and changes nothing else. */
    method CloseBackgroundSelector()
      modifies this
      ensures !showBackgroundSelector
      ensures color == old(color) && brushSize == old(brushSize) && activeTool == old(activeTool)
      ensures isMenuOpen == old(isMenuOpen) && selectedBackground == old(selectedBackground)
    {
      showBackgroundSelector := false;
    }

    /** The colour picker forwards the chosen colour. */
    method SetColor(c: string)
      modifies this
      ensures color == c
      ensures brushSize == old(brushSize) && activeTool == old(activeTool) && isMenuOpen == old(isMenuOpen)
      ensures showBackgroundSelector == old(showBackgroundSelector) && selectedBackground == old(selectedBackground)
    {
      color := c;
    }

    /** The brush-size selector forwards the chosen size. */
    method SetBrushSize(size: int)
      modifies this
      ensures brushSize == size
      ensures color == old(color) && activeTool == old(activeTool) && isMenuOpen == old(isMenuOpen)
      ensures showBackgroundSelector == old(showBackgroundSelector) && selectedBackground == old(selectedBackground)
    {
      brushSize := size;
    }

    /** The menu button flips the menu and changes nothing else. */
    method ToggleMenu()
      modifies this
      ensures isMenuOpen == !old(isMenuOpen)
      ensures color == old(color) && brushSize == old(brushSize) && activeTool == old(activeTool)
      ensures showBackgroundSelector == old(showBackgroundSelector) && selectedBackground == old(selectedBackground)
    {
      isMenuOpen := !isMenuOpen;
    }

    /**
     * Clear: the canvas is cleared (white, no strokes, no background image
     * when its container is present) and the menu closes; nothing else in
     * the controller changes.
     */
    method ClearCanvas(container: Option<Size>)
      modifies this, canvas
      ensures !isMenuOpen
      ensures color == old(color) && brushSize == old(brushSize) && activeTool == old(activeTool)
      ensures showBackgroundSelector == old(showBackgroundSelector) && selectedBackground == old(selectedBackground)
      ensures container.Some? ==> canvas.IsBlankWhite()
      ensures container.None? ==> canvas.base == Blank
      ensures canvas.strokes == [] && canvas.size == old(canvas.size)
      ensures canvas.isDrawing == old(canvas.isDrawing) && canvas.lastPosition == old(canvas.lastPosition)
    {
      canvas.ClearCanvas(container);
      isMenuOpen := false;
    }

    /** Save: the export itself is not modelled; the menu closes and nothing else changes. */
    method SaveCanvas()
      modifies this
      ensures !isMenuOpen
      ensures color == old(color) && brushSize == old(brushSize) && activeTool == old(activeTool)
      ensures showBackgroundSelector == old(showBackgroundSelector) && selectedBackground == old(selectedBackground)
    {
      isMenuOpen := false;
    }

    /**
     * A pointer move over the canvas, drawn with the controller's current
     * colour, size and tool: while the eraser is active a gesture paints
     * white at twice the brush size.
     */
    method MoveOnCanvas(client: Point, rect: Rect)
      requires canvas.isDrawing ==> rect.width > 0.0 && rect.height > 0.0
      modifies canvas
      ensures old(canvas.isDrawing) ==>
        canvas.PenState() == Move(old(canvas.PenState()), CanvasPosition(client, rect, old(canvas.size)), CanvasBrush())
      ensures old(canvas.isDrawing) && activeTool == Eraser ==>
        canvas.strokes == old(canvas.strokes) + [Segment(old(canvas.lastPosition),
          CanvasPosition(client, rect, old(canvas.size)), EraseColor, 2 * brushSize)]
      ensures !old(canvas.isDrawing) ==> unchanged(canvas)
      ensures canvas.size == old(canvas.size) && canvas.base == old(canvas.base)
    {
      canvas.Draw(client, rect, CanvasBrush());
    }
  }

  /** Toggling the menu twice restores it. */
  method ToggleMenuTwice(app: AppState)
    modifies app
    ensures app.isMenuOpen == old(app.isMenuOpen)
  {
    app.ToggleMenu();
    app.ToggleMenu();
  }
}
