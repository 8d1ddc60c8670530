# Drawing surface, tool bar and controller of a children's sketch book

This project models the logic of a browser drawing application. The application
is a paint surface driven by a pointer. It has a colour, a brush size, a pencil
or eraser tool and an optional background image. It can clear and save the
drawing. Almost all of the application is layout. The model covers the small
part that has behaviour:

- **Geometry** (`geometry.dfy`). This holds the pure arithmetic of the drawing
  surface, over exact reals:
  - the letterbox/pillarbox fit of a background image in its container;
  - the map from client coordinates to canvas-buffer coordinates;
  - the buffer size for a container and a device pixel ratio.

  `Fit` and `CanvasPosition` are functions. Their properties are lemmas:
  containment, centring, aspect preservation, a "contain"-scaling reference
  definition, endpoint and centre mapping, linearity, and a round trip with the
  inverse map.
- **Stroke** (`stroke.dfy`). This is the stroke controller, on values. A `Pen`
  holds whether a gesture is active, the last position, and the trail of
  painted `Segment(from, to, color, width)` records. `Start`, `Move` and `Stop`
  are the three transitions. `Run` folds them over a sequence of pointer events.
  `Polyline` is an independent reference definition of what a gesture paints.
  The lemmas show the following:
  - a press, a series of moves and a release paint exactly that polyline;
  - the polyline is continuous;
  - after a release, moves paint nothing;
  - painting only ever appends to the trail;
  - erasing paints white at twice the brush size.
- **Canvas** (`canvas.dfy`). The class `DrawingSurface` holds the buffer size,
  the base layer (transparent, white, or white with a fitted background image),
  the strokes painted over it, and the pen register. The mouse handlers, resize,
  the background-load callback and clear are methods. Each method's
  postcondition ties the new pen state to the Stroke functions and states what
  happens to the buffer.
- **ToolBar** (`toolbar.dfy`). The class `ToolBarState` holds the one-hot
  `activeTools` record and a log of the callbacks invoked. `OneHot` and
  `CallbackFor` are the pure parts. The lemmas show that exactly one tool is
  active, that the record identifies the chosen tool, and that dispatch is a
  bijection.
- **App** (`app.dfy`). The class `AppState` holds the root component's state
  and its handlers, and it owns the drawing surface. `ModeOf` derives the
  canvas mode from the active tool. `MoveOnCanvas` wires the controller's
  current colour, size and mode into the surface's move handler.

React's deferred state updates are modelled as immediate assignments. Browser
inputs are parameters of the methods:
- the container and canvas rectangles from `getBoundingClientRect`;
- `window.devicePixelRatio`, as an `Option`;
- the loaded image's size.

## Model

| member | source | states |
|---|---|---|
| `Geometry.FitWide` | src/components/Canvas.jsx:52-56 | When the container is relatively wider than the image, the image fills the full height, has no vertical offset, and is strictly narrower than the container (and wider than 0). |
| `Geometry.FitTall` | src/components/Canvas.jsx:57-62 | Otherwise, the image fills the full width, has no horizontal offset, and is no taller than the container (and taller than 0). |
| `Geometry.FitCentred` | src/components/Canvas.jsx:47-62 | The drawn rectangle is centred: `2*offsetX + drawWidth` is the container width, `2*offsetY + drawHeight` is the container height, and both offsets are non-negative. |
| `Geometry.FitKeepsAspect` | src/components/Canvas.jsx:47-62 | The drawn rectangle has the image's aspect ratio. |
| `Geometry.FitIsContainScale` | src/components/Canvas.jsx:45-62 | The fit equals the image scaled by `min(containerW/imageW, containerH/imageH)`, an independent definition of the branchy code. |
| `Geometry.FitInsideContainer` | src/components/Canvas.jsx:52-62 | The fitted image is no wider and no taller than the container. |
| `Geometry.ContainScaleIsLargest` | src/components/Canvas.jsx:45-62 | Any positive scale at which the whole image fits inside the container is at most `min(containerW/imageW, containerH/imageH)`. So the fit uses the largest scale that fits. |
| `Geometry.CanvasPositionEndpoints` | src/components/Canvas.jsx:81-91 | The rect's top-left corner maps to (0, 0). Its bottom-right corner maps to the buffer size. Its centre maps to half the buffer size. |
| `Geometry.CanvasPositionLinear` | src/components/Canvas.jsx:84-89 | Per axis, a client displacement is scaled by buffer size over displayed size. |
| `Geometry.CanvasPositionRoundTrip` | src/components/Canvas.jsx:81-91 | The map and its inverse `ClientPosition` compose to the identity in both directions. |
| `Geometry.BufferSizeScales` | src/components/Canvas.jsx:25-29 | The buffer is the container times the pixel ratio. An absent or zero ratio counts as 1, so the buffer is the container itself. |
| `Geometry.CanvasPositionScalesByRatio` | src/components/Canvas.jsx:84-89 | When the canvas is shown at the size of the container that sized its buffer, pointer offsets are scaled by exactly the pixel ratio. |
| `Stroke.PaintStyle` | src/components/Canvas.jsx:109-114 | A segment runs from the last position to the new one. In erase mode it is white with width `2 * size`; otherwise it uses the brush colour at width `size`. |
| `Stroke.ModeSwitchDoublesWidth` | src/components/Canvas.jsx:113-114 | Switching from draw to erase doubles the next segment's width and makes it white. |
| `Stroke.StopIdempotent` | src/components/Canvas.jsx:119 | Stopping leaves no gesture active and keeps the trail and last position. Stopping twice equals stopping once. |
| `Stroke.IdleMoveIsNoOp` | src/components/Canvas.jsx:103-104 | A move with no active gesture changes nothing. |
| `Stroke.StepPaintsAtMostOne` | src/components/Canvas.jsx:93-119 | Only a move during a gesture paints, and it paints exactly one segment. Press and release paint nothing. |
| `Stroke.PolylineShape` | src/components/Canvas.jsx:109-116 | The polyline through n samples has n segments. Segment i ends at sample i, starts at the previous sample (or the start point) and is styled by sample i's brush. |
| `Stroke.PolylineConnected` | src/components/Canvas.jsx:109-116 | A gesture's line is continuous: it starts at the press point, and each segment starts where the previous one ended. |
| `Stroke.ActiveMovesPaintPolyline` | src/components/Canvas.jsx:103-117 | During a gesture, moves append exactly the polyline from the last position through their samples, and the last sample becomes the last position. |
| `Stroke.Gesture` | src/components/Canvas.jsx:93-119 | Press, moves and release append the polyline from the press point and leave the pen idle at the last sample. |
| `Stroke.IdleMovesPaintNothing` | src/components/Canvas.jsx:103-104 | After a release, any number of moves leave the pen unchanged. |
| `Stroke.RunKeepsTrail` | src/components/Canvas.jsx:109-116 | Painting only appends. No later event, whatever its brush or mode, changes segments already painted. |
| `Canvas.DrawingSurface.constructor` | src/components/Canvas.jsx:16-17 | A new surface is not drawing, its last position is (0, 0), and its buffer is the default 300×150, transparent, with no strokes. |
| `Canvas.DrawingSurface.ResizeCanvas` | src/components/Canvas.jsx:19-38 | Without a container nothing changes. Otherwise the buffer becomes container × ratio and plain white, with earlier strokes discarded and the pen register untouched. |
| `Canvas.DrawingSurface.CompositeBackground` | src/components/Canvas.jsx:44-67 | The load callback lays the white field and the image at `Fit(container, image)`, covering earlier strokes. |
| `Canvas.DrawingSurface.StartDrawing` | src/components/Canvas.jsx:93-101 | Sets drawing and the last position to the mapped pointer, and paints nothing (`Stroke.Start`). |
| `Canvas.DrawingSurface.Draw` | src/components/Canvas.jsx:103-117 | When idle, it is a no-op. Otherwise it appends one segment from the last position to the mapped point and moves the last position there (`Stroke.Move`). |
| `Canvas.DrawingSurface.StopDrawing` | src/components/Canvas.jsx:119 | Ends the gesture (`Stroke.Stop`). |
| `Canvas.DrawingSurface.ClearCanvas` | src/components/Canvas.jsx:121-135 | Discards all strokes and the background image. With a container present, the buffer is plain white. Size and pen are unchanged. |
| `ToolBar.ToolsComplete` | src/components/ToolBar.jsx:37-56 | The selectable tools are exactly pencil, eraser and backgrounds. |
| `ToolBar.OneHot` | src/components/ToolBar.jsx:16-22 | After a selection, the record has exactly the three tool keys, with the chosen one true and the others false. |
| `ToolBar.OneHotExactlyOne` | src/components/ToolBar.jsx:16-22 | The set of active tools is exactly `{tool}`, so exactly one tool is active. |
| `ToolBar.OneHotInjective` | src/components/ToolBar.jsx:16-22 | Different selections give different records. |
| `ToolBar.CallbackForBijective` | src/components/ToolBar.jsx:24-34 | Each tool dispatches to its own callback, and every callback is the dispatch of some tool. |
| `ToolBar.ToolBarState.constructor` | src/components/ToolBar.jsx:9-13 | Initially only the pencil is active. No callback has fired. |
| `ToolBar.ToolBarState.HandleToolSelect` | src/components/ToolBar.jsx:15-35 | The record becomes `OneHot(tool)` whatever it was before, so selection is history-free and idempotent. Exactly one callback, the matching one, is invoked. |
| `App.ModeOf` | src/App.jsx:116 | The canvas mode is erase iff the active tool is the eraser. Pencil and backgrounds both yield draw. |
| `App.DispatchSelectsPressedTool` | src/App.jsx:96-98 | The controller binds each tool-bar callback to the tool of the same name. |
| `App.AppState.CanvasBrush` | src/App.jsx:112-119 | The canvas gets the controller's colour and size, and the erase mode exactly when the eraser is active. |
| `App.AppState.constructor` | src/App.jsx:10-15 | Initial state: colour `#FF6B6B`, size 5, pencil, menu closed, selector hidden, no background. |
| `App.AppState.HandleToolSelect` | src/App.jsx:19-25 | Sets the active tool and closes the menu. Backgrounds opens the selector; other tools leave it as it was. |
| `App.AppState.HandleBackgroundSelect` | src/App.jsx:27-30 | Records the chosen background and hides the selector. |
| `App.AppState.CloseBackgroundSelector` | src/App.jsx:124 | The selector's close hides it and changes nothing else. |
| `App.AppState.SetColor` | src/App.jsx:102 | The colour picker's choice becomes the colour. |
| `App.AppState.SetBrushSize` | src/App.jsx:103 | The size selector's choice becomes the brush size. |
| `App.AppState.ToggleMenu` | src/App.jsx:32-34 | Flips the menu and changes nothing else. |
| `App.ToggleMenuTwice` | src/App.jsx:32-34 | Toggling the menu twice restores it. |
| `App.AppState.ClearCanvas` | src/App.jsx:36-39 | Clears the surface and closes the menu. The canvas keeps its size and pen register, its strokes are gone, and its base is white with a container and transparent without one. No other controller state changes. |
| `App.AppState.SaveCanvas` | src/App.jsx:41-44 | Closes the menu. No other controller state changes. |
| `App.AppState.MoveOnCanvas` | src/App.jsx:112-119 | A move over the canvas uses the controller's current brush. With the eraser active, the segment it paints is white at twice the brush size. The buffer size and base layer never change. |

## Left out

- Rasterisation is not modelled. The model covers `beginPath`, `stroke`, round caps and joins, `fillRect`, `clearRect` and `drawImage` only as the segments and base layer they produce. Strokes are not rasterised into pixels.
- The context transform `ctx.scale(dpr, dpr)` (src/components/Canvas.jsx:32) is not modelled. The pointer map already scales client offsets by buffer size over displayed size (by `dpr`). The drawing context scales them again, so on a display with ratio other than 1 a stroke is not drawn under the cursor. The model records segments in the coordinates the code computes. It makes no claim about where they appear on screen.
- Image loading is asynchronous and not modelled as such. `new Image()` and `onload` are left out. The callback body is the method `CompositeBackground`, which the host calls with the image size. The race between a stale load and a newer resize or background is left out. So is the stale-load guard a design might add; the source has none.
- Following the code, a late background load covers strokes drawn before it (`CompositeBackground` empties `strokes`). Also following the code, `ClearCanvas` without a container leaves the buffer transparent rather than white.
- The `resize` listener, React effects and `useCallback` are not modelled. The resize that runs when the background changes is left out too. `ResizeCanvas` is a method the host calls.
- `saveCanvasImage` is left out: it does a data-URL export, creates an anchor and builds a date-stamped file name. It is I/O and a clock. `App.AppState.SaveCanvas` models only its effect on the menu.
- Floating point is not modelled: no rounding, and no NaN or Infinity when a size is zero. The browser also truncates the assigned `canvas.width`/`canvas.height` to integers; that is not modelled either. `Fit`, `CanvasPosition`, `StartDrawing` and `Draw` require positive widths and heights. The source does not guard against zero.
- `Geometry.DevicePixelRatio`: only `undefined` and `0` are treated as falsy. NaN cannot occur with reals.
- Tools and modes are datatypes, not strings. A string outside the three tool names is therefore unrepresentable. The source's `switch` would invoke no callback for one, but no caller passes one.
- The colour picker, brush-size selector and background gallery are left out. They are widgets that forward a constant-list value. Only the setters they call (`SetColor`, `SetBrushSize`, `HandleBackgroundSelect`, `CloseBackgroundSelector`) are modelled. The slider's 1–20 range is an HTML attribute, so the brush size is any `int`.
- `Canvas.DrawingSurface.ClearCanvas` assumes the container still has the size the buffer was last resized to. The source refills white only over the container's current rectangle, in the ratio-scaled context (src/components/Canvas.jsx:131-133). If the container changed size without a resize, part of the buffer stays transparent. The model does not capture that partial fill.
- `canvasRef.current?.` is not modelled: the controller's surface is always present.
- Layout, Tailwind classes, the responsive mobile and desktop views, and `tailwind.config.js` are presentation and are left out.
