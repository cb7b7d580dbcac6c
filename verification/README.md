# Drawing panel of a small Swing paint program, in Dafny

This project models the canvas state machine of a desktop paint program. A toolbar offers
five tools: pencil ("Crayon"), line ("Ligne"), rectangle ("Rectangle"), circle ("Cercle") and
eraser ("Effacer"). A colour bar sets the drawing colour. Users draw on an 800×600 canvas with
the mouse.

- Module `Tools` models the `Tools` enum: the five constants in order, their fixed labels, and
  the name lookup that `setCurrentTool` runs.
- Module `Geometry` models Java `int` coordinates and the three shapes: `Line`, `Rect` and
  `Ellipse`, all with integer fields. It also models `createShape`, which builds a shape from
  the start and end points.
- Module `Canvas` models the raster. A raster is a log of drawing calls rather than pixels:
  `Fill(color)`, a pencil `Segment(from, to, color)`, or `Outline(shape, color)`. A fresh
  canvas is `[Fill(White)]`.
- Module `DrawingPanel` models the panel fields as one immutable `Panel` value. Each handler is
  a pure function from the state before the event to the state after it: press, drag, release,
  `drawShapes`, `setCurrentColor`, `setCurrentTool`, `clearCanvas` and `paintComponent`
  (`Render`). `startPoint`, `endPoint` and `currentShape` are `Option`s. `None` stands for
  Java's `null`.
- Module `Gestures` holds lemmas about sequences of handler calls: pencil strokes, shape
  gestures, commit colour, and clearing.
- Module `Events` models the window's event alphabet. Mouse press, drag and release; a colour
  button; a tool button. The tool buttons follow `AppFrame`'s dispatch: "Effacer" calls
  `clearCanvas`, and every other button calls `setCurrentTool` with its own label. `Step` and
  `Run` apply events in order. A drag before any press throws a `NullPointerException` in the
  source; here it is the failure `NullStartPoint`, which carries the panel as the exception
  leaves it (the drag point already stored as the end point). The module also proves an invariant of every
  reachable state and two concrete scenarios.

Coordinates are Java `int`s. The width and height of a box are computed as
`Math.abs(start - end)`, which wraps around on overflow. `Geometry.BoundingBox` proves the
box properties when the distance between the points fits in an `int`. `Geometry.OverflowedWidth`
shows the wrapped case, which gives a negative width. Pointer coordinates are bounded by the screen, so in practice the distance always fits.

`Render` is a pure function of the panel state. Two calls with no event in between therefore
give the same frame, and rendering changes no state.

The model follows the code as written:
- A press does not discard a leftover preview.
- A clear keeps the preview and the start and end points. The preview is committed onto the
  blank canvas by the next release (`Gestures.ClearKeepsPreview`).
- A drag before any press throws; it is a fault, not a no-op.
- An unknown tool name is ignored. It is not an error.
- A shape is committed in the colour that is current at release time.

## Model

| member | source | states |
|---|---|---|
| Tools.ValuesListEachToolOnce | src/Frame/Tools.java:4-8 | `values()` lists exactly five tools, each once, in the order PENCIL, LINE, RECTANGLE, CIRCLE, CLEAR; their labels are Crayon, Ligne, Rectangle, Cercle, Effacer |
| Tools.NameInjective | src/Frame/Tools.java:4-18 | two tools have the same label only if they are the same tool |
| Tools.FirstNamed | src/Frame/DrawingPanel.java:168-173 | the `for … break` search returns a tool of the list whose label equals the name, and it is the first such tool; it returns nothing exactly when no label in the list matches |
| Tools.LookupInvertsName | src/Frame/DrawingPanel.java:167-174 | looking up a name gives tool `t` exactly when `t`'s label is that name, so looking up `t`'s label selects `t` |
| Tools.Name | src/Frame/Tools.java:4-18 | `getName` returns the label given to the constant's constructor: Crayon, Ligne, Rectangle, Cercle, Effacer |
| Tools.Lookup | src/Frame/DrawingPanel.java:168-173 | the tool found for a name has that name as its label, and nothing is found exactly when the name is none of the five labels |
| Geometry.CreateShape | src/Frame/DrawingPanel.java:112-126 | gives a shape exactly for line, rectangle and circle and `null` for pencil and eraser; a line keeps both points verbatim; a rectangle or ellipse has its origin at the minimum corner |
| Geometry.Wrap | src/Frame/DrawingPanel.java:116-117 | Java `int` results: an exact value in range is kept, any other differs from the exact value by a multiple of 2^32 |
| Geometry.Diff | src/Frame/DrawingPanel.java:116-117 | `a - b` on `int`s is the exact difference when it fits, and otherwise the difference shifted by 2^32 back into range |
| Geometry.JavaAbs | src/Frame/DrawingPanel.java:116-117 | `Math.abs` is the absolute value for every `int` except `Integer.MIN_VALUE`, which it returns unchanged |
| Geometry.BoundingBox | src/Frame/DrawingPanel.java:114-124 | for a rectangle or circle whose extent fits in an `int`: width and height are the absolute distances (non-negative), origin plus extent is the maximum corner, and the box contains both points |
| Geometry.OverflowedWidth | src/Frame/DrawingPanel.java:116 | a drag from x = 2147483647 to x = -1 gives the width `Integer.MIN_VALUE`, because of Java `int` wrap-around and `Math.abs` |
| DrawingPanel.InitialDefaults | src/Frame/DrawingPanel.java:20-56 | a fresh panel has a canvas filled white, no shapes, no preview, colour black, tool pencil and no recorded points |
| DrawingPanel.Press | src/Frame/DrawingPanel.java:66-69 | a press makes the start and end points the press point; canvas, shapes, preview, colour and tool are unchanged |
| DrawingPanel.Drag | src/Frame/DrawingPanel.java:88-104 | with the pencil: exactly one segment from the old start point to the new point, in the current colour, is appended; the start point moves; shapes and preview are unchanged. With any other tool: the preview becomes the shape from the start point to the new point (`null` for the eraser); start point, canvas and shapes are unchanged |
| DrawingPanel.DrawShapes | src/Frame/DrawingPanel.java:131-139 | the canvas gains one outline of the preview in the current colour when there is a preview, and nothing otherwise |
| DrawingPanel.Release | src/Frame/DrawingPanel.java:73-82 | with a preview: the shape list grows by exactly that shape, the canvas gains exactly one outline of it in the current colour, and the preview is cleared. Without a preview the state is unchanged |
| DrawingPanel.SetCurrentColor | src/Frame/DrawingPanel.java:160-162 | only the colour changes |
| DrawingPanel.SetCurrentTool | src/Frame/DrawingPanel.java:167-174 | selects the tool whose label equals the name and changes nothing else; a name that is no tool's label leaves the state unchanged |
| DrawingPanel.ClearCanvas | src/Frame/DrawingPanel.java:179-186 | the canvas is a single white fill again and the shape list is empty; preview, points, colour and tool are untouched |
| DrawingPanel.Render | src/Frame/DrawingPanel.java:145-155 | the frame is the canvas followed by one outline of the preview in the current colour when there is a preview, and nothing otherwise |
| Gestures.PencilStroke | src/Frame/DrawingPanel.java:89-98 | pencil drags through points p1…pn append the polyline start→p1→…→pn to the canvas, one segment per consecutive pair, in the current colour; no shape is committed or previewed; the start point ends at pn |
| Gestures.Polyline | src/Frame/DrawingPanel.java:93-98 | the polyline has one segment per pointer position, each from the previous point to the current one, and outlines no shape |
| Gestures.PreviewFollowsLastPoint | src/Frame/DrawingPanel.java:99-102 | after a run of drags with a non-pencil tool, the preview is the shape from the press point to the last drag point only; start point, canvas and shapes are unchanged |
| Gestures.ShapeGesture | src/Frame/DrawingPanel.java:66-104 | press, one or more drags, then release with a line, rectangle or circle tool: the shape list gains exactly the shape from the press point to the last drag point, the canvas gains exactly its outline in the current colour, and no preview is left |
| Gestures.ClickCommitsNothing | src/Frame/DrawingPanel.java:73-82 | a press then a release with no drag between them, and no leftover preview, changes neither canvas nor shapes |
| Gestures.ColorAtRelease | src/Frame/DrawingPanel.java:131-136 | the committed outline has the colour selected just before the release, not the colour of the drag |
| Gestures.ReleaseKeepsPicture | src/Frame/DrawingPanel.java:131-155 | a release never changes the displayed frame, because the committed outline is the preview that was already drawn on top |
| Gestures.ClearShowsBlank | src/Frame/DrawingPanel.java:179-186 | after a clear the frame is a white fill plus only the leftover preview; with no preview it equals a fresh panel's frame |
| Gestures.ClearKeepsPreview | src/Frame/DrawingPanel.java:179-186 | a clear keeps the preview, and the next release commits it as the only shape on the blank canvas |
| Gestures.PressKeepsPreview | src/Frame/DrawingPanel.java:66-69 | a press keeps a leftover preview, and a release right after it commits that preview |
| Gestures.RenderIgnoresBookkeeping | src/Frame/DrawingPanel.java:145-155 | the frame does not depend on the shape list, the tool or the points |
| Events.OnToolButton | src/Frame/AppFrame.java:60-65 | the "Effacer" button clears the canvas; any other tool button selects its own tool |
| Events.Step | src/Frame/DrawingPanel.java:61-106 | an event fails exactly when it is a drag with no start point recorded, and the fault carries the panel with the drag point stored as end point; after a successful event a start point exists exactly when one existed before or the event was a press |
| Events.Run | src/Frame/DrawingPanel.java:61-106 | after a fault-free run a start point exists exactly when one existed before or some event was a press; a fault happens only in a run that began with no start point, and none is recorded when it does |
| Events.RunFailsOnlyOnEarlyDrag | src/Frame/DrawingPanel.java:93-101 | a run of events fails exactly when a drag comes before every press |
| Events.StepPreservesInv | src/Frame/DrawingPanel.java:50-186 | every event keeps the invariant: the canvas is one white fill followed only by segments and outlines; the shape list is exactly the outlined shapes, in order; a preview exists only after a press; start and end are set together; the current tool is never the eraser |
| Events.RunPreservesInv | src/Frame/DrawingPanel.java:50-186 | every successful run of events keeps that invariant |
| Events.Reachable | src/Frame/AppFrame.java:60-65 | every state reachable from a fresh panel satisfies the invariant; in particular the eraser is never the current tool |
| Events.StepAppends | src/Frame/DrawingPanel.java:88-139 | every event except the "Effacer" button appends at most one drawing call to the canvas and leaves the existing calls as they were |
| Events.HistoryPersists | src/Frame/DrawingPanel.java:88-139 | with no clear, a run of events keeps everything already drawn, in place and in its original colour |
| Events.RedRectangleScenario | src/Frame/DrawingPanel.java:112-126 | red, rectangle, press (10,10), drag (60,60), release: commits `Rect(10,10,50,50)`, outlined in red on the white canvas |
| Events.DegenerateCircleScenario | src/Frame/DrawingPanel.java:112-126 | circle, press (5,5), drag (5,5), release: commits the zero-size `Ellipse(5,5,0,0)` in black |
| Events.ClearAfterRelease | src/Frame/DrawingPanel.java:179-186 | after a release and the "Effacer" button, no shapes remain and the frame equals a fresh panel's, whatever was drawn before |

## Left out

- Rasterisation: `BufferedImage` pixels and the `drawLine`, `draw` and `fillRect` implementations are AWT code. Their effects are log entries.
- `Line2D.Float` and `Ellipse2D.Float` take `float` coordinates. The model keeps the `int` values, which convert exactly only up to 2^24 in magnitude.
- `clearCanvas` fills the rectangle `getWidth()`×`getHeight()`. The model treats that fill as covering the whole canvas, so it resets the log to `[Fill(White)]`.
- `repaint()`, `super.paintComponent`, listener registration, `setPreferredSize` and the 800×600 image size are Swing plumbing and are not modelled.
- AppFrame.java's window, layout, button styling, colour palette list and `main` are UI wiring. Only the tool-button dispatch is modelled, as `Events.OnToolButton`. A colour button may carry any `Color`.
- Threading and event-dispatch ordering: events are applied one at a time.
- Geometry.BoundingBox: stated only for drags whose extent fits in an `int`. Beyond that, `Math.abs` wraps around, as `Geometry.OverflowedWidth` shows.
- A fault ends the modelled run at the failing drag, while Swing's event thread goes on with the next event from the state `NullStartPoint.after`, where the end point is already set. That end point is overwritten by the next drag before anything reads it.
