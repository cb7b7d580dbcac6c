/** The drawing panel's state and its event handlers (src/Frame/DrawingPanel.java).
    Every handler is a pure function from the state before the event to the state after it. */
module DrawingPanel {
  import opened Wrappers
  import opened Geometry
  import opened Canvas
  import Tools

  /** The fields of `DrawingPanel`. `startPoint` and `endPoint` are `None` until the first press. */
  datatype Panel = Panel(
    canvas: seq<DrawOp>,
    shapes: seq<Shape>,
    currentShape: Option<Shape>,
    currentColor: Color,
    currentTool: Tools.Tool,
    startPoint: Option<Point>,
    endPoint: Option<Point>)

  /** The panel after its constructor: a white canvas, no shapes, black, pencil, no press yet. */
  const Initial: Panel := Panel(Blank, [], None, Black, Tools.Pencil, None, None)

  /** A fresh panel has a canvas filled white and nothing else on it, no shapes, no preview, black
      as colour, the pencil as tool, and no recorded points. */
  lemma InitialDefaults()
    ensures Initial.canvas == [Fill(White)] && Initial.shapes == [] && Initial.currentShape == None
    ensures Initial.currentColor == Black && Initial.currentTool == Tools.Pencil
    ensures Initial.startPoint == None && Initial.endPoint == None
  {
  }

  /** The canvas, the committed shapes and the preview are the same in both states. */
  predicate SameDrawing(s: Panel, r: Panel)
  {
    r.canvas == s.canvas && r.shapes == s.shapes && r.currentShape == s.currentShape
  }

  /** The selected colour and tool are the same in both states. */
  predicate SameSettings(s: Panel, r: Panel)
  {
    r.currentColor == s.currentColor && r.currentTool == s.currentTool
  }

  /** `mousePressed`: remembers the press point as both start and end; nothing is drawn and a
      leftover preview is kept. */
  function Press(s: Panel, p: Point): (r: Panel)
    ensures r.startPoint == Some(p) && r.endPoint == Some(p)
    ensures SameDrawing(s, r) && SameSettings(s, r)
  {
    s.(startPoint := Some(p), endPoint := Some(p))
  }

  /** `mouseDragged`. The pencil draws a segment from the previous point to `p` straight onto
      the canvas in the current colour and moves the start point to `p`; any other tool replaces
      the preview by the shape spanning the start point and `p`. A drag dereferences the start
      point, so one must have been recorded by a press. */
  function Drag(s: Panel, p: Point): (r: Panel)
    requires s.startPoint.Some?
    ensures r.endPoint == Some(p) && r.startPoint.Some? && SameSettings(s, r)
    ensures s.currentTool == Tools.Pencil ==>
              && r.canvas == s.canvas + [Segment(s.startPoint.value, p, s.currentColor)]
              && r.startPoint == Some(p)
              && r.shapes == s.shapes && r.currentShape == s.currentShape
    ensures s.currentTool != Tools.Pencil ==>
              && r.currentShape == CreateShape(s.currentTool, s.startPoint.value, p)
              && r.startPoint == s.startPoint
              && r.canvas == s.canvas && r.shapes == s.shapes
  {
    var s' := s.(endPoint := Some(p));
    if s.currentTool == Tools.Pencil then
      s'.(canvas := s.canvas + [Segment(s.startPoint.value, p, s.currentColor)], startPoint := Some(p))
    else
      s'.(currentShape := CreateShape(s.currentTool, s.startPoint.value, p))
  }

  /** `drawShapes`: outlines the preview, if any, onto the canvas in the current colour. */
  function DrawShapes(s: Panel): (r: Panel)
    ensures r.canvas == s.canvas + (if s.currentShape.Some? then [Outline(s.currentShape.value, s.currentColor)] else [])
    ensures r.shapes == s.shapes && r.currentShape == s.currentShape && SameSettings(s, r)
  {
    match s.currentShape
    case None => s
    case Some(shape) => s.(canvas := s.canvas + [Outline(shape, s.currentColor)])
  }

  /** `mouseReleased`: commits the preview, if any: it joins the shape list, is outlined on the
      canvas in the colour selected at release time, and stops being a preview. Without a
      preview nothing happens. The release point is not used. */
  function Release(s: Panel): (r: Panel)
    ensures s.currentShape.Some? ==>
              && r.shapes == s.shapes + [s.currentShape.value]
              && r.canvas == s.canvas + [Outline(s.currentShape.value, s.currentColor)]
              && r.currentShape == None
              && SameSettings(s, r) && r.startPoint == s.startPoint && r.endPoint == s.endPoint
    ensures s.currentShape.None? ==> r == s
  {
    match s.currentShape
    case None => s
    case Some(shape) => DrawShapes(s.(shapes := s.shapes + [shape])).(currentShape := None)
  }

  /** `setCurrentColor`: only the colour changes. */
  function SetCurrentColor(s: Panel, c: Color): (r: Panel)
    ensures r.currentColor == c && r.currentTool == s.currentTool && SameDrawing(s, r)
    ensures r.startPoint == s.startPoint && r.endPoint == s.endPoint
  {
    s.(currentColor := c)
  }

  /** `setCurrentTool`: selects the tool whose label equals `name`; any other string is
      silently ignored. */
  function SetCurrentTool(s: Panel, name: string): (r: Panel)
    ensures forall t :: Tools.Name(t) == name ==> r == s.(currentTool := t)
    ensures (forall t :: Tools.Name(t) != name) ==> r == s
  {
    Tools.LookupMatchesNames(name);
    match Tools.Lookup(name)
    case None => s
    case Some(t) => s.(currentTool := t)
  }

  /** `clearCanvas`: fills the canvas white again and forgets the committed shapes. The preview,
      the points and the selected colour and tool are left as they were. */
  function ClearCanvas(s: Panel): (r: Panel)
    ensures r.canvas == Blank && r.shapes == []
    ensures r.currentShape == s.currentShape && SameSettings(s, r)
    ensures r.startPoint == s.startPoint && r.endPoint == s.endPoint
  {
    s.(canvas := Blank, shapes := [])
  }

  /** `paintComponent`: what the panel shows is the canvas with the preview, if any, outlined
      on top in the current colour. The shape list is never drawn from. */
  function Render(s: Panel): (frame: seq<DrawOp>)
    ensures |s.canvas| <= |frame| <= |s.canvas| + 1
    ensures frame[..|s.canvas|] == s.canvas
    ensures |frame| == |s.canvas| + 1 <==> s.currentShape.Some?
    ensures s.currentShape.Some? ==> frame[|s.canvas|] == Outline(s.currentShape.value, s.currentColor)
  {
    match s.currentShape
    case None => s.canvas
    case Some(shape) => s.canvas + [Outline(shape, s.currentColor)]
  }
}
