/** What sequences of panel events do: pencil strokes, shape gestures, commits and clears
    (src/Frame/DrawingPanel.java). */
module Gestures {
  import opened Wrappers
  import opened Geometry
  import opened Canvas
  import opened DrawingPanel
  import Tools

  /** Drag events at the points of `ps`, in order. */
  function DragAll(s: Panel, ps: seq<Point>): (r: Panel)
    requires s.startPoint.Some?
    ensures r.startPoint.Some? && SameSettings(s, r)
    decreases |ps|
  {
    if ps == [] then s else DragAll(Drag(s, ps[0]), ps[1..])
  }

  /** The polyline through `a` and then the points of `ps`: one segment per consecutive pair. */
  function Polyline(a: Point, ps: seq<Point>, c: Color): (segs: seq<DrawOp>)
    ensures |segs| == |ps|
    ensures forall i :: 0 < i < |ps| ==> segs[i] == Segment(ps[i - 1], ps[i], c)
    ensures |ps| > 0 ==> segs[0] == Segment(a, ps[0], c)
    ensures Outlined(segs) == []
    decreases |ps|
  {
    if ps == [] then []
    else
      var rest := Polyline(ps[0], ps[1..], c);
      OutlinedAppend([Segment(a, ps[0], c)], rest);
      assert Outlined([Segment(a, ps[0], c)]) == Outlined([]);
      [Segment(a, ps[0], c)] + rest
  }

  /** Pencil drags draw the pointer's path as a polyline in the current colour, straight onto
      the canvas; no shape is committed or previewed, and the start point follows the pointer. */
  lemma {:induction false} PencilStroke(s: Panel, ps: seq<Point>)
    requires s.startPoint.Some? && s.currentTool == Tools.Pencil
    ensures var r := DragAll(s, ps);
            && r.canvas == s.canvas + Polyline(s.startPoint.value, ps, s.currentColor)
            && r.shapes == s.shapes && r.currentShape == s.currentShape
            && r.startPoint == (if ps == [] then s.startPoint else Some(ps[|ps| - 1]))
    decreases |ps|
  {
    if ps != [] {
      var s1 := Drag(s, ps[0]);
      PencilStroke(s1, ps[1..]);
      var a := s.startPoint.value;
      var c := s.currentColor;
      assert s.canvas + Polyline(a, ps, c)
          == s.canvas + [Segment(a, ps[0], c)] + Polyline(ps[0], ps[1..], c);
      if |ps| > 1 {
        assert ps[1..][|ps[1..]| - 1] == ps[|ps| - 1];
      }
    }
  }

  /** With any tool but the pencil, a run of drags leaves a preview that depends only on the
      press point and the last drag point; the canvas and the shape list are untouched. */
  lemma {:induction false} PreviewFollowsLastPoint(s: Panel, ps: seq<Point>)
    requires s.startPoint.Some? && s.currentTool != Tools.Pencil && |ps| > 0
    ensures var r := DragAll(s, ps);
            && r.currentShape == CreateShape(s.currentTool, s.startPoint.value, ps[|ps| - 1])
            && r.startPoint == s.startPoint
            && r.canvas == s.canvas && r.shapes == s.shapes
    decreases |ps|
  {
    var s1 := Drag(s, ps[0]);
    if |ps| > 1 {
      PreviewFollowsLastPoint(s1, ps[1..]);
      assert ps[1..][|ps[1..]| - 1] == ps[|ps| - 1];
    } else {
      assert DragAll(s1, ps[1..]) == s1;
    }
  }

  /** A press, at least one drag and a release with a line, rectangle or circle tool commit
      exactly one shape, built from the press point and the last drag point, and outline it
      once on the canvas in the current colour. */
  lemma ShapeGesture(s: Panel, p: Point, ps: seq<Point>)
    requires BuildsShape(s.currentTool) && |ps| > 0
    ensures var r := Release(DragAll(Press(s, p), ps));
            var shape := CreateShape(s.currentTool, p, ps[|ps| - 1]).value;
            && r.shapes == s.shapes + [shape]
            && r.canvas == s.canvas + [Outline(shape, s.currentColor)]
            && r.currentShape == None
  {
    PreviewFollowsLastPoint(Press(s, p), ps);
  }

  /** A press and a release with no drag in between commit nothing. */
  lemma ClickCommitsNothing(s: Panel, p: Point)
    requires s.currentShape.None?
    ensures Release(Press(s, p)).shapes == s.shapes && Release(Press(s, p)).canvas == s.canvas
  {
  }

  /** The commit colour is the one selected when the button is released, not the one the
      preview was dragged in. */
  lemma ColorAtRelease(s: Panel, c: Color)
    requires s.currentShape.Some?
    ensures Release(SetCurrentColor(s, c)).canvas == s.canvas + [Outline(s.currentShape.value, c)]
  {
  }

  /** A release never changes what the panel shows: the preview it burns in was already drawn
      on top of the canvas in the same colour. */
  lemma ReleaseKeepsPicture(s: Panel)
    ensures Render(Release(s)) == Render(s)
  {
  }

  /** After a clear the panel shows a white canvas, with nothing else on it unless a preview
      was left over. */
  lemma ClearShowsBlank(s: Panel)
    ensures Render(ClearCanvas(s))
            == Blank + (if s.currentShape.Some? then [Outline(s.currentShape.value, s.currentColor)] else [])
    ensures s.currentShape.None? ==> Render(ClearCanvas(s)) == Render(Initial)
  {
  }

  /** A clear does not discard the preview: releasing afterwards commits it onto the blank canvas. */
  lemma ClearKeepsPreview(s: Panel)
    requires s.currentShape.Some?
    ensures var r := Release(ClearCanvas(s));
            && r.shapes == [s.currentShape.value]
            && r.canvas == Blank + [Outline(s.currentShape.value, s.currentColor)]
  {
  }

  /** A press does not discard the preview either: a release straight after it commits it. */
  lemma PressKeepsPreview(s: Panel, p: Point)
    requires s.currentShape.Some?
    ensures Release(Press(s, p)).shapes == s.shapes + [s.currentShape.value]
  {
  }

  /** The displayed picture does not depend on the shape list, the tool or the points. */
  lemma RenderIgnoresBookkeeping(s: Panel, shapes: seq<Shape>, t: Tools.Tool, a: Option<Point>, b: Option<Point>)
    ensures Render(s.(shapes := shapes, currentTool := t, startPoint := a, endPoint := b)) == Render(s)
  {
  }
}
