/** The events the application window forwards to the drawing panel, and what any sequence
    of them does (src/Frame/AppFrame.java wiring, src/Frame/DrawingPanel.java handlers). */
module Events {
  import opened Wrappers
  import opened Geometry
  import opened Canvas
  import opened DrawingPanel
  import Tools

  /** Mouse events on the panel and clicks on the colour and tool buttons. */
  datatype Event =
    | Pressed(p: Point)
    | Dragged(p: Point)
    | Released
    | ColorButton(c: Color)
    | ToolButton(t: Tools.Tool)

  /** The `NullPointerException` a drag raises when no press has recorded a start point.
      The handler has already stored the drag point as the end point when it throws; `after`
      is the panel as the exception leaves it. */
  datatype Fault = NullStartPoint(after: Panel)

  /** A click on a tool button: the button labelled "Effacer" clears the canvas and leaves the
      tool alone; every other button selects its own tool by name. */
  function OnToolButton(s: Panel, t: Tools.Tool): (r: Panel)
    ensures t == Tools.Clear ==> r == ClearCanvas(s)
    ensures t != Tools.Clear ==> r == s.(currentTool := t)
  {
    if Tools.Name(t) == "Effacer" then ClearCanvas(s) else SetCurrentTool(s, Tools.Name(t))
  }

  /** One event. Only a drag before any press fails. */
  function Step(s: Panel, e: Event): (r: Result<Panel, Fault>)
    ensures r.Failure? <==> e.Dragged? && s.startPoint.None?
    ensures r.Success? ==> (r.value.startPoint.Some? <==> s.startPoint.Some? || e.Pressed?)
    ensures r.Failure? ==> r.error.after == s.(endPoint := Some(e.p))
  {
    match e
    case Pressed(p) => Success(Press(s, p))
    case Dragged(p) => if s.startPoint.None? then Failure(NullStartPoint(s.(endPoint := Some(p)))) else Success(Drag(s, p))
    case Released => Success(Release(s))
    case ColorButton(c) => Success(SetCurrentColor(s, c))
    case ToolButton(t) => Success(OnToolButton(s, t))
  }

  /** The events of `evs`, in order, stopping at the first fault. A start point exists at the
      end exactly when one existed at the beginning or some event was a press; a fault happens
      only in a run that started without a start point, and none has been recorded when it does. */
  function Run(s: Panel, evs: seq<Event>): (r: Result<Panel, Fault>)
    ensures r.Success? ==>
              (r.value.startPoint.Some? <==> s.startPoint.Some? || exists i :: 0 <= i < |evs| && evs[i].Pressed?)
    ensures r.Failure? ==> r.error.after.startPoint.None? && s.startPoint.None?
    decreases |evs|
  {
    if evs == [] then Success(s)
    else
      match Step(s, evs[0])
      case Failure(f) => Failure(f)
      case Success(s') => Run(s', evs[1..])
  }

  /** Every drag in `evs` comes after a press, counting `pressed` as an earlier press. */
  predicate PressBeforeDrag(pressed: bool, evs: seq<Event>)
    decreases |evs|
  {
    evs == [] || ((evs[0].Dragged? ==> pressed) && PressBeforeDrag(pressed || evs[0].Pressed?, evs[1..]))
  }

  /** A run fails exactly when some drag comes before every press. */
  lemma {:induction false} RunFailsOnlyOnEarlyDrag(s: Panel, evs: seq<Event>)
    ensures Run(s, evs).Success? <==> PressBeforeDrag(s.startPoint.Some?, evs)
    decreases |evs|
  {
    if evs != [] {
      var r := Step(s, evs[0]);
      if r.Success? {
        RunFailsOnlyOnEarlyDrag(r.value, evs[1..]);
      }
    }
  }

  /** What holds of every state the panel can reach: the canvas is one white fill followed by
      segments and outlines only; the shape list is exactly the outlined shapes, in order; a
      preview exists only after a press; start and end are recorded together; and the eraser is
      never the selected tool. */
  ghost predicate Inv(s: Panel)
  {
    && |s.canvas| > 0 && s.canvas[0] == Fill(White)
    && (forall i :: 0 < i < |s.canvas| ==> !s.canvas[i].Fill?)
    && Outlined(s.canvas) == s.shapes
    && (s.currentShape.Some? ==> s.startPoint.Some?)
    && (s.startPoint.Some? <==> s.endPoint.Some?)
    && s.currentTool != Tools.Clear
  }

  lemma InitialInv()
    ensures Inv(Initial)
  {
  }

  /** Every event keeps the invariant. */
  lemma StepPreservesInv(s: Panel, e: Event)
    requires Inv(s) && Step(s, e).Success?
    ensures Inv(Step(s, e).value)
  {
  }

  /** Every run of events keeps the invariant. */
  lemma {:induction false} RunPreservesInv(s: Panel, evs: seq<Event>)
    requires Inv(s) && Run(s, evs).Success?
    ensures Inv(Run(s, evs).value)
    decreases |evs|
  {
    if evs != [] {
      StepPreservesInv(s, evs[0]);
      RunPreservesInv(Step(s, evs[0]).value, evs[1..]);
    }
  }

  /** In every state reachable from a fresh panel the invariant holds; in particular the eraser
      is never the current tool, so a drag never asks for its (missing) shape. */
  lemma Reachable(evs: seq<Event>)
    requires Run(Initial, evs).Success?
    ensures Inv(Run(Initial, evs).value)
    ensures Run(Initial, evs).value.currentTool != Tools.Clear
  {
    InitialInv();
    RunPreservesInv(Initial, evs);
  }

  /** Every event other than a click on the "Effacer" button only appends to the canvas, and
      by at most one operation: what was drawn keeps its place and its colour. */
  lemma StepAppends(s: Panel, e: Event)
    requires e != ToolButton(Tools.Clear) && Step(s, e).Success?
    ensures var r := Step(s, e).value;
            |s.canvas| <= |r.canvas| <= |s.canvas| + 1 && r.canvas[..|s.canvas|] == s.canvas
  {
  }

  /** Without a clear, a run of events keeps everything already on the canvas. */
  lemma {:induction false} HistoryPersists(s: Panel, evs: seq<Event>)
    requires forall i :: 0 <= i < |evs| ==> evs[i] != ToolButton(Tools.Clear)
    requires Run(s, evs).Success?
    ensures |s.canvas| <= |Run(s, evs).value.canvas|
    ensures Run(s, evs).value.canvas[..|s.canvas|] == s.canvas
    decreases |evs|
  {
    if evs != [] {
      StepAppends(s, evs[0]);
      var s1 := Step(s, evs[0]).value;
      HistoryPersists(s1, evs[1..]);
      var c := Run(s1, evs[1..]).value.canvas;
      assert c[..|s.canvas|] == c[..|s1.canvas|][..|s.canvas|];
    }
  }

  /** A run is its first step followed by the rest. */
  lemma RunCons(s: Panel, e: Event, evs: seq<Event>)
    requires Step(s, e).Success?
    ensures Run(s, [e] + evs) == Run(Step(s, e).value, evs)
  {
  }

  /** A red rectangle dragged from (10,10) to (60,60) is committed at origin (10,10) with
      width and height 50. */
  lemma RedRectangleScenario()
    ensures var r := Run(Initial, [ColorButton(Red), ToolButton(Tools.Rectangle),
                                   Pressed(Point(10, 10)), Dragged(Point(60, 60)), Released]);
            && r.Success?
            && r.value.shapes == [Rect(10, 10, 50, 50)]
            && r.value.canvas == [Fill(White), Outline(Rect(10, 10, 50, 50), Red)]
  {
    var s1 := Initial.(currentColor := Red);
    var s2 := s1.(currentTool := Tools.Rectangle);
    assert Step(s1, ToolButton(Tools.Rectangle)) == Success(s2);
    var s3 := Press(s2, Point(10, 10));
    var s4 := Drag(s3, Point(60, 60));
    assert s4.currentShape == Some(Rect(10, 10, 50, 50));
    var s5 := Release(s4);
    RunCons(s4, Released, []);
    assert Run(s4, [Released]) == Success(s5);
    RunCons(s3, Dragged(Point(60, 60)), [Released]);
    assert Run(s3, [Dragged(Point(60, 60)), Released]) == Success(s5);
    RunCons(s2, Pressed(Point(10, 10)), [Dragged(Point(60, 60)), Released]);
    assert Run(s2, [Pressed(Point(10, 10)), Dragged(Point(60, 60)), Released]) == Success(s5);
    RunCons(s1, ToolButton(Tools.Rectangle), [Pressed(Point(10, 10)), Dragged(Point(60, 60)), Released]);
    assert Run(s1, [ToolButton(Tools.Rectangle), Pressed(Point(10, 10)), Dragged(Point(60, 60)), Released])
        == Success(s5);
    RunCons(Initial, ColorButton(Red), [ToolButton(Tools.Rectangle), Pressed(Point(10, 10)), Dragged(Point(60, 60)), Released]);
  }

  /** A circle dragged from (5,5) to (5,5) commits a zero-size ellipse. */
  lemma DegenerateCircleScenario()
    ensures var r := Run(Initial, [ToolButton(Tools.Circle),
                                   Pressed(Point(5, 5)), Dragged(Point(5, 5)), Released]);
            && r.Success?
            && r.value.shapes == [Ellipse(5, 5, 0, 0)]
            && r.value.canvas == [Fill(White), Outline(Ellipse(5, 5, 0, 0), Black)]
  {
    var s1 := Initial.(currentTool := Tools.Circle);
    assert Step(Initial, ToolButton(Tools.Circle)) == Success(s1);
    var s2 := Press(s1, Point(5, 5));
    var s3 := Drag(s2, Point(5, 5));
    assert s3.currentShape == Some(Ellipse(5, 5, 0, 0));
    var s4 := Release(s3);
    RunCons(s3, Released, []);
    assert Run(s3, [Released]) == Success(s4);
    RunCons(s2, Dragged(Point(5, 5)), [Released]);
    assert Run(s2, [Dragged(Point(5, 5)), Released]) == Success(s4);
    RunCons(s1, Pressed(Point(5, 5)), [Dragged(Point(5, 5)), Released]);
    assert Run(s1, [Pressed(Point(5, 5)), Dragged(Point(5, 5)), Released]) == Success(s4);
    RunCons(Initial, ToolButton(Tools.Circle), [Pressed(Point(5, 5)), Dragged(Point(5, 5)), Released]);
  }

  /** After a completed gesture, the "Effacer" button leaves a picture equal to a fresh panel's,
      whatever was drawn before. */
  lemma ClearAfterRelease(s: Panel)
    ensures var r := Run(s, [Released, ToolButton(Tools.Clear)]);
            r.Success? && r.value.shapes == [] && Render(r.value) == Render(Initial)
  {
  }
}
