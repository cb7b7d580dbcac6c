/** The raster canvas, modelled as the log of drawing operations applied to it since it
    was last filled (src/Frame/DrawingPanel.java, `canvas`). */
module Canvas {
  import opened Geometry

  /** The `java.awt.Color` constants the application uses: the white background and the
      palette of the colour bar. */
  datatype Color = White | Black | Red | Green | Blue | Yellow | Orange | Pink

  /** One drawing call on the canvas: a fill of the whole surface, a pencil segment
      (`drawLine`) or the outline of a shape (`draw`). */
  datatype DrawOp =
    | Fill(color: Color)
    | Segment(from: Point, to: Point, color: Color)
    | Outline(shape: Shape, color: Color)

  /** A canvas freshly filled with white. */
  const Blank: seq<DrawOp> := [Fill(White)]

  /** The shapes outlined in `log`, in drawing order; pencil segments and fills are not shapes. */
  function Outlined(log: seq<DrawOp>): (r: seq<Shape>)
    ensures forall sh :: sh in r ==> exists c :: Outline(sh, c) in log
    ensures (forall i :: 0 <= i < |log| ==> !log[i].Outline?) ==> r == []
  {
    if log == [] then []
    else if log[|log| - 1].Outline? then Outlined(log[..|log| - 1]) + [log[|log| - 1].shape]
    else Outlined(log[..|log| - 1])
  }

  /** Outlining distributes over concatenation of logs. */
  lemma {:induction false} OutlinedAppend(a: seq<DrawOp>, b: seq<DrawOp>)
    ensures Outlined(a + b) == Outlined(a) + Outlined(b)
    decreases |b|
  {
    if b == [] {
      assert a + b == a;
    } else {
      var b' := b[..|b| - 1];
      assert (a + b)[..|a + b| - 1] == a + b';
      OutlinedAppend(a, b');
    }
  }
}
