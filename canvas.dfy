/**
 The sketchpad as the page runs it: the canvas context as an object that
 collects line commands, and the module-level variables of the page as the
 fields of one object whose methods are the event listeners. Each listener is
 specified by the matching step of the `Recorder` state machine.
 */
module Canvas {
  import opened Drawing
  import Recorder

  /** The 2D context of the canvas, reduced to the lines stroked on it since it was last cleared. */
  class Surface {
    var shown: seq<Command>

    constructor ()
      ensures shown == []
    {
      shown := [];
    }

    /** `clearRect` over the whole canvas. */
    method ClearRect()
      modifies this
      ensures shown == []
    {
      shown := [];
    }

    /** Stroke one line on top of what is shown. */
    method Stroke(c: Command)
      modifies this
      ensures shown == old(shown) + [c]
    {
      shown := shown + [c];
    }
  }

  /** `drawLine`: one straight black line of width 2 from (x1, y1) to (x2, y2). */
  method DrawLine(context: Surface, x1: int, y1: int, x2: int, y2: int)
    modifies context
    ensures context.shown == old(context.shown) + [LineCommand(x1, y1, x2, y2)]
  {
    context.Stroke(Line(x1, y1, x2, y2, LineWidth, LineColor));
  }

  /** The page: its drawing state and the canvas it paints on. */
  class Sketchpad {
    var isDrawing: bool
    var x: int
    var y: int
    var drawingData: seq<Segment>
    const context: Surface

    /** The drawing state as a value. */
    function State(): Recorder.State
      reads this
    {
      Recorder.State(isDrawing, x, y, drawingData)
    }

    /** The drawing state together with what the canvas shows. */
    function View(): Recorder.Sketch
      reads this, context
    {
      Recorder.Sketch(State(), context.shown)
    }

    /** Pen parked when idle; the canvas shows a prefix of the replayed buffer. */
    predicate Valid()
      reads this, context
    {
      Recorder.Consistent(View())
    }

    constructor ()
      ensures Valid() && fresh(context)
      ensures !isDrawing && x == 0 && y == 0 && drawingData == [] && context.shown == []
      ensures View() == Recorder.Loaded
    {
      isDrawing := false;
      x := 0;
      y := 0;
      drawingData := [];
      context := new Surface();
    }

    /** The `mousedown` listener. */
    method MouseDown(offsetX: int, offsetY: int)
      requires Valid()
      modifies this
      ensures Valid()
      ensures isDrawing && x == offsetX && y == offsetY
      ensures drawingData == old(drawingData) && context.shown == old(context.shown)
      ensures View() == Recorder.Step(old(View()), Recorder.MouseDown(offsetX, offsetY))
    {
      x := offsetX;
      y := offsetY;
      isDrawing := true;
    }

    /** The `mousemove` listener; while drawing it records a segment and repaints. */
    method MouseMove(offsetX: int, offsetY: int)
      requires Valid()
      modifies this, context
      ensures Valid()
      ensures old(isDrawing) ==>
        && drawingData == old(drawingData) + [Segment(old(x), old(y), offsetX, offsetY)]
        && isDrawing && x == offsetX && y == offsetY
        && context.shown == Replay(drawingData)
      ensures !old(isDrawing) ==> unchanged(this, context)
      ensures View() == Recorder.Step(old(View()), Recorder.MouseMove(offsetX, offsetY))
    {
      if isDrawing {
        var currentX := offsetX;
        var currentY := offsetY;
        drawingData := drawingData + [Segment(x, y, currentX, currentY)];
        x := currentX;
        y := currentY;
        DrawingChanged();
      }
    }

    /** The `mouseup` listener; while drawing it records the final segment and parks the pen, without repainting. */
    method MouseUp(offsetX: int, offsetY: int)
      requires Valid()
      modifies this
      ensures Valid()
      ensures old(isDrawing) ==>
        && drawingData == old(drawingData) + [Segment(old(x), old(y), offsetX, offsetY)]
        && !isDrawing && x == 0 && y == 0
      ensures !old(isDrawing) ==> unchanged(this)
      ensures context.shown == old(context.shown)
      ensures View() == Recorder.Step(old(View()), Recorder.MouseUp(offsetX, offsetY))
    {
      if isDrawing {
        var currentX := offsetX;
        var currentY := offsetY;
        drawingData := drawingData + [Segment(x, y, currentX, currentY)];
        x := 0;
        y := 0;
        isDrawing := false;
        Drawing.ReplayMonotone(old(drawingData), drawingData);
      }
    }

    /** The clear button: wipes the canvas and leaves the recorded segments alone. */
    method ClearClick()
      requires Valid()
      modifies context
      ensures Valid()
      ensures context.shown == []
      ensures State() == old(State())
      ensures View() == Recorder.Step(old(View()), Recorder.ClearClick)
    {
      context.ClearRect();
    }

    /** The `drawing-changed` listener: clear the canvas, then draw every recorded segment in buffer order. */
    method DrawingChanged()
      modifies context
      ensures context.shown == Replay(drawingData)
    {
      context.ClearRect();
      var i := 0;
      while i < |drawingData|
        invariant 0 <= i <= |drawingData|
        invariant context.shown == Replay(drawingData[..i])
      {
        var line := drawingData[i];
        DrawLine(context, line.x1, line.y1, line.x2, line.y2);
        assert drawingData[..i + 1][..i] == drawingData[..i];
        i := i + 1;
      }
      assert drawingData[..i] == drawingData;
    }
  }
}
