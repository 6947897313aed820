/**
 The values the sketchpad records and draws: a recorded segment (one entry
 `[x1, y1, x2, y2]` of `drawingData`), the abstract line command that
 `drawLine` issues to the canvas context, and the replay that turns the whole
 buffer into the commands the `drawing-changed` listener issues.
 */
module Drawing {

  /** A point in canvas-local pixel coordinates (`offsetX`, `offsetY`). */
  datatype Point = Point(x: int, y: int)

  /** One entry of `drawingData`: a straight piece of the pen's path. */
  datatype Segment = Segment(x1: int, y1: int, x2: int, y2: int)
  {
    function From(): Point { Point(x1, y1) }
    function To(): Point { Point(x2, y2) }
  }

  /** One stroked path on the canvas: a straight line with its width and colour. */
  datatype Command = Line(x1: int, y1: int, x2: int, y2: int, width: int, color: string)

  /** The `lineWidth` and `strokeStyle` that `drawLine` sets before every stroke. */
  const LineWidth: int := 2
  const LineColor: string := "black"

  /** The command `drawLine` issues for a line between two points: fixed width and colour. */
  function LineCommand(x1: int, y1: int, x2: int, y2: int): Command
  {
    Line(x1, y1, x2, y2, LineWidth, LineColor)
  }

  /** The command the replay issues for one buffer entry: a line drawn from the entry's four coordinates. */
  function SegmentLine(s: Segment): Command
  {
    LineCommand(s.x1, s.y1, s.x2, s.y2)
  }

  /** A command as `drawLine` issues it: black, width 2. */
  predicate IsPenLine(c: Command)
  {
    c.width == LineWidth && c.color == LineColor
  }

  /**
   The commands the `drawing-changed` listener issues after clearing the
   canvas: one per buffer entry, in buffer order.
   */
  function Replay(data: seq<Segment>): (cmds: seq<Command>)
    ensures |cmds| == |data|
    ensures forall i :: 0 <= i < |data| ==> cmds[i] == SegmentLine(data[i])
  {
    if data == [] then [] else Replay(data[..|data| - 1]) + [SegmentLine(data[|data| - 1])]
  }

  /** The segments a sequence of line commands traces, read back from the commands' end points. */
  function Traced(cmds: seq<Command>): (data: seq<Segment>)
    ensures |data| == |cmds|
  {
    if cmds == [] then []
    else [Segment(cmds[0].x1, cmds[0].y1, cmds[0].x2, cmds[0].y2)] + Traced(cmds[1..])
  }

  /** Every command of a replay is a width-2 black line. */
  lemma ReplayIsPenLines(data: seq<Segment>)
    ensures forall i :: 0 <= i < |Replay(data)| ==> IsPenLine(Replay(data)[i])
  {
  }

  /** A replay loses nothing: the recorded buffer can be read back from the commands. */
  lemma {:induction false} TracedReplay(data: seq<Segment>)
    ensures Traced(Replay(data)) == data
  {
    if data != [] {
      var cmds := Replay(data);
      assert Replay(data[1..]) == cmds[1..];
      TracedReplay(data[1..]);
      assert data == [data[0]] + data[1..];
    }
  }

  /** Replaying a longer buffer issues the shorter buffer's commands first. */
  lemma ReplayAppend(a: seq<Segment>, b: seq<Segment>)
    ensures Replay(a + b) == Replay(a) + Replay(b)
  {
  }

  /** A buffer that grows by appending replays to commands that extend the old replay. */
  lemma ReplayMonotone(a: seq<Segment>, b: seq<Segment>)
    requires a <= b
    ensures Replay(a) <= Replay(b)
  {
    assert b == a + b[|a|..];
    ReplayAppend(a, b[|a|..]);
  }
}
