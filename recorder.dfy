/**
 The sketchpad's event handling as a state machine on values: the pen state
 (`isDrawing`, the pen point `x`/`y`, the segment buffer `drawingData`), what
 each mouse handler and the clear button do to it and to the canvas, and what
 any run of events keeps true.
 */
module Recorder {
  import opened Drawing

  /** The module-level variables of the sketchpad. */
  datatype State = State(isDrawing: bool, x: int, y: int, data: seq<Segment>)

  /** Their values when the page has loaded. */
  const Start: State := State(false, 0, 0, [])

  /** The pen point is (0, 0) whenever no drag is in progress. */
  predicate PenParked(s: State)
  {
    !s.isDrawing ==> s.x == 0 && s.y == 0
  }

  /** `mousedown`: put the pen at the event point and start drawing. */
  function OnMouseDown(s: State, ex: int, ey: int): State
  {
    s.(isDrawing := true, x := ex, y := ey)
  }

  /** `mousemove`: while drawing, record a segment from the pen to the event point and move the pen there. */
  function OnMouseMove(s: State, ex: int, ey: int): State
  {
    if s.isDrawing then State(true, ex, ey, s.data + [Segment(s.x, s.y, ex, ey)]) else s
  }

  /** `mouseup`: while drawing, record the final segment, park the pen at (0, 0) and stop drawing. */
  function OnMouseUp(s: State, ex: int, ey: int): State
  {
    if s.isDrawing then State(false, 0, 0, s.data + [Segment(s.x, s.y, ex, ey)]) else s
  }

  /** The inputs the page reacts to, each with its event point (`offsetX`, `offsetY`). */
  datatype Event =
    | MouseDown(offsetX: int, offsetY: int)
    | MouseMove(offsetX: int, offsetY: int)
    | MouseUp(offsetX: int, offsetY: int)
    | ClearClick

  /** The pen state together with the commands currently shown on the canvas. */
  datatype Sketch = Sketch(state: State, shown: seq<Command>)

  /** The page right after loading: nothing recorded, nothing shown. */
  const Loaded: Sketch := Sketch(Start, [])

  /**
   One event. A `mousemove` while drawing repaints (the `drawing-changed`
   listener clears the canvas and replays the buffer); `mouseup` records
   without repainting; the clear button wipes the canvas and nothing else.
   */
  function Step(k: Sketch, e: Event): Sketch
  {
    match e
    case MouseDown(ex, ey) => k.(state := OnMouseDown(k.state, ex, ey))
    case MouseMove(ex, ey) =>
      var s := OnMouseMove(k.state, ex, ey);
      Sketch(s, if k.state.isDrawing then Replay(s.data) else k.shown)
    case MouseUp(ex, ey) => k.(state := OnMouseUp(k.state, ex, ey))
    case ClearClick => k.(shown := [])
  }

  /** Events handled one at a time, in the order they arrive. */
  function Run(k: Sketch, es: seq<Event>): Sketch
    decreases |es|
  {
    if es == [] then k else Run(Step(k, es[0]), es[1..])
  }

  /** The `mousemove` events for moving the mouse through `pts`. */
  function Moves(pts: seq<Point>): (es: seq<Event>)
    ensures |es| == |pts|
  {
    if pts == [] then [] else [MouseMove(pts[0].x, pts[0].y)] + Moves(pts[1..])
  }

  /**
   What the page keeps true: the pen is parked when not drawing, and the canvas
   shows a prefix of the replay of the buffer (all of it after a repaint, less
   the segments recorded since, none of it after the clear button).
   */
  predicate Consistent(k: Sketch)
  {
    PenParked(k.state) && k.shown <= Replay(k.state.data)
  }

  /** Consecutive segments join: each starts where the one before it ends. */
  predicate Chained(segs: seq<Segment>)
  {
    forall i :: 0 < i < |segs| ==> segs[i].From() == segs[i - 1].To()
  }

  /** `segs` is the path of a pen that starts at `from` and visits `pts` in order, one segment per point. */
  predicate Polyline(segs: seq<Segment>, from: Point, pts: seq<Point>)
  {
    && |segs| == |pts|
    && (forall i :: 0 <= i < |segs| ==> segs[i].To() == pts[i])
    && (forall i :: 0 < i < |segs| ==> segs[i].From() == pts[i - 1])
    && (segs != [] ==> segs[0].From() == from)
  }

  /** A polyline is chained, starts at its first point and ends at its last. */
  lemma PolylineChained(segs: seq<Segment>, from: Point, pts: seq<Point>)
    requires Polyline(segs, from, pts)
    ensures Chained(segs)
    ensures segs != [] ==> segs[0].From() == from && segs[|segs| - 1].To() == pts[|pts| - 1]
  {
  }

  /** Every handler keeps the page consistent. */
  lemma StepConsistent(k: Sketch, e: Event)
    requires Consistent(k)
    ensures Consistent(Step(k, e))
  {
    match e
    case MouseUp(ex, ey) =>
      if k.state.isDrawing {
        ReplayMonotone(k.state.data, Step(k, e).state.data);
      }
    case _ =>
  }

  /** Every handler leaves earlier entries of the buffer as they were and adds at most one. */
  lemma StepGrows(k: Sketch, e: Event)
    ensures k.state.data <= Step(k, e).state.data
    ensures |Step(k, e).state.data| <= |k.state.data| + 1
  {
  }

  /** Any run of events keeps the page consistent. */
  lemma {:induction false} RunConsistent(k: Sketch, es: seq<Event>)
    requires Consistent(k)
    ensures Consistent(Run(k, es))
    decreases |es|
  {
    if es != [] {
      StepConsistent(k, es[0]);
      RunConsistent(Step(k, es[0]), es[1..]);
    }
  }

  /** The buffer only grows: no run of events removes or reorders a recorded segment. */
  lemma {:induction false} RunGrows(k: Sketch, es: seq<Event>)
    ensures k.state.data <= Run(k, es).state.data
    decreases |es|
  {
    if es != [] {
      StepGrows(k, es[0]);
      RunGrows(Step(k, es[0]), es[1..]);
    }
  }

  /** Whatever happens after loading, the pen is parked when idle and the canvas shows only recorded lines, in order. */
  lemma Reachable(es: seq<Event>)
    ensures Consistent(Run(Loaded, es))
  {
    RunConsistent(Loaded, es);
  }

  /** Handling two batches of events in turn is handling them together. */
  lemma {:induction false} RunConcat(k: Sketch, a: seq<Event>, b: seq<Event>)
    ensures Run(k, a + b) == Run(Run(k, a), b)
    decreases |a|
  {
    if a == [] {
      assert a + b == b;
    } else {
      assert (a + b)[0] == a[0];
      assert (a + b)[1..] == a[1..] + b;
      RunConcat(Step(k, a[0]), a[1..], b);
    }
  }

  /** The pen point after visiting `pts` from `from`. */
  function Last(from: Point, pts: seq<Point>): Point
  {
    if pts == [] then from else pts[|pts| - 1]
  }

  /** The path of a pen that starts at `from` and visits `pts` in order: one segment per point. */
  function Path(from: Point, pts: seq<Point>): seq<Segment>
    decreases |pts|
  {
    if pts == [] then [] else [Segment(from.x, from.y, pts[0].x, pts[0].y)] + Path(pts[0], pts[1..])
  }

  /** A path ends at its last point, has one segment per point, and its segments join up. */
  lemma {:induction false} PathIsPolyline(from: Point, pts: seq<Point>)
    ensures Polyline(Path(from, pts), from, pts)
    decreases |pts|
  {
    if pts != [] {
      PathIsPolyline(pts[0], pts[1..]);
      var rest := Path(pts[0], pts[1..]);
      var segs := Path(from, pts);
      assert segs == [Segment(from.x, from.y, pts[0].x, pts[0].y)] + rest;
      forall i | 0 < i < |segs|
        ensures segs[i].To() == pts[i] && segs[i].From() == pts[i - 1]
      {
        assert segs[i] == rest[i - 1];
        assert pts[i] == pts[1..][i - 1];
        if i > 1 { assert pts[i - 1] == pts[1..][i - 2]; }
      }
    }
  }

  /** Visiting one more point extends the path by one segment from the old pen point. */
  lemma {:induction false} PathSnoc(from: Point, pts: seq<Point>, q: Point)
    ensures Path(from, pts + [q]) == Path(from, pts) + [Segment(Last(from, pts).x, Last(from, pts).y, q.x, q.y)]
    ensures Last(from, pts + [q]) == q
    decreases |pts|
  {
    if pts == [] {
      assert [] + [q] == [q];
      assert [q][1..] == [];
    } else {
      assert (pts + [q])[0] == pts[0];
      assert (pts + [q])[1..] == pts[1..] + [q];
      PathSnoc(pts[0], pts[1..], q);
      assert Last(pts[0], pts[1..]) == Last(from, pts);
    }
  }

  /** A drag's first move, then the rest of the moves. */
  lemma RunMovesCons(k: Sketch, pts: seq<Point>)
    requires pts != []
    ensures Run(k, Moves(pts)) == Run(Step(k, MouseMove(pts[0].x, pts[0].y)), Moves(pts[1..]))
  {
    var es := Moves(pts);
    assert es[0] == MouseMove(pts[0].x, pts[0].y) && es[1..] == Moves(pts[1..]);
  }

  /** Appending a path is appending its first segment, then the rest of the path from its first point. */
  lemma PathCons(data: seq<Segment>, from: Point, pts: seq<Point>)
    requires pts != []
    ensures data + [Segment(from.x, from.y, pts[0].x, pts[0].y)] + Path(pts[0], pts[1..]) == data + Path(from, pts)
    ensures Last(pts[0], pts[1..]) == Last(from, pts)
  {
    assert Path(from, pts) == [Segment(from.x, from.y, pts[0].x, pts[0].y)] + Path(pts[0], pts[1..]);
  }

  /**
   Dragging through `pts` records exactly the pen's path: one segment per
   point, starting at the pen point, after every earlier entry; the pen follows
   the mouse, and every move repaints the whole buffer.
   */
  lemma {:induction false} DragChains(k: Sketch, pts: seq<Point>)
    requires k.state.isDrawing
    ensures var s, from := k.state, Point(k.state.x, k.state.y);
      Run(k, Moves(pts)).state == State(true, Last(from, pts).x, Last(from, pts).y, s.data + Path(from, pts))
    ensures pts != [] ==> Run(k, Moves(pts)).shown == Replay(Run(k, Moves(pts)).state.data)
    decreases |pts|
  {
    var s, from := k.state, Point(k.state.x, k.state.y);
    if pts == [] {
      assert s.data + [] == s.data;
    } else {
      var p, rest := pts[0], pts[1..];
      var k1 := MoveWhileDrawing(k, p);
      RunMovesCons(k, pts);
      DragChains(k1, rest);
      PathCons(s.data, from, pts);
      if rest == [] {
        assert Moves(rest) == [];
      }
    }
  }

  /** A mouse move while drawing records one segment, moves the pen and repaints. */
  lemma MoveWhileDrawing(k: Sketch, p: Point) returns (k1: Sketch)
    requires k.state.isDrawing
    ensures k1 == Step(k, MouseMove(p.x, p.y))
    ensures k1.state == State(true, p.x, p.y, k.state.data + [Segment(k.state.x, k.state.y, p.x, p.y)])
    ensures k1.shown == Replay(k1.state.data)
  {
    k1 := Step(k, MouseMove(p.x, p.y));
  }

  /**
   A whole stroke (press at `p0`, drag through `pts`, release at `q`) appends
   the chained path from `p0` through `pts` to `q` to the buffer, after every
   earlier entry, and parks the pen at (0, 0) with drawing stopped.
   */
  lemma StrokeChains(k: Sketch, p0: Point, pts: seq<Point>, q: Point)
    ensures Run(k, [MouseDown(p0.x, p0.y)] + Moves(pts) + [MouseUp(q.x, q.y)]).state
         == State(false, 0, 0, k.state.data + Path(p0, pts + [q]))
    ensures Polyline(Path(p0, pts + [q]), p0, pts + [q])
    ensures Chained(Path(p0, pts + [q]))
  {
    var down := [MouseDown(p0.x, p0.y)];
    var up := [MouseUp(q.x, q.y)];
    RunConcat(k, down + Moves(pts), up);
    RunConcat(k, down, Moves(pts));
    var k1 := Run(k, down);
    assert k1 == Step(k, MouseDown(p0.x, p0.y));
    DragChains(k1, pts);
    var k2 := Run(k1, Moves(pts));
    assert Run(k2, up) == Step(k2, MouseUp(q.x, q.y));
    PathSnoc(p0, pts, q);
    assert k.state.data + Path(p0, pts) + [Segment(Last(p0, pts).x, Last(p0, pts).y, q.x, q.y)]
        == k.state.data + Path(p0, pts + [q]);
    PathIsPolyline(p0, pts + [q]);
    PolylineChained(Path(p0, pts + [q]), p0, pts + [q]);
  }

  /**
   A clear made during a drag (a keyboard or scripted click) only wipes the
   canvas: the next mouse move of the drag repaints every line recorded before
   the clear, followed by the new one.
   */
  lemma ClearThenMoveRestores(k: Sketch, ex: int, ey: int)
    requires k.state.isDrawing
    ensures Run(k, [ClearClick, MouseMove(ex, ey)]).state.data
         == k.state.data + [Segment(k.state.x, k.state.y, ex, ey)]
    ensures Run(k, [ClearClick, MouseMove(ex, ey)]).shown
         == Replay(k.state.data) + [LineCommand(k.state.x, k.state.y, ex, ey)]
  {
    var s := k.state;
    var t := Run(k, [ClearClick, MouseMove(ex, ey)]);
    var k1 := Step(k, ClearClick);
    assert [ClearClick, MouseMove(ex, ey)][1..] == [MouseMove(ex, ey)];
    assert t == Run(k1, [MouseMove(ex, ey)]);
    assert [MouseMove(ex, ey)][1..] == [];
    assert t == Step(k1, MouseMove(ex, ey));
    ReplayAppend(s.data, [Segment(s.x, s.y, ex, ey)]);
  }

  /**
   The usual clear: from any state, clear the canvas, press at `p` and move to
   `q`. The buffer is kept, and the first move repaints every line recorded
   before the clear, followed by the new segment from `p` to `q`.
   */
  lemma ClearThenStroke(k: Sketch, p: Point, q: Point)
    ensures Run(k, [ClearClick, MouseDown(p.x, p.y), MouseMove(q.x, q.y)]).state
         == State(true, q.x, q.y, k.state.data + [Segment(p.x, p.y, q.x, q.y)])
    ensures Run(k, [ClearClick, MouseDown(p.x, p.y), MouseMove(q.x, q.y)]).shown
         == Replay(k.state.data) + [LineCommand(p.x, p.y, q.x, q.y)]
  {
    var es := [ClearClick, MouseDown(p.x, p.y), MouseMove(q.x, q.y)];
    var k1 := Step(k, ClearClick);
    var k2 := Step(k1, MouseDown(p.x, p.y));
    var k3 := Step(k2, MouseMove(q.x, q.y));
    assert es[1..] == [MouseDown(p.x, p.y), MouseMove(q.x, q.y)];
    assert es[1..][1..] == [MouseMove(q.x, q.y)];
    assert es[1..][1..][1..] == [];
    assert Run(k3, []) == k3;
    assert Run(k2, es[1..][1..]) == k3;
    assert Run(k1, es[1..]) == k3;
    assert Run(k, es) == k3;
    ReplayAppend(k.state.data, [Segment(p.x, p.y, q.x, q.y)]);
  }
}
