# Sketchpad segment recorder, in Dafny

This project models the drawing logic of a small browser sketchpad (`src/main.ts`).
While the mouse button is held down, the page records the pen's path as a growing
buffer `drawingData` of segments `[x1, y1, x2, y2]`. Every mouse move during a drag
fires a `drawing-changed` repaint. The repaint clears the canvas and redraws every
recorded segment, in buffer order, as a black line of width 2. The clear button
wipes the canvas but keeps the buffer, so the next repaint brings the old lines back.

The project has three modules:

- `Drawing` (drawing.dfy) holds the values. `Segment` is one buffer entry. `Command`
  is the abstract line that `drawLine` strokes. `Replay` gives the commands a repaint
  issues, and `Traced` reads the segments back from a list of commands.
- `Recorder` (recorder.dfy) is the page as a state machine on values. `State` holds
  `isDrawing`, the pen point and the buffer. `OnMouseDown`, `OnMouseMove` and
  `OnMouseUp` are the three listeners. `Sketch` pairs the state with what the canvas
  shows. `Step` and `Run` process events one at a time. The lemmas cover any run of
  events: the pen invariant, buffer growth, segment chaining and the clear-then-repaint
  behaviour.
- `Canvas` (canvas.dfy) is the page as it runs. `Surface` is the canvas context.
  `Sketchpad` holds the module-level variables as fields, and its methods are the
  event listeners. These methods change the fields step by step, as the source does.
  Each one's postcondition says the new state is the matching `Recorder.Step` of the
  old one. `DrawingChanged` is the `forEach` replay loop, proved to show exactly
  `Replay(drawingData)`.

`mouseup` records its final segment but, unlike `mousemove`, does not fire a repaint.
So the canvas does not always show the whole buffer. The invariant `Recorder.Consistent`
says what the canvas shows: a prefix of `Replay(drawingData)`. After a repaint that is
all of it. After a `mouseup`, every segment recorded since the last repaint is
missing. After the clear button nothing is shown.

## Model

| member | source | states |
|---|---|---|
| `Drawing.Replay` | src/main.ts:71-76 | a repaint issues exactly one command per buffer entry, in buffer order; command i is the line of entry i |
| `Drawing.ReplayIsPenLines` | src/main.ts:57-62 | every replayed command is width 2 and `"black"` |
| `Drawing.TracedReplay` | src/main.ts:73-75 | the replay loses nothing: reading segments back from the commands gives the buffer again |
| `Drawing.ReplayAppend` | src/main.ts:73-75 | replaying a concatenated buffer is replaying its parts one after the other |
| `Drawing.ReplayMonotone` | src/main.ts:71-76 | if one buffer is a prefix of another, its replay is a prefix of the other's replay |
| `Recorder.StepConsistent` | src/main.ts:16-69 | each listener and the clear button keep the pen parked at (0, 0) when idle, and keep the canvas showing a prefix of the replayed buffer |
| `Recorder.StepGrows` | src/main.ts:21-48 | each event keeps every earlier buffer entry and adds at most one |
| `Recorder.RunConsistent` | src/main.ts:16-76 | any sequence of events preserves that invariant |
| `Recorder.RunGrows` | src/main.ts:19-69 | across any sequence of events the old buffer is a prefix of the new one: nothing is removed or reordered |
| `Recorder.Reachable` | src/main.ts:16-19 | the state at page load satisfies the invariant, so every reachable state does |
| `Recorder.RunConcat` | src/main.ts:21-76 | handling two batches of events in turn is the same as handling them together |
| `Recorder.PathIsPolyline` | src/main.ts:29-33 | the pen path through a list of points has one segment per point; segment i ends at point i and starts at point i-1, the first starting at the pen |
| `Recorder.PathSnoc` | src/main.ts:41-43 | one more point extends the path by one segment from the last pen point |
| `Recorder.DragChains` | src/main.ts:27-37 | a drag through points appends exactly the pen path after the old buffer; the pen ends on the last point and drawing stays on; each move repaints the whole buffer; with no moves nothing changes |
| `Recorder.StrokeChains` | src/main.ts:21-48 | press, drag, release appends the chained path from the press point through the moves to the release point, then parks the pen at (0, 0) with drawing off |
| `Recorder.PolylineChained` | src/main.ts:31-33 | in such a path each segment starts where the one before it ends |
| `Recorder.ClearThenMoveRestores` | src/main.ts:66-76 | after a clear made during a drag (a keyboard or scripted click), the next move of the drag shows every line recorded before the clear, followed by the new one |
| `Recorder.ClearThenStroke` | src/main.ts:21-76 | from any state: after the clear button, a press and a move record the new segment after the kept buffer and show every line recorded before the clear, followed by the new one |
| `Canvas.Surface.constructor` | src/main.ts:13-14 | the canvas context starts blank: nothing is shown |
| `Canvas.Surface.ClearRect` | src/main.ts:68 | clearing leaves nothing shown |
| `Canvas.Surface.Stroke` | src/main.ts:57-63 | a stroke puts one line on top of what is shown |
| `Canvas.DrawLine` | src/main.ts:50-64 | appends exactly one black width-2 line with the given end points |
| `Canvas.Sketchpad.constructor` | src/main.ts:16-19 | starts idle, pen at (0, 0), empty buffer, blank canvas; the invariant holds |
| `Canvas.Sketchpad.MouseDown` | src/main.ts:21-25 | moves the pen to the event point and starts drawing; buffer and canvas unchanged |
| `Canvas.Sketchpad.MouseMove` | src/main.ts:27-37 | while drawing: appends one segment from the old pen point to the event point, keeps earlier entries, moves the pen and repaints the whole buffer; otherwise changes nothing |
| `Canvas.Sketchpad.MouseUp` | src/main.ts:39-48 | while drawing: appends the final segment, parks the pen at (0, 0) and stops drawing, without repainting; otherwise changes nothing |
| `Canvas.Sketchpad.ClearClick` | src/main.ts:66-69 | wipes the canvas and leaves the drawing state, buffer included, unchanged |
| `Canvas.Sketchpad.DrawingChanged` | src/main.ts:71-76 | afterwards the canvas shows exactly `Replay(drawingData)`, whatever it showed before, so repainting twice gives the same result |

## Left out

- Page setup (stylesheet import, document title, header, element lookups, lines 1-14) is not modelled. It is DOM wiring with no logic.
- The `CustomEvent` dispatch (lines 34-35) is modelled as a direct call to `DrawingChanged`. Browsers run `dispatchEvent` listeners synchronously, so the call happens at the same point.
- What `beginPath`, `strokeStyle`, `lineWidth`, `moveTo`, `lineTo`, `stroke`, `closePath` and `clearRect` do to pixels is not modelled. A stroke is one abstract `Line` command, and clearing empties the list of shown commands. The canvas width and height passed to `clearRect` are not modelled, because the clear always covers the whole canvas.
- `offsetX`/`offsetY` are floating-point numbers in the browser. They are modelled as unbounded integers, since the code only copies them and never computes with them.
- The `mouseup` listener is on `window`, so in the browser its `offsetX`/`offsetY` are relative to whatever element is under the pointer. The model takes the event point as given.
