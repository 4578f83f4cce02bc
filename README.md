# Drawing session: shape synthesis, undo/redo history and gestures

This project models the drawing session of a browser drawing surface written
in Go (`main.go`). The session is one `DrawingApp` object. It holds:

- the committed shapes;
- a bounded, linear undo/redo history of canvas snapshots, with a cursor;
- the gesture state: whether a gesture is in progress, its anchor point and
  the shape being built;
- the settings: colour, stroke width and drawing mode.

The model has three modules:

- `Geometry` (geometry.dfy): `Point`, `Shape` and `ShapePoints`. `ShapePoints`
  gives the point list that `createShapePoints` builds for the line, rect and
  circle modes. Any other mode gets the two-point segment.
- `History` (history.dfy): the history as a value `Log(entries, index)`, with
  `Save`, `Undo` and `Redo`. Lemmas state what runs of these operations do:
  undo after save, round trips, eviction at 50 entries, loss of the redo tail.
- `Drawing` (drawing.dfy): the `DrawingApp` class. Its fields are the session
  fields of the Go struct. The host handles `canvas`, `ctx` and `gl` are not
  modelled, and a constant `trig` stands for the host's cosine and sine
  samples (see "Left out"). Its methods are the handlers and control
  functions, and each handler takes the canvas position the DOM event
  carried. Every method keeps `Valid()`:
  - the history is well formed (`-1 <= historyIndex < |history| <= 50`);
  - the live canvas equals the snapshot under the cursor, or is empty before
    the first snapshot;
  - a gesture in progress holds at least one point.

  Each history method is proved to act on `history`/`historyIndex` exactly as
  the matching `History` function does. A few client methods at the end chain
  handlers into whole gestures and prove what those gestures commit.

Two consequences of the code, as written, are proved:

- No snapshot is taken at start-up, so the first committed shape cannot be
  undone.
- `handleTouchMove` adds no point in line, rect or circle mode. As a result,
  `handleTouchEnd` uses the touch-start point as the end point, so a touch
  gesture in these modes commits a shape from the start point to itself.
  The matching mouse gesture spans the press and release points.

Because of the `Valid()` invariant, the `len(a.current.Points) > 0` guard in
`handleTouchEnd` always holds when it is reached. The model keeps the guard.

## Model

| member | source | states |
|---|---|---|
| Geometry.ShapePoints | main.go:225-255 | line and any unrecognised mode give exactly `[start, end]`; rect gives exactly the closed 5-point outline `start`, `(end.x, start.y)`, `end`, `(start.x, end.y)`, `start`, every point a corner of the box and every side axis-parallel; circle gives 51 points, sample i lying at the box centre plus the radii scaled by the i-th (cos, sin); the circle closes when the samples at 0 and 2π agree |
| Geometry.CircleOnEllipse | main.go:237-252 | every circle sample satisfies the ellipse equation for the box's centre and half-extents, provided its (cos, sin) sample lies on the unit circle |
| History.Save | main.go:321-345 | snapshotting keeps a valid log (`-1 <= index < length <= 50`) and puts the cursor on the new last entry, which equals the saved canvas |
| History.SaveKeepsNewest | main.go:321-345 | a snapshot keeps the entries up to the old cursor, then the new one, dropping the oldest once there are more than 50; the length becomes min(old index + 2, 50) |
| History.Undo | main.go:347-355 | when the cursor is above 0 it moves back by one and the canvas becomes that entry; otherwise nothing changes; the entries never change |
| History.Redo | main.go:357-365 | when the cursor is below the last entry it moves forward by one and the canvas becomes that entry; otherwise nothing changes; the entries never change |
| History.UndoAfterSave | main.go:321-355 | after any snapshot (evicting or not) taken when a snapshot already existed, undo is possible and restores the canvas the cursor designated before the snapshot |
| History.FirstSaveNotUndoable | main.go:45-52 | starting with no snapshot, the first snapshot is the only entry and undo right after it changes nothing, so the initial empty canvas cannot be restored |
| History.RedoUndoRoundTrip | main.go:347-365 | n undos followed by n redos (n at most the cursor) give back exactly the same log |
| History.SaveAllNewest | main.go:321-345 | a run of snapshots leaves the entries up to the old cursor followed by the new snapshots, cut to the newest 50, with the cursor on the last |
| History.SaveAllBelowCap | main.go:321-345 | while the total stays within 50, a run of snapshots taken with the cursor on the newest entry appends all of them, in order, and leaves the cursor on the last; so N ≤ 50 snapshots from the initial session leave exactly those N entries |
| History.LinearHistory | main.go:347-365 | with the cursor on the newest entry (where every snapshot leaves it), undoing once per earlier entry reaches the oldest entry, and as many redos give back exactly the same log |
| History.CapacityEviction | main.go:340-344 | 55 snapshots from the initial session leave exactly 50 entries, the 5 oldest gone and the last snapshot current |
| History.SaveDiscardsRedo | main.go:322-323 | a snapshot taken after an undo leaves nothing to redo; the undone entry is gone |
| Drawing.DrawingApp.constructor | main.go:44-52 | the session starts valid with no shapes, no history, cursor −1, not drawing, colour `#000000`, width 2, mode `draw` |
| Drawing.DrawingApp.CreateShapePoints | main.go:225-255 | the switch and the 51-step circle loop return exactly `ShapePoints` for the session's mode |
| Drawing.DrawingApp.SaveState | main.go:321-345 | the history fields change as `History.Save` of the live canvas, after which the canvas is the entry under the cursor |
| Drawing.DrawingApp.Undo | main.go:347-355 | the history fields change as `History.Undo`, the canvas follows the cursor, and nothing changes at the oldest entry |
| Drawing.DrawingApp.Redo | main.go:357-365 | the history fields change as `History.Redo`, the canvas follows the cursor, and nothing changes at the newest entry |
| Drawing.DrawingApp.Clear | main.go:367-372 | the canvas becomes empty and that empty canvas is snapshotted, as `History.Save(old log, [])` |
| Drawing.DrawingApp.SetColor | main.go:374-379 | the colour becomes the argument; without an argument it is unchanged; nothing else changes |
| Drawing.DrawingApp.SetWidth | main.go:381-386 | the width becomes the argument (unchecked); without an argument it is unchanged; nothing else changes |
| Drawing.DrawingApp.SetMode | main.go:388-393 | the mode becomes the argument, any string accepted; without an argument it is unchanged; nothing else changes |
| Drawing.DrawingApp.HandleMouseDown | main.go:107-122 | a gesture starts (abandoning any in progress): drawing, anchor at the position, and the shape in progress is that one point in the current colour and width |
| Drawing.DrawingApp.HandleTouchStart | main.go:166-181 | the same transition as mouse-down |
| Drawing.DrawingApp.HandleMouseMove | main.go:124-143 | during a gesture in `draw` mode the position is appended to the shape in progress; in any other mode, or with no gesture, the shape in progress is unchanged; nothing else changes |
| Drawing.DrawingApp.HandleTouchMove | main.go:183-202 | the same transition as mouse-move |
| Drawing.DrawingApp.Commit | main.go:158-160 | the gesture ends, the shape in progress is appended to the canvas and the canvas is snapshotted |
| Drawing.DrawingApp.HandleMouseUp | main.go:145-164 | ignored with no gesture; otherwise a non-`draw` shape's points become `ShapePoints` from the anchor to the release position, a freehand stroke is kept as is, exactly that one shape is appended to the canvas and the canvas is snapshotted |
| Drawing.DrawingApp.HandleTouchEnd | main.go:204-223 | as mouse-up, but the end point of a non-`draw` shape is the last point already in the shape in progress |
| Drawing.FreehandGesture | main.go:107-164 | a `draw`-mode gesture (press, any moves, release) commits exactly one shape: the press point then the moves in order, in the colour and width of the session at the press; the release point is not added |
| Drawing.CommitThenUndo | main.go:145-164 | committing a shape and then undoing restores the canvas from before the gesture, when a snapshot already existed |
| Drawing.ClearThenUndo | main.go:367-372 | clearing and then undoing restores the shapes that were on the canvas, in every valid session (before the first snapshot the canvas is empty and stays so) |
| Drawing.MouseParametricGesture | main.go:145-164 | in any non-`draw` mode, a fresh session's mouse gesture from p to q commits `ShapePoints(mode, p, q)` in black, width 2 |
| Drawing.TouchParametricGesture | main.go:204-223 | in any non-`draw` mode, a fresh session's touch gesture from p moving to q commits `ShapePoints(mode, p, p)`: the touch end point is the start point |

## Left out

- The `syscall/js` plumbing is not modelled: `main`, the DOM lookup and canvas sizing in `initWasmDrawing`, and `setupEventListeners`. These are calls into the host with no logic of their own. The constructor models only the field initialisation.
- `getMousePos` and `getTouchPos` are not modelled. Each handler takes the already translated canvas `Point` instead. Reading `event.touches` on touch end is not needed, because `handleTouchEnd` does not read it.
- `render`, `drawGrid`, `drawShape` and `drawPreview` are not modelled. They only issue canvas-context calls and change no session state. For the same reason, the `render()` and `preventDefault` calls inside the handlers are dropped.
- The cosine and sine values of the circle tessellation are not computed. They are a parameter of the session (`trig`, sample i standing for the angle i·2π/50). The model proves the count of 51 points, the placement of each point relative to its sample, the ellipse equation and closure, each under the stated assumption about the samples.
- float64 arithmetic is not modelled. Coordinates and widths are mathematical reals, so rounding is not captured, and neither are NaN or infinite values.
- The deep copy in `saveState` and the header-only copy in `undo`/`redo` are not modelled. Shapes and canvases are values here, so aliasing between live state and history cannot arise. The element-by-element copy loop therefore becomes a plain value append.
- The setters do not convert their argument (`args[0].String()` or `.Float()`). Each setter takes an optional value that is already converted; "no argument" leaves the state unchanged.
