/** The drawing session of main.go: the `DrawingApp` object, its undo/redo
    history, its gesture state machine and its settings. Handlers take the
    canvas-space position the DOM event carried. */
module Drawing {
  import opened Geometry
  import History

  /** A setter's optional argument: None when the host passed no argument. */
  datatype Option<T> = None | Some(value: T)

  class DrawingApp {
    var isDrawing: bool
    var shapes: seq<Shape>
    var current: Shape
    var history: seq<seq<Shape>>
    var historyIndex: int
    var color: string
    var lineWidth: real
    var mode: string
    var startPoint: Point
    /** The host's (cos, sin) at angle i * 2 * pi / Steps, for the circle mode. */
    const trig: nat -> Point

    /** The history fields seen as a value. */
    ghost function Log(): History.Log
      reads this
    {
      History.Log(history, historyIndex)
    }

    /** The history is well formed, the live canvas is the snapshot under the
        cursor, and a gesture in progress always holds at least one point. */
    ghost predicate Valid()
      reads this
    {
      && History.Valid(Log())
      && shapes == History.Current(Log())
      && (isDrawing ==> current.points != [])
    }

    /** initWasmDrawing: an empty canvas, no snapshot yet, black 2-unit freehand. */
    constructor (trig: nat -> Point)
      ensures Valid()
      ensures shapes == [] && history == [] && historyIndex == -1
      ensures !isDrawing && color == "#000000" && lineWidth == 2.0 && mode == "draw"
      ensures current == Shape([], "", 0.0) && startPoint == Point(0.0, 0.0)
      ensures this.trig == trig
    {
      isDrawing := false;
      shapes := [];
      current := Shape([], "", 0.0);
      history := [];
      historyIndex := -1;
      color := "#000000";
      lineWidth := 2.0;
      mode := "draw";
      startPoint := Point(0.0, 0.0);
      this.trig := trig;
    }

    /** createShapePoints: the point list of the current mode's parametric shape. */
    method CreateShapePoints(start: Point, end: Point) returns (points: seq<Point>)
      ensures points == ShapePoints(mode, start, end, trig)
    {
      if mode == "line" {
        return [start, end];
      } else if mode == "rect" {
        return [start, Point(end.x, start.y), end, Point(start.x, end.y), start];
      } else if mode == "circle" {
        var cx := (start.x + end.x) / 2.0;
        var cy := (start.y + end.y) / 2.0;
        var rx := Abs(end.x - start.x) / 2.0;
        var ry := Abs(end.y - start.y) / 2.0;
        points := [];
        var i := 0;
        while i <= Steps
          invariant 0 <= i <= Steps + 1
          invariant |points| == i
          invariant forall k :: 0 <= k < i ==> points[k] == EllipsePoint(start, end, trig(k))
        {
          var u := trig(i);
          points := points + [Point(cx + rx * u.x, cy + ry * u.y)];
          i := i + 1;
        }
        return;
      }
      return [start, end];
    }

    /** saveState: snapshot the live canvas. The caller has just changed
        `shapes`, so only the history itself need be well formed. */
    method SaveState()
      requires History.Valid(Log())
      modifies this`history, this`historyIndex
      ensures Log() == History.Save(old(Log()), shapes)
      ensures History.Valid(Log()) && shapes == History.Current(Log())
    {
      history := history[..historyIndex + 1];
      history := history + [shapes];
      historyIndex := historyIndex + 1;
      if |history| > History.Cap {
        history := history[1..];
        historyIndex := historyIndex - 1;
      }
    }

    /** undo: step back one snapshot, unless at the oldest one. */
    method Undo()
      requires Valid()
      modifies this`historyIndex, this`shapes
      ensures Valid()
      ensures Log() == History.Undo(old(Log()))
      ensures !History.CanUndo(old(Log())) ==> shapes == old(shapes)
    {
      if historyIndex > 0 {
        historyIndex := historyIndex - 1;
        shapes := history[historyIndex];
      }
    }

    /** redo: step forward one snapshot, unless at the newest one. */
    method Redo()
      requires Valid()
      modifies this`historyIndex, this`shapes
      ensures Valid()
      ensures Log() == History.Redo(old(Log()))
      ensures !History.CanRedo(old(Log())) ==> shapes == old(shapes)
    {
      if historyIndex < |history| - 1 {
        historyIndex := historyIndex + 1;
        shapes := history[historyIndex];
      }
    }

    /** clear: empty the canvas as an undoable edit. */
    method Clear()
      requires Valid()
      modifies this`shapes, this`history, this`historyIndex
      ensures Valid() && shapes == []
      ensures Log() == History.Save(old(Log()), [])
    {
      shapes := [];
      SaveState();
    }

    /** setColor: takes effect for shapes begun later. */
    method SetColor(arg: Option<string>)
      requires Valid()
      modifies this`color
      ensures Valid()
      ensures arg.Some? ==> color == arg.value
      ensures arg.None? ==> color == old(color)
    {
      if arg.Some? {
        color := arg.value;
      }
    }

    /** setWidth: takes effect for shapes begun later; the value is not checked. */
    method SetWidth(arg: Option<real>)
      requires Valid()
      modifies this`lineWidth
      ensures Valid()
      ensures arg.Some? ==> lineWidth == arg.value
      ensures arg.None? ==> lineWidth == old(lineWidth)
    {
      if arg.Some? {
        lineWidth := arg.value;
      }
    }

    /** setMode: any string is accepted; unknown modes draw as lines. */
    method SetMode(arg: Option<string>)
      requires Valid()
      modifies this`mode
      ensures Valid()
      ensures arg.Some? ==> mode == arg.value
      ensures arg.None? ==> mode == old(mode)
    {
      if arg.Some? {
        mode := arg.value;
      }
    }

    /** handleMouseDown: begin a gesture at `pos` with the current style,
        abandoning any gesture still in progress. */
    method HandleMouseDown(pos: Point)
      requires Valid()
      modifies this`isDrawing, this`startPoint, this`current
      ensures Valid()
      ensures isDrawing && startPoint == pos
      ensures current == Shape([pos], color, lineWidth)
    {
      isDrawing := true;
      startPoint := pos;
      current := Shape([pos], color, lineWidth);
    }

    /** handleTouchStart: the same transition as handleMouseDown. */
    method HandleTouchStart(pos: Point)
      requires Valid()
      modifies this`isDrawing, this`startPoint, this`current
      ensures Valid()
      ensures isDrawing && startPoint == pos
      ensures current == Shape([pos], color, lineWidth)
    {
      HandleMouseDown(pos);
    }

    /** handleMouseMove: freehand strokes grow by `pos`; parametric shapes are
        only previewed, so the shape in progress is left alone; ignored when
        no gesture is in progress. */
    method HandleMouseMove(pos: Point)
      requires Valid()
      modifies this`current
      ensures Valid()
      ensures old(isDrawing) && mode == "draw" ==> current == old(current).(points := old(current).points + [pos])
      ensures !old(isDrawing) || mode != "draw" ==> current == old(current)
    {
      if !isDrawing {
        return;
      }
      if mode == "draw" {
        current := current.(points := current.points + [pos]);
      }
    }

    /** handleTouchMove: the same transition as handleMouseMove. */
    method HandleTouchMove(pos: Point)
      requires Valid()
      modifies this`current
      ensures Valid()
      ensures old(isDrawing) && mode == "draw" ==> current == old(current).(points := old(current).points + [pos])
      ensures !old(isDrawing) || mode != "draw" ==> current == old(current)
    {
      HandleMouseMove(pos);
    }

    /** The gesture end shared by both end handlers: leave the drawing state,
        commit the shape in progress and snapshot the canvas. */
    method Commit()
      requires Valid()
      modifies this`isDrawing, this`shapes, this`history, this`historyIndex
      ensures Valid() && !isDrawing
      ensures shapes == old(shapes) + [current]
      ensures Log() == History.Save(old(Log()), shapes)
    {
      isDrawing := false;
      shapes := shapes + [current];
      SaveState();
    }

    /** handleMouseUp: a parametric shape takes the points from the anchor to
        `pos`, a freehand stroke keeps its points (`pos` is not added); the
        shape is committed and snapshotted. Ignored with no gesture in progress. */
    method HandleMouseUp(pos: Point)
      requires Valid()
      modifies this`isDrawing, this`current, this`shapes, this`history, this`historyIndex
      ensures Valid()
      ensures !old(isDrawing) ==> unchanged(this)
      ensures old(isDrawing) ==> && !isDrawing
                                 && current == (if mode == "draw" then old(current)
                                                else old(current).(points := ShapePoints(mode, startPoint, pos, trig)))
                                 && shapes == old(shapes) + [current]
                                 && Log() == History.Save(old(Log()), shapes)
    {
      if !isDrawing {
        return;
      }
      if mode != "draw" {
        var points := CreateShapePoints(startPoint, pos);
        current := current.(points := points);
      }
      Commit();
    }

    /** handleTouchEnd: like handleMouseUp, but the end point of a parametric
        shape is the last point already in the shape in progress. */
    method HandleTouchEnd()
      requires Valid()
      modifies this`isDrawing, this`current, this`shapes, this`history, this`historyIndex
      ensures Valid()
      ensures !old(isDrawing) ==> unchanged(this)
      ensures old(isDrawing) ==> && !isDrawing
                                 && current == (if mode == "draw" then old(current)
                                                else old(current).(points := ShapePoints(mode, startPoint,
                                                       old(current).points[|old(current).points| - 1], trig)))
                                 && shapes == old(shapes) + [current]
                                 && Log() == History.Save(old(Log()), shapes)
    {
      if !isDrawing {
        return;
      }
      if mode != "draw" && |current.points| > 0 {
        var lastPos := current.points[|current.points| - 1];
        var points := CreateShapePoints(startPoint, lastPos);
        current := current.(points := points);
      }
      Commit();
    }
  }

  /** A freehand mouse gesture: press at `p`, move through `moves`, release at
      `q`. The committed stroke is the press point and the moves, in order,
      styled as the session was at the press; the release point is not part of it. */
  method FreehandGesture(app: DrawingApp, p: Point, moves: seq<Point>, q: Point)
    requires app.Valid() && app.mode == "draw"
    modifies app
    ensures app.Valid() && !app.isDrawing
    ensures app.shapes == old(app.shapes) + [Shape([p] + moves, old(app.color), old(app.lineWidth))]
  {
    app.HandleMouseDown(p);
    var i := 0;
    while i < |moves|
      invariant 0 <= i <= |moves|
      invariant app.Valid() && app.isDrawing && app.mode == "draw"
      invariant app.shapes == old(app.shapes)
      invariant app.current == Shape([p] + moves[..i], old(app.color), old(app.lineWidth))
    {
      app.HandleMouseMove(moves[i]);
      assert moves[..i + 1] == moves[..i] + [moves[i]];
      i := i + 1;
    }
    assert moves[..i] == moves;
    app.HandleMouseUp(q);
  }

  /** Undo right after committing a shape restores the canvas as it was before
      the gesture, provided some snapshot existed before it. */
  method CommitThenUndo(app: DrawingApp, p: Point, q: Point)
    requires app.Valid() && app.historyIndex >= 0
    modifies app
    ensures app.Valid()
    ensures app.shapes == old(app.shapes)
  {
    ghost var before := app.Log();
    app.HandleMouseDown(p);
    app.HandleMouseUp(q);
    History.UndoAfterSave(before, app.shapes);
    app.Undo();
  }

  /** Clearing and then undoing restores the shapes that were on the canvas.
      Before the first snapshot the canvas is empty, the clear is its first
      snapshot and the undo does nothing, so the canvas stays empty. */
  method ClearThenUndo(app: DrawingApp)
    requires app.Valid()
    modifies app
    ensures app.Valid()
    ensures app.shapes == old(app.shapes)
  {
    ghost var before := app.Log();
    app.Clear();
    if before.index >= 0 {
      History.UndoAfterSave(before, []);
    }
    app.Undo();
  }

  /** A mouse gesture in a parametric mode commits the shape from the press
      point to the release point. */
  method MouseParametricGesture(trig: nat -> Point, mode: string, p: Point, q: Point) returns (committed: Shape)
    requires mode != "draw"
    ensures committed == Shape(ShapePoints(mode, p, q, trig), "#000000", 2.0)
  {
    var app := new DrawingApp(trig);
    app.SetMode(Some(mode));
    app.HandleMouseDown(p);
    app.HandleMouseMove(q);
    app.HandleMouseUp(q);
    committed := app.shapes[|app.shapes| - 1];
  }

  /** A touch gesture in a parametric mode: moves add no points, so at the end
      the last point of the shape in progress is still the touch-start point and
      the committed shape runs from `p` to `p`, wherever the finger moved. */
  method TouchParametricGesture(trig: nat -> Point, mode: string, p: Point, q: Point) returns (committed: Shape)
    requires mode != "draw"
    ensures committed == Shape(ShapePoints(mode, p, p, trig), "#000000", 2.0)
  {
    var app := new DrawingApp(trig);
    app.SetMode(Some(mode));
    app.HandleTouchStart(p);
    app.HandleTouchMove(q);
    app.HandleTouchEnd();
    committed := app.shapes[|app.shapes| - 1];
  }
}
