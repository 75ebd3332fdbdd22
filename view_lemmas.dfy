/**
 * Properties of whole sequences of events delivered to the drawing view.
 */
module ViewLemmas {
  import opened Wrappers
  import opened Geometry
  import opened Shapes
  import opened ViewSpec

  /** Everything the view reacts to: the three pointer events and the five settings slots. */
  datatype Event =
    | Pressed(at: Point, left: bool)
    | Moved(to: Point)
    | Released(left: bool)
    | PenColorSet(color: Color)
    | PenWidthSet(width: int)
    | EraserModeSet(on: bool)
    | ToolSet(tool: Tool)
    | TextPropertiesSet(text: string, fontSize: int)

  datatype StepResult = StepResult(next: ViewState, drawn: Option<Shape>)
  datatype RunResult = RunResult(state: ViewState, drawn: seq<Shape>)

  function Emitted(o: Option<Shape>): seq<Shape>
  {
    if o.Some? then [o.value] else []
  }

  /** One event handled by the matching handler. */
  function Step(s: ViewState, e: Event): StepResult
  {
    match e
    case Pressed(p, left) => var r := Press(s, p, left); StepResult(r.next, r.drawn)
    case Moved(p) => StepResult(Move(s, p), None)
    case Released(left) => var r := Release(s, left); StepResult(r.next, r.drawn)
    case PenColorSet(c) => StepResult(SetPenColor(s, c), None)
    case PenWidthSet(w) => StepResult(SetPenWidth(s, w), None)
    case EraserModeSet(on) => StepResult(SetEraserMode(s, on), None)
    case ToolSet(t) => StepResult(SetCurrentTool(s, t), None)
    case TextPropertiesSet(text, size) => StepResult(SetTextProperties(s, text, size), None)
  }

  /** Events handled one after the other by `step`; `drawn` lists every itemDrawn emission in order. */
  function RunWith(step: (ViewState, Event) -> StepResult, s: ViewState, events: seq<Event>): RunResult
    decreases |events|
  {
    if events == [] then RunResult(s, [])
    else
      var first := step(s, events[0]);
      var rest := RunWith(step, first.next, events[1..]);
      RunResult(rest.state, Emitted(first.drawn) + rest.drawn)
  }

  /** Events handled one after the other by the view's handlers. */
  function Run(s: ViewState, events: seq<Event>): RunResult
  {
    RunWith(Step, s, events)
  }

  /** Handling `a` and then `b` is handling `a + b`, whatever the handlers are. */
  lemma {:induction false} RunWithAppend(step: (ViewState, Event) -> StepResult, s: ViewState, a: seq<Event>, b: seq<Event>)
    ensures RunWith(step, s, a + b).state == RunWith(step, RunWith(step, s, a).state, b).state
    ensures RunWith(step, s, a + b).drawn == RunWith(step, s, a).drawn + RunWith(step, RunWith(step, s, a).state, b).drawn
    decreases |a|
  {
    if a == [] {
      assert a + b == b;
    } else {
      var first := step(s, a[0]);
      assert (a + b)[0] == a[0] && (a + b)[1..] == a[1..] + b;
      RunWithAppend(step, first.next, a[1..], b);
      var tailA := RunWith(step, first.next, a[1..]);
      var tailB := RunWith(step, tailA.state, b);
      var e := Emitted(first.drawn);
      assert e + (tailA.drawn + tailB.drawn) == (e + tailA.drawn) + tailB.drawn;
    }
  }

  /** Handling `a` and then `b` is handling `a + b`. */
  lemma RunAppend(s: ViewState, a: seq<Event>, b: seq<Event>)
    ensures Run(s, a + b).state == Run(Run(s, a).state, b).state
    ensures Run(s, a + b).drawn == Run(s, a).drawn + Run(Run(s, a).state, b).drawn
  {
    RunWithAppend(Step, s, a, b);
  }

  /** A single event is one step. */
  lemma RunOne(s: ViewState, e: Event)
    ensures Run(s, [e]) == RunResult(Step(s, e).next, Emitted(Step(s, e).drawn))
  {
    assert [e][1..] == [];
    assert RunWith(Step, Step(s, e).next, []) == RunResult(Step(s, e).next, []);
  }

  lemma StepPreservesValid(s: ViewState, e: Event)
    requires Valid(s)
    ensures Valid(Step(s, e).next)
  {
    match e
    case Pressed(p, left) => PressPreservesValid(s, p, left);
    case Moved(p) => MovePreservesValid(s, p);
    case Released(left) => ReleasePreservesValid(s, left);
    case _ =>
  }

  /**
   * Between any two events the view holds at most one preview, at most two buffered
   * triangle vertices (only under the Triangle tool) and a pen preview equal to its path.
   */
  lemma {:induction false} RunPreservesValid(s: ViewState, events: seq<Event>)
    requires Valid(s)
    ensures Valid(Run(s, events).state)
    decreases |events|
  {
    if events != [] {
      StepPreservesValid(s, events[0]);
      RunPreservesValid(Step(s, events[0]).next, events[1..]);
    }
  }

  // ---------------------------------------------------------------- Pen

  /** A run of cursor moves. */
  function MoveAll(s: ViewState, points: seq<Point>): ViewState
    decreases |points|
  {
    if points == [] then s else MoveAll(Move(s, points[0]), points[1..])
  }

  /** The pending path after lineTo to each point in turn. */
  function Stroke(path: seq<Point>, points: seq<Point>): seq<Point>
    decreases |points|
  {
    if points == [] then path else Stroke(LineTo(path, points[0]), points[1..])
  }

  /** No point is followed by an equal one. */
  predicate NoRepeats(ps: seq<Point>)
  {
    forall i :: 0 < i < |ps| ==> ps[i - 1] != ps[i]
  }

  /** When no move repeats the point before it, the stroke is the path followed by every move. */
  lemma {:induction false} StrokeOfDistinctMoves(path: seq<Point>, points: seq<Point>)
    requires path != [] && NoRepeats([path[|path| - 1]] + points)
    ensures Stroke(path, points) == path + points
    decreases |points|
  {
    if points != [] {
      var all := [path[|path| - 1]] + points;
      assert all[0] == path[|path| - 1] && all[1] == points[0];
      var next := path + [points[0]];
      assert LineTo(path, points[0]) == next;
      assert [next[|next| - 1]] + points[1..] == points;
      assert NoRepeats(points) by {
        forall i | 0 < i < |points| ensures points[i - 1] != points[i] {
          assert all[i] == points[i - 1] && all[i + 1] == points[i];
        }
      }
      StrokeOfDistinctMoves(next, points[1..]);
      assert next + points[1..] == path + points;
    }
  }

  /** The stroke keeps the path as its prefix, grows by at most one point per move and ends at the last move. */
  lemma {:induction false} StrokeExtendsPath(path: seq<Point>, points: seq<Point>)
    requires path != []
    ensures var r := Stroke(path, points);
      && path <= r && |r| <= |path| + |points|
      && (points != [] ==> r[|r| - 1] == points[|points| - 1])
    decreases |points|
  {
    if points != [] {
      var next := LineTo(path, points[0]);
      StrokeExtendsPath(next, points[1..]);
      assert path <= next;
    }
  }

  /** The stroke passes through every move. */
  lemma {:induction false} StrokeVisitsEveryMove(path: seq<Point>, points: seq<Point>)
    requires path != []
    ensures forall q :: q in points ==> q in Stroke(path, points)
    decreases |points|
  {
    if points != [] {
      var next := LineTo(path, points[0]);
      var rest := points[1..];
      StrokeVisitsEveryMove(next, rest);
      StrokeExtendsPath(next, rest);
      var r := Stroke(next, rest);
      forall q | q in points ensures q in r {
        if q == points[0] {
          assert next[|next| - 1] == q;
        } else {
          assert q in rest;
        }
      }
    }
  }

  /** Beyond the path, every point of the stroke is one of the moves. */
  lemma {:induction false} StrokeAddsOnlyMoves(path: seq<Point>, points: seq<Point>)
    requires path != []
    ensures var r := Stroke(path, points);
      forall i :: |path| <= i < |r| ==> r[i] in points
    decreases |points|
  {
    if points != [] {
      var next := LineTo(path, points[0]);
      var rest := points[1..];
      StrokeAddsOnlyMoves(next, rest);
      StrokeExtendsPath(next, rest);
      var r := Stroke(next, rest);
      forall i | |path| <= i < |r| ensures r[i] in points {
        if i < |next| {
          assert next[i] == points[0];
        } else {
          assert r[i] in rest;
        }
      }
    }
  }

  /** A stroke from a path without repeated points has none either. */
  lemma {:induction false} StrokeHasNoRepeats(path: seq<Point>, points: seq<Point>)
    requires path != [] && NoRepeats(path)
    ensures NoRepeats(Stroke(path, points))
    decreases |points|
  {
    if points != [] {
      var next := LineTo(path, points[0]);
      assert NoRepeats(next);
      StrokeHasNoRepeats(next, points[1..]);
    }
  }

  /** While a pen stroke is in progress each move extends the path, and its preview, by lineTo. */
  lemma {:induction false} PenMovesAppend(s: ViewState, points: seq<Point>, c: Color, w: int)
    requires s.currentTool == Pen && s.isDrawing && s.currentPath != []
    requires s.preview == Some(PathShape(s.currentPath, c, w))
    ensures var r := MoveAll(s, points);
      && r.currentPath == Stroke(s.currentPath, points)
      && r.preview == Some(PathShape(Stroke(s.currentPath, points), c, w))
      && r.isDrawing && SameSettings(s, r) && r.trianglePoints == s.trianglePoints
      && r.lastPoint == if points == [] then s.lastPoint else points[|points| - 1]
    decreases |points|
  {
    if points != [] {
      var next := Move(s, points[0]);
      assert next.currentPath == LineTo(s.currentPath, points[0]);
      PenMovesAppend(next, points[1..], c, w);
      assert points[1..] != [] ==> points[1..][|points[1..]| - 1] == points[|points| - 1];
    }
  }

  /**
   * Pen: a press, any number of moves and a release commit the stroke from the press point
   * through the moves, drawn in the colour and width current at the press; when no move
   * repeats the point before it, that is the press point followed by every move in order.
   * The release adds no point, ends the drag and empties the pending path.
   */
  lemma PenStrokeCommitsPath(s: ViewState, start: Point, moves: seq<Point>)
    requires s.currentTool == Pen
    ensures var done := Release(MoveAll(Press(s, start, true).next, moves), true);
      && done.drawn == Some(PathShape(Stroke([start], moves), DrawColor(s), s.penWidth))
      && (NoRepeats([start] + moves) ==> done.drawn == Some(PathShape([start] + moves, DrawColor(s), s.penWidth)))
      && done.next.currentPath == [] && done.next.preview == None && !done.next.isDrawing
  {
    var pressed := Press(s, start, true).next;
    PenMovesAppend(pressed, moves, DrawColor(s), s.penWidth);
    if NoRepeats([start] + moves) {
      StrokeOfDistinctMoves([start], moves);
    }
  }

  // ---------------------------------------------------------------- Line, Rectangle, Circle

  /** The shape the Line, Rectangle or Circle tool shows for an anchor and a cursor position. */
  function DragShape(t: Tool, anchor: Point, cursor: Point, c: Color, w: int): Shape
    requires t == Line || t == Rectangle || t == Circle
  {
    if t == Line then LineShape(anchor, cursor, c, w)
    else if t == Rectangle then RectShape(BoundingBox(anchor, cursor), c, w)
    else EllipseShape(BoundingBox(anchor, cursor), c, w)
  }

  /**
   * During a Line, Rectangle or Circle drag the anchor stays put and the preview is the
   * shape from the anchor to the latest cursor position (the anchor itself before any move).
   */
  lemma {:induction false} DragMovesKeepAnchor(s: ViewState, points: seq<Point>, c: Color, w: int)
    requires s.currentTool == Line || s.currentTool == Rectangle || s.currentTool == Circle
    requires s.isDrawing && s.preview.Some?
    requires exists q :: s.preview == Some(DragShape(s.currentTool, s.lastPoint, q, c, w))
    ensures var r := MoveAll(s, points);
      && r.lastPoint == s.lastPoint && r.isDrawing && r.currentPath == s.currentPath
      && (points == [] ==> r.preview == s.preview)
      && (points != [] ==> r.preview == Some(DragShape(s.currentTool, s.lastPoint, points[|points| - 1], c, w)))
    decreases |points|
  {
    if points != [] {
      var next := Move(s, points[0]);
      assert next.preview == Some(DragShape(s.currentTool, s.lastPoint, points[0], c, w));
      DragMovesKeepAnchor(next, points[1..], c, w);
    }
  }

  /**
   * Line, Rectangle, Circle: a press, any number of moves and a release commit the shape
   * from the press point to the last cursor position; the rectangle and the ellipse's box
   * are normalised, so the drag direction does not matter. With no move the shape is
   * degenerate at the press point; the release point is never used.
   */
  lemma DragCommitsLastPreview(s: ViewState, start: Point, moves: seq<Point>)
    requires s.currentTool == Line || s.currentTool == Rectangle || s.currentTool == Circle
    ensures var done := Release(MoveAll(Press(s, start, true).next, moves), true);
      var last := if moves == [] then start else moves[|moves| - 1];
      && done.drawn == Some(DragShape(s.currentTool, start, last, DrawColor(s), s.penWidth))
      && done.next.preview == None && !done.next.isDrawing
  {
    var pressed := Press(s, start, true).next;
    BoundingBoxOfOnePoint(start);
    assert pressed.preview == Some(DragShape(s.currentTool, start, start, DrawColor(s), s.penWidth));
    DragMovesKeepAnchor(pressed, moves, DrawColor(s), s.penWidth);
  }

  // ---------------------------------------------------------------- Style changes mid-drag

  /** An event that changes only a style setting: colour, width, eraser mode or text. */
  predicate StyleEvent(e: Event)
  {
    e.PenColorSet? || e.PenWidthSet? || e.EraserModeSet? || e.TextPropertiesSet?
  }

  /**
   * Style changes never touch a shape under construction: the drag, the anchor, the
   * preview, the pen path, the triangle buffer and the tool stay as they are, and nothing
   * is committed.
   */
  lemma {:induction false} StyleEventsKeepPending(s: ViewState, events: seq<Event>)
    requires forall i :: 0 <= i < |events| ==> StyleEvent(events[i])
    ensures var r := Run(s, events);
      r.drawn == [] && SamePending(s, r.state) && r.state.currentTool == s.currentTool
    decreases |events|
  {
    if events != [] {
      var first := Step(s, events[0]);
      assert first.drawn == None && SamePending(s, first.next) && first.next.currentTool == s.currentTool;
      StyleEventsKeepPending(first.next, events[1..]);
    }
  }

  /**
   * Pen: colour, width, eraser or text changes between the moves and the release do not
   * restyle the stroke; it is committed in the pen current at the press.
   */
  lemma PenStyleFixedAtPress(s: ViewState, start: Point, moves: seq<Point>, style: seq<Event>)
    requires s.currentTool == Pen
    requires forall i :: 0 <= i < |style| ==> StyleEvent(style[i])
    ensures var styled := Run(MoveAll(Press(s, start, true).next, moves), style).state;
      Release(styled, true).drawn == Some(PathShape(Stroke([start], moves), DrawColor(s), s.penWidth))
  {
    var moved := MoveAll(Press(s, start, true).next, moves);
    PenStrokeCommitsPath(s, start, moves);
    StyleEventsKeepPending(moved, style);
  }

  /**
   * Line, Rectangle, Circle: style changes between the moves and the release do not
   * restyle the shape; it is committed in the pen current at the press.
   */
  lemma DragStyleFixedAtPress(s: ViewState, start: Point, moves: seq<Point>, style: seq<Event>)
    requires s.currentTool == Line || s.currentTool == Rectangle || s.currentTool == Circle
    requires forall i :: 0 <= i < |style| ==> StyleEvent(style[i])
    ensures var styled := Run(MoveAll(Press(s, start, true).next, moves), style).state;
      var last := if moves == [] then start else moves[|moves| - 1];
      Release(styled, true).drawn == Some(DragShape(s.currentTool, start, last, DrawColor(s), s.penWidth))
  {
    var moved := MoveAll(Press(s, start, true).next, moves);
    DragCommitsLastPreview(s, start, moves);
    StyleEventsKeepPending(moved, style);
  }

  // ---------------------------------------------------------------- Triangle

  /** An event that neither presses the left button nor changes the tool. */
  predicate Quiet(e: Event)
  {
    !(e.Pressed? && e.left) && !e.ToolSet?
  }

  /**
   * Under the Triangle tool, moves, releases and settings changes never touch the vertex
   * buffer and never commit anything.
   */
  lemma {:induction false} QuietRunKeepsTriangle(s: ViewState, events: seq<Event>)
    requires s.currentTool == Triangle
    requires forall i :: 0 <= i < |events| ==> Quiet(events[i])
    ensures Run(s, events).state.trianglePoints == s.trianglePoints
    ensures Run(s, events).state.currentTool == Triangle
    ensures Run(s, events).drawn == []
    decreases |events|
  {
    if events != [] {
      var first := Step(s, events[0]);
      assert first.drawn == None && first.next.trianglePoints == s.trianglePoints;
      QuietRunKeepsTriangle(first.next, events[1..]);
    }
  }

  /** Under the Triangle tool, a press that buffers a vertex followed by quiet events commits nothing. */
  lemma {:induction false} VertexThenQuiet(s: ViewState, v: Point, q: seq<Event>)
    requires s.currentTool == Triangle && |s.trianglePoints| < 2
    requires forall i :: 0 <= i < |q| ==> Quiet(q[i])
    ensures Run(s, [Pressed(v, true)] + q).drawn == []
    ensures Run(s, [Pressed(v, true)] + q).state.trianglePoints == s.trianglePoints + [v]
    ensures Run(s, [Pressed(v, true)] + q).state.currentTool == Triangle
  {
    var e := Pressed(v, true);
    assert ([e] + q)[0] == e && ([e] + q)[1..] == q;
    QuietRunKeepsTriangle(Step(s, e).next, q);
  }

  /** Under the Triangle tool, a press with two buffered vertices commits the triangle they make with it. */
  lemma ThirdVertexCommits(s: ViewState, v0: Point, v1: Point, v: Point)
    requires s.currentTool == Triangle && s.trianglePoints == [v0, v1]
    ensures Run(s, [Pressed(v, true)]).drawn == [PolygonShape([v0, v1, v], DrawColor(s), s.penWidth)]
    ensures Run(s, [Pressed(v, true)]).state.trianglePoints == []
    ensures Run(s, [Pressed(v, true)]).state.preview == None
  {
    RunOne(s, Pressed(v, true));
    assert s.trianglePoints + [v] == [v0, v1, v];
  }

  /** Under the Triangle tool, two vertex presses with quiet events after each commit nothing and buffer both. */
  lemma TwoVerticesBuffered(s: ViewState, v0: Point, v1: Point, q1: seq<Event>, q2: seq<Event>)
    requires s.currentTool == Triangle && s.trianglePoints == []
    requires forall i :: 0 <= i < |q1| ==> Quiet(q1[i])
    requires forall i :: 0 <= i < |q2| ==> Quiet(q2[i])
    ensures var two := Run(s, [Pressed(v0, true)] + q1 + [Pressed(v1, true)] + q2);
      two.drawn == [] && two.state.trianglePoints == [v0, v1] && two.state.currentTool == Triangle
  {
    var first := [Pressed(v0, true)] + q1;
    var second := [Pressed(v1, true)] + q2;
    VertexThenQuiet(s, v0, q1);
    VertexThenQuiet(Run(s, first).state, v1, q2);
    RunAppend(s, first, second);
    assert first + second == [Pressed(v0, true)] + q1 + [Pressed(v1, true)] + q2;
  }

  /**
   * Triangle: with anything but left presses and tool changes in between, the first two
   * presses commit nothing and the third commits exactly the triangle of the three press
   * points, in the colour and width current at the third press, leaving the buffer empty.
   */
  lemma TriangleCommitsOnThirdPress(s: ViewState, v0: Point, v1: Point, v2: Point, q1: seq<Event>, q2: seq<Event>)
    requires s.currentTool == Triangle && s.trianglePoints == []
    requires forall i :: 0 <= i < |q1| ==> Quiet(q1[i])
    requires forall i :: 0 <= i < |q2| ==> Quiet(q2[i])
    ensures var twoClicks := Run(s, [Pressed(v0, true)] + q1 + [Pressed(v1, true)] + q2);
      && twoClicks.drawn == []
      && twoClicks.state.trianglePoints == [v0, v1]
      && var third := Run(twoClicks.state, [Pressed(v2, true)]);
      && third.drawn == [PolygonShape([v0, v1, v2], DrawColor(twoClicks.state), twoClicks.state.penWidth)]
      && third.state.trianglePoints == [] && third.state.preview == None
  {
    TwoVerticesBuffered(s, v0, v1, q1, q2);
    var two := Run(s, [Pressed(v0, true)] + q1 + [Pressed(v1, true)] + q2).state;
    ThirdVertexCommits(two, v0, v1, v2);
  }

  /** Under Triangle with nothing committed so far, a tool switch drops the buffer and the preview. */
  lemma SwitchEndsTriangle(s: ViewState, events: seq<Event>, t: Tool)
    requires Run(s, events).drawn == [] && Run(s, events).state.currentTool == Triangle
    ensures var r := Run(s, events + [ToolSet(t)]);
      && r.drawn == [] && r.state.trianglePoints == [] && r.state.preview == None && r.state.currentTool == t
  {
    RunOne(Run(s, events).state, ToolSet(t));
    RunAppend(s, events, [ToolSet(t)]);
  }

  /** Triangle: switching to any tool after the first press drops the vertex and commits nothing. */
  lemma TriangleAbandonedAfterOneVertex(s: ViewState, v0: Point, q: seq<Event>, t: Tool)
    requires s.currentTool == Triangle && s.trianglePoints == []
    requires forall i :: 0 <= i < |q| ==> Quiet(q[i])
    ensures var r := Run(s, [Pressed(v0, true)] + q + [ToolSet(t)]);
      && r.drawn == [] && r.state.trianglePoints == [] && r.state.preview == None && r.state.currentTool == t
  {
    VertexThenQuiet(s, v0, q);
    SwitchEndsTriangle(s, [Pressed(v0, true)] + q, t);
  }

  /**
   * Triangle: switching to any tool after the second press drops both vertices and the
   * triangle preview, and nothing is committed.
   */
  lemma TriangleAbandonedAfterTwoVertices(s: ViewState, v0: Point, v1: Point, q1: seq<Event>, q2: seq<Event>, t: Tool)
    requires s.currentTool == Triangle && s.trianglePoints == []
    requires forall i :: 0 <= i < |q1| ==> Quiet(q1[i])
    requires forall i :: 0 <= i < |q2| ==> Quiet(q2[i])
    ensures var r := Run(s, [Pressed(v0, true)] + q1 + [Pressed(v1, true)] + q2 + [ToolSet(t)]);
      && r.drawn == [] && r.state.trianglePoints == [] && r.state.preview == None && r.state.currentTool == t
  {
    TwoVerticesBuffered(s, v0, v1, q1, q2);
    SwitchEndsTriangle(s, [Pressed(v0, true)] + q1 + [Pressed(v1, true)] + q2, t);
  }

  /** Switching away from any other tool cancels nothing: the preview and the drag survive. */
  lemma OtherToolSwitchCancelsNothing(s: ViewState, t: Tool)
    requires s.currentTool != Triangle
    ensures SamePending(s, SetCurrentTool(s, t))
  {
  }

  /**
   * Under the Triangle tool the preview follows the cursor only while the button is held
   * after the second press: once released, moves leave it as it is.
   */
  lemma TrianglePreviewFollowsHeldButton(s: ViewState, v1: Point, cursor: Point, later: Point)
    requires Valid(s) && s.currentTool == Triangle && |s.trianglePoints| == 1
    ensures var held := Move(Press(s, v1, true).next, cursor);
      && held.preview == Some(PolygonShape(s.trianglePoints + [v1, cursor], DrawColor(s), s.penWidth))
      && Move(Release(held, true).next, later) == Release(held, true).next
  {
    assert s.trianglePoints + [v1] + [cursor] == s.trianglePoints + [v1, cursor];
  }

  // ---------------------------------------------------------------- Text

  /**
   * Text: with text set, a press commits the text at the press point in the current font
   * size and draw colour and ends the drag; with no text, neither the press nor any
   * release commits anything.
   */
  lemma TextCommitsOnPressOnly(s: ViewState, p: Point, left: bool)
    requires s.currentTool == Text
    ensures s.currentText != [] ==>
      && Press(s, p, true).drawn == Some(TextShape(p, s.currentText, s.currentFontSize, DrawColor(s)))
      && !Press(s, p, true).next.isDrawing
    ensures s.currentText == [] ==> Press(s, p, true).drawn == None
    ensures Release(s, left).drawn == None
  {
  }

  // ---------------------------------------------------------------- Eraser

  /** An event that does not touch the eraser flag. */
  predicate KeepsEraser(e: Event)
  {
    !e.EraserModeSet?
  }

  /**
   * While the eraser is on, nothing but setEraserMode changes the colour: pen colours are
   * ignored and the saved colour is kept.
   */
  lemma {:induction false} EraserIgnoresColorChanges(s: ViewState, events: seq<Event>)
    requires s.isEraserMode
    requires forall i :: 0 <= i < |events| ==> KeepsEraser(events[i])
    ensures var r := Run(s, events).state;
      r.isEraserMode && r.currentColor == s.currentColor && r.lastColor == s.lastColor
    decreases |events|
  {
    if events != [] {
      var first := Step(s, events[0]);
      assert first.next.isEraserMode && first.next.currentColor == s.currentColor && first.next.lastColor == s.lastColor;
      EraserIgnoresColorChanges(first.next, events[1..]);
    }
  }

  /**
   * Eraser round trip: turning the eraser on makes presses draw white, and turning it off
   * again after any events that leave the flag alone restores the colour from before.
   */
  lemma EraserRoundTrip(s: ViewState, meanwhile: seq<Event>)
    requires !s.isEraserMode
    requires forall i :: 0 <= i < |meanwhile| ==> KeepsEraser(meanwhile[i])
    ensures var erasing := Run(SetEraserMode(s, true), meanwhile).state;
      && DrawColor(erasing) == White
      && SetEraserMode(erasing, false).currentColor == s.currentColor
      && DrawColor(SetEraserMode(erasing, false)) == s.currentColor
  {
    EraserIgnoresColorChanges(SetEraserMode(s, true), meanwhile);
  }
}
