/**
 * The drawing view's pointer-event state machine, as functions on its state.
 *
 * Each function is one handler of DrawingView: it maps the view's fields before the
 * event to the fields after it, together with the signals the handler emits.
 * The class View.DrawingView implements the handlers by updating its fields in place
 * and is proved to follow these functions.
 */
module ViewSpec {
  import opened Wrappers
  import opened Geometry
  import opened Shapes

  /**
   * The fields of DrawingView. `preview` is tempItem (the one preview item, if any);
   * `currentPath` and `trianglePoints` are the pending pen path and triangle vertices.
   */
  datatype ViewState = ViewState(
    isDrawing: bool,
    lastPoint: Point,
    currentColor: Color,
    penWidth: int,
    isEraserMode: bool,
    lastColor: Color,
    currentTool: Tool,
    preview: Option<Shape>,
    currentText: string,
    currentFontSize: int,
    currentPath: seq<Point>,
    trianglePoints: seq<Point>)

  /** The state the constructor sets up. */
  const Initial := ViewState(false, Origin, Black, 3, false, Black, Pen, None, "", 24, [], [])

  /** The style settings agree: colour, width, eraser flag, saved colour, tool and text settings. */
  predicate SameSettings(a: ViewState, b: ViewState)
  {
    && a.currentColor == b.currentColor && a.penWidth == b.penWidth
    && a.isEraserMode == b.isEraserMode && a.lastColor == b.lastColor
    && a.currentTool == b.currentTool
    && a.currentText == b.currentText && a.currentFontSize == b.currentFontSize
  }

  /** The pending-shape state agrees: drag flag, anchor, preview, pen path and triangle vertices. */
  predicate SamePending(a: ViewState, b: ViewState)
  {
    && a.isDrawing == b.isDrawing && a.lastPoint == b.lastPoint && a.preview == b.preview
    && a.currentPath == b.currentPath && a.trianglePoints == b.trianglePoints
  }

  /** The colour a press draws with: white while erasing, the current colour otherwise. */
  function DrawColor(s: ViewState): (c: Color)
    ensures s.isEraserMode ==> c == White
    ensures !s.isEraserMode ==> c == s.currentColor
  {
    if s.isEraserMode then White else s.currentColor
  }

  /** A press with the Text tool commits at once exactly when there is text to place. */
  predicate TextCommitsOnPress(s: ViewState)
  {
    s.currentTool == Text && s.currentText != []
  }

  /**
   * QPainterPath::lineTo: the point is appended unless it equals the path's current end,
   * in which case the path stays as it is; an empty path implicitly starts at the origin.
   */
  function LineTo(path: seq<Point>, p: Point): (r: seq<Point>)
    ensures |r| > 0 && r[|r| - 1] == p
    ensures path != [] && path[|path| - 1] == p ==> r == path
    ensures path != [] && path[|path| - 1] != p ==> r == path + [p]
    ensures path == [] ==> r == (if p == Origin then [Origin] else [Origin, p])
  {
    var start := if path == [] then [Origin] else path;
    if start[|start| - 1] == p then start else start + [p]
  }

  /** Whether the preview is the triangle polygon whose first two vertices are the buffered ones. */
  predicate TrianglePreviewShown(s: ViewState)
  {
    && s.preview.Some? && s.preview.value.PolygonShape?
    && |s.preview.value.vertices| == 3 && s.preview.value.vertices[..2] == s.trianglePoints
  }

  /**
   * What holds between events: the triangle buffer holds at most two vertices and only
   * under the Triangle tool, two buffered vertices always come with their preview
   * polygon, and a pen-path preview shows exactly the pending path.
   */
  predicate Valid(s: ViewState)
  {
    && |s.trianglePoints| <= 2
    && (s.trianglePoints != [] ==> s.currentTool == Triangle)
    && (s.currentTool == Triangle && |s.trianglePoints| == 2 ==> TrianglePreviewShown(s))
    && (s.preview.Some? && s.preview.value.PathShape? ==>
          s.preview.value.points == s.currentPath && s.currentPath != [])
  }

  lemma InitialValid()
    ensures Valid(Initial)
  {
  }

  /** A handler's new state with what it emitted: `clicked` is mouseClicked, `drawn` is itemDrawn. */
  datatype PressResult = PressResult(next: ViewState, clicked: Option<Point>, drawn: Option<Shape>)
  datatype ReleaseResult = ReleaseResult(next: ViewState, drawn: Option<Shape>)

  /**
   * mousePressEvent under the Triangle tool: the first two presses buffer a vertex
   * (the second also shows the polygon {v0, v1, v0}); the third commits the triangle,
   * empties the buffer and drops the preview. No mouseClicked is emitted.
   */
  function TrianglePress(s: ViewState, p: Point): (r: PressResult)
    ensures r.clicked == None && SameSettings(s, r.next) && r.next.lastPoint == s.lastPoint
    ensures |s.trianglePoints| < 2 ==> r.drawn == None && r.next.trianglePoints == s.trianglePoints + [p]
    ensures |s.trianglePoints| == 0 ==> r.next.preview == s.preview && r.next.isDrawing == s.isDrawing
    ensures |s.trianglePoints| == 1 ==>
      r.next.isDrawing &&
      r.next.preview == Some(PolygonShape([s.trianglePoints[0], p, s.trianglePoints[0]], DrawColor(s), s.penWidth))
    ensures |s.trianglePoints| == 2 ==>
      && r.drawn == Some(PolygonShape(s.trianglePoints + [p], DrawColor(s), s.penWidth))
      && r.next.trianglePoints == [] && r.next.preview == None && !r.next.isDrawing
    ensures |s.trianglePoints| > 2 ==> r == PressResult(s, None, None)
    ensures r.next.currentPath == s.currentPath
  {
    var tp := s.trianglePoints;
    var c := DrawColor(s);
    if |tp| == 0 then
      PressResult(s.(trianglePoints := [p]), None, None)
    else if |tp| == 1 then
      var next := s.(trianglePoints := tp + [p], isDrawing := true,
                     preview := Some(PolygonShape([tp[0], p, tp[0]], c, s.penWidth)));
      PressResult(next, None, None)
    else if |tp| == 2 then
      var next := s.(trianglePoints := [], isDrawing := false, preview := None);
      PressResult(next, None, Some(PolygonShape(tp + [p], c, s.penWidth)))
    else
      PressResult(s, None, None)
  }

  /**
   * mousePressEvent. Only the left button acts. Every tool but Triangle anchors the
   * drag at the press point and reports it with mouseClicked; Text with non-empty
   * text commits at once and ends the drag; Pen starts a one-point path; Line,
   * Rectangle and Circle show a preview that is degenerate at the press point.
   * Style settings are never changed by a press.
   */
  function Press(s: ViewState, p: Point, left: bool): (r: PressResult)
    ensures !left ==> r == PressResult(s, None, None)
    ensures r.clicked == (if left && s.currentTool != Triangle then Some(p) else None)
    ensures r.drawn.Some? <==>
      left && (TextCommitsOnPress(s) || (s.currentTool == Triangle && |s.trianglePoints| == 2))
    ensures r.drawn.Some? ==> r.drawn.value.color == DrawColor(s)
    ensures SameSettings(s, r.next)
    ensures left && s.currentTool != Triangle ==>
      && r.next.lastPoint == p && r.next.trianglePoints == s.trianglePoints
      && r.next.isDrawing == !TextCommitsOnPress(s)
    ensures left && TextCommitsOnPress(s) ==>
      r.drawn == Some(TextShape(p, s.currentText, s.currentFontSize, DrawColor(s))) && r.next.preview == s.preview
    ensures left && s.currentTool == Pen ==>
      r.next.currentPath == [p] && r.next.preview == Some(PathShape([p], DrawColor(s), s.penWidth))
  {
    if !left then PressResult(s, None, None)
    else if s.currentTool == Triangle then TrianglePress(s, p)
    else
      var anchored := s.(isDrawing := true, lastPoint := p);
      var c := DrawColor(s);
      if TextCommitsOnPress(s) then
        var text := TextShape(p, s.currentText, s.currentFontSize, c);
        PressResult(anchored.(isDrawing := false), Some(p), Some(text))
      else if s.currentTool == Pen then
        PressResult(anchored.(currentPath := [p], preview := Some(PathShape([p], c, s.penWidth))), Some(p), None)
      else if s.currentTool == Line then
        PressResult(anchored.(preview := Some(LineShape(p, p, c, s.penWidth))), Some(p), None)
      else if s.currentTool == Rectangle then
        PressResult(anchored.(preview := Some(RectShape(CornerRect(p, p), c, s.penWidth))), Some(p), None)
      else if s.currentTool == Circle then
        PressResult(anchored.(preview := Some(EllipseShape(CornerRect(p, p), c, s.penWidth))), Some(p), None)
      else
        PressResult(anchored, Some(p), None)
  }

  /**
   * mouseMoveEvent (mouseMoved always reports the cursor). Without a drag in progress
   * or without a preview nothing changes. Otherwise the triangle preview follows the
   * cursor once two vertices are buffered; Pen appends the cursor to the path and moves
   * the anchor; Line, Rectangle and Circle redraw their preview from the fixed anchor to
   * the cursor. A preview of another kind than the tool expects is left as it is.
   */
  function Move(s: ViewState, p: Point): (r: ViewState)
    ensures SameSettings(s, r)
    ensures r.isDrawing == s.isDrawing && r.trianglePoints == s.trianglePoints
    ensures r.preview.Some? == s.preview.Some?
    ensures (!s.isDrawing || s.preview.None?) ==> r == s
    ensures s.currentTool != Pen ==> r.lastPoint == s.lastPoint && r.currentPath == s.currentPath
    ensures s.isDrawing && s.preview.Some? && s.currentTool == Triangle && |s.trianglePoints| == 2 ==>
      r.preview == Some(PolygonShape(s.trianglePoints + [p], DrawColor(s), s.penWidth))
  {
    if !s.isDrawing || s.preview.None? then s
    else
      var item := s.preview.value;
      if s.currentTool == Triangle && |s.trianglePoints| == 2 then
        s.(preview := Some(PolygonShape(s.trianglePoints + [p], DrawColor(s), s.penWidth)))
      else if s.currentTool == Pen then
        var path := LineTo(s.currentPath, p);
        var shown := if item.PathShape? then item.(points := path) else item;
        s.(currentPath := path, lastPoint := p, preview := Some(shown))
      else if s.currentTool == Line then
        var shown := if item.LineShape? then item.(p1 := s.lastPoint, p2 := p) else item;
        s.(preview := Some(shown))
      else if s.currentTool == Rectangle then
        var shown := if item.RectShape? then RectShape(BoundingBox(s.lastPoint, p), item.color, item.width) else item;
        s.(preview := Some(shown))
      else if s.currentTool == Circle then
        var shown := if item.EllipseShape? then EllipseShape(BoundingBox(s.lastPoint, p), item.color, item.width) else item;
        s.(preview := Some(shown))
      else
        s
  }

  /**
   * mouseReleaseEvent. Only the left button acts. Under Triangle it only ends the drag.
   * Otherwise the drag ends and the preview, if any, is committed as it stands (the
   * release point is not used) unless the tool is Text; Pen also empties its path.
   */
  function Release(s: ViewState, left: bool): (r: ReleaseResult)
    ensures !left ==> r == ReleaseResult(s, None)
    ensures left ==> !r.next.isDrawing
    ensures r.drawn.Some? <==> left && s.preview.Some? && s.currentTool != Triangle && s.currentTool != Text
    ensures r.drawn.Some? ==> r.drawn == s.preview && r.next.preview == None
    ensures r.drawn.None? ==> r.next.preview == s.preview
    ensures SameSettings(s, r.next)
    ensures r.next.trianglePoints == s.trianglePoints && r.next.lastPoint == s.lastPoint
    ensures r.next.currentPath == (if left && s.currentTool == Pen && s.preview.Some? then [] else s.currentPath)
  {
    if !left then ReleaseResult(s, None)
    else if s.currentTool == Triangle then ReleaseResult(s.(isDrawing := false), None)
    else
      var ended := s.(isDrawing := false);
      if s.currentTool == Pen && s.preview.Some? then
        ReleaseResult(ended.(preview := None, currentPath := []), s.preview)
      else if s.preview.Some? && s.currentTool != Text then
        ReleaseResult(ended.(preview := None), s.preview)
      else
        ReleaseResult(ended, None)
  }

  /** setPenColor: ignored while erasing; otherwise both the colour and the saved colour take the new value. */
  function SetPenColor(s: ViewState, c: Color): (r: ViewState)
    ensures SamePending(s, r)
    ensures s.isEraserMode ==> r == s
    ensures !s.isEraserMode ==> r.currentColor == c && r.lastColor == c && r == s.(currentColor := c, lastColor := c)
    ensures Valid(s) ==> Valid(r)
  {
    if s.isEraserMode then s else s.(currentColor := c, lastColor := c)
  }

  /** setPenWidth. */
  function SetPenWidth(s: ViewState, w: int): (r: ViewState)
    ensures SamePending(s, r) && r.penWidth == w && r.(penWidth := s.penWidth) == s
    ensures Valid(s) ==> Valid(r)
  {
    s.(penWidth := w)
  }

  /**
   * setEraserMode: turning it on saves the colour and draws white; turning it off
   * brings back the saved colour.
   */
  function SetEraserMode(s: ViewState, on: bool): (r: ViewState)
    ensures SamePending(s, r) && r.isEraserMode == on
    ensures on ==> r.currentColor == White && r.lastColor == s.currentColor
    ensures !on ==> r.currentColor == s.lastColor && r.lastColor == s.lastColor
    ensures r.penWidth == s.penWidth && r.currentTool == s.currentTool
    ensures Valid(s) ==> Valid(r)
    ensures r.currentText == s.currentText && r.currentFontSize == s.currentFontSize
  {
    if on then s.(isEraserMode := true, lastColor := s.currentColor, currentColor := White)
    else s.(isEraserMode := false, currentColor := s.lastColor)
  }

  /**
   * setCurrentTool: leaving Triangle (for any tool, Triangle included) empties the vertex
   * buffer and drops the preview; leaving any other tool cancels nothing.
   */
  function SetCurrentTool(s: ViewState, t: Tool): (r: ViewState)
    ensures r.currentTool == t
    ensures s.currentTool == Triangle ==> r == s.(currentTool := t, trianglePoints := [], preview := None)
    ensures s.currentTool != Triangle ==> r == s.(currentTool := t)
    ensures Valid(s) ==> Valid(r)
  {
    var cleared := if s.currentTool == Triangle then s.(trianglePoints := [], preview := None) else s;
    cleared.(currentTool := t)
  }

  /** setTextProperties. */
  function SetTextProperties(s: ViewState, text: string, fontSize: int): (r: ViewState)
    ensures SamePending(s, r) && r.currentText == text && r.currentFontSize == fontSize
    ensures r.(currentText := s.currentText, currentFontSize := s.currentFontSize) == s
    ensures Valid(s) ==> Valid(r)
  {
    s.(currentText := text, currentFontSize := fontSize)
  }

  /** Every handler keeps the between-events invariant. */
  lemma PressPreservesValid(s: ViewState, p: Point, left: bool)
    requires Valid(s)
    ensures Valid(Press(s, p, left).next)
  {
  }

  lemma MovePreservesValid(s: ViewState, p: Point)
    requires Valid(s)
    ensures Valid(Move(s, p))
  {
  }

  lemma ReleasePreservesValid(s: ViewState, left: bool)
    requires Valid(s)
    ensures Valid(Release(s, left).next)
  {
  }
}
