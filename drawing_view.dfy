/**
 * DrawingView: the canvas widget that turns pointer events into shapes.
 *
 * The fields are those of the C++ class; each handler updates them in place and is
 * proved to do what the corresponding function of ViewSpec says.
 */
module View {
  import opened Wrappers
  import opened Geometry
  import opened Shapes
  import ViewSpec

  class DrawingView {
    var isDrawing: bool
    var lastPoint: Point
    var currentColor: Color
    var penWidth: int
    var isEraserMode: bool
    var lastColor: Color
    var currentTool: Tool
    /** tempItem: the preview item, if one is shown. */
    var preview: Option<Shape>
    var currentText: string
    var currentFontSize: int
    var currentPath: seq<Point>
    var trianglePoints: seq<Point>

    /** The fields as one value. */
    function State(): ViewSpec.ViewState
      reads this
    {
      ViewSpec.ViewState(isDrawing, lastPoint, currentColor, penWidth, isEraserMode, lastColor,
                         currentTool, preview, currentText, currentFontSize, currentPath, trianglePoints)
    }

    predicate Valid()
      reads this
    {
      ViewSpec.Valid(State())
    }

    constructor ()
      ensures State() == ViewSpec.Initial && Valid()
    {
      isDrawing := false;
      lastPoint := Origin;
      currentColor := Black;
      penWidth := 3;
      isEraserMode := false;
      lastColor := Black;
      currentTool := Pen;
      preview := None;
      currentText := "";
      currentFontSize := 24;
      currentPath := [];
      trianglePoints := [];
    }

    /** mousePressEvent; `left` says whether the left button was pressed. */
    method MousePress(p: Point, left: bool) returns (clicked: Option<Point>, drawn: Option<Shape>)
      requires Valid()
      modifies this
      ensures Valid()
      ensures State() == ViewSpec.Press(old(State()), p, left).next
      ensures clicked == ViewSpec.Press(old(State()), p, left).clicked
      ensures drawn == ViewSpec.Press(old(State()), p, left).drawn
    {
      ViewSpec.PressPreservesValid(State(), p, left);
      clicked, drawn := None, None;
      if !left {
        return;
      }
      var drawColor := if isEraserMode then White else currentColor;
      if currentTool == Triangle {
        if |trianglePoints| == 0 {
          trianglePoints := trianglePoints + [p];
        } else if |trianglePoints| == 1 {
          trianglePoints := trianglePoints + [p];
          isDrawing := true;
          preview := Some(PolygonShape([trianglePoints[0], trianglePoints[1], trianglePoints[0]], drawColor, penWidth));
        } else if |trianglePoints| == 2 {
          trianglePoints := trianglePoints + [p];
          isDrawing := false;
          drawn := Some(PolygonShape(trianglePoints, drawColor, penWidth));
          trianglePoints := [];
          preview := None;
        }
        return;
      }

      isDrawing := true;
      lastPoint := p;
      clicked := Some(p);

      if currentTool == Text && currentText != [] {
        drawn := Some(TextShape(p, currentText, currentFontSize, drawColor));
        isDrawing := false;
      } else if currentTool == Pen {
        currentPath := [p];
        preview := Some(PathShape(currentPath, drawColor, penWidth));
      } else if currentTool == Line {
        preview := Some(LineShape(p, p, drawColor, penWidth));
      } else if currentTool == Rectangle {
        preview := Some(RectShape(CornerRect(p, p), drawColor, penWidth));
      } else if currentTool == Circle {
        preview := Some(EllipseShape(CornerRect(p, p), drawColor, penWidth));
      }
    }

    /** mouseMoveEvent; `reported` is the position carried by mouseMoved. */
    method MouseMove(p: Point) returns (reported: Point)
      requires Valid()
      modifies this
      ensures Valid()
      ensures reported == p
      ensures State() == ViewSpec.Move(old(State()), p)
    {
      ViewSpec.MovePreservesValid(State(), p);
      reported := p;
      if !isDrawing || preview.None? {
        return;
      }
      var drawColor := if isEraserMode then White else currentColor;
      var item := preview.value;

      if currentTool == Triangle && |trianglePoints| == 2 {
        preview := Some(PolygonShape(trianglePoints + [p], drawColor, penWidth));
        return;
      }

      if currentTool == Pen {
        currentPath := ViewSpec.LineTo(currentPath, p);
        if item.PathShape? {
          preview := Some(item.(points := currentPath));
        }
        lastPoint := p;
      } else {
        var rect := BoundingBox(lastPoint, p);
        if currentTool == Line {
          if item.LineShape? {
            preview := Some(item.(p1 := lastPoint, p2 := p));
          }
        } else if currentTool == Rectangle {
          if item.RectShape? {
            preview := Some(RectShape(rect, item.color, item.width));
          }
        } else if currentTool == Circle {
          if item.EllipseShape? {
            preview := Some(EllipseShape(rect, item.color, item.width));
          }
        }
      }
    }

    /** mouseReleaseEvent; `left` says whether the left button was released. */
    method MouseRelease(left: bool) returns (drawn: Option<Shape>)
      requires Valid()
      modifies this
      ensures Valid()
      ensures State() == ViewSpec.Release(old(State()), left).next
      ensures drawn == ViewSpec.Release(old(State()), left).drawn
    {
      ViewSpec.ReleasePreservesValid(State(), left);
      drawn := None;
      if !left {
        return;
      }
      if currentTool == Triangle {
        if isDrawing {
          isDrawing := false;
        }
        return;
      }

      isDrawing := false;

      if currentTool == Pen && preview.Some? {
        drawn := preview;
        preview := None;
        currentPath := [];
      } else if preview.Some? && currentTool != Text {
        drawn := preview;
        preview := None;
      }
    }

    method SetPenColor(c: Color)
      requires Valid()
      modifies this
      ensures Valid()
      ensures State() == ViewSpec.SetPenColor(old(State()), c)
    {
      if !isEraserMode {
        currentColor := c;
        lastColor := c;
      }
    }

    method SetPenWidth(w: int)
      requires Valid()
      modifies this
      ensures Valid()
      ensures State() == ViewSpec.SetPenWidth(old(State()), w)
    {
      penWidth := w;
    }

    method SetEraserMode(on: bool)
      requires Valid()
      modifies this
      ensures Valid()
      ensures State() == ViewSpec.SetEraserMode(old(State()), on)
    {
      isEraserMode := on;
      if on {
        lastColor := currentColor;
        currentColor := White;
      } else {
        currentColor := lastColor;
      }
    }

    method SetCurrentTool(t: Tool)
      requires Valid()
      modifies this
      ensures Valid()
      ensures State() == ViewSpec.SetCurrentTool(old(State()), t)
    {
      if currentTool == Triangle {
        trianglePoints := [];
        preview := None;
      }
      currentTool := t;
    }

    method SetTextProperties(text: string, fontSize: int)
      requires Valid()
      modifies this
      ensures Valid()
      ensures State() == ViewSpec.SetTextProperties(old(State()), text, fontSize)
    {
      currentText := text;
      currentFontSize := fontSize;
    }
  }
}
