/** The drawing tools and the shapes they commit. */
module Shapes {
  import opened Geometry

  /** DrawingTool, in declaration order. */
  datatype Tool = Pen | Line | Rectangle | Circle | Triangle | Text

  /** The tools in enum order, which is also the order of the entries of the tool combo box. */
  const ToolOrder: seq<Tool> := [Pen, Line, Rectangle, Circle, Triangle, Text]

  /** static_cast<int>(tool). */
  function ToolIndex(t: Tool): (i: int)
    ensures 0 <= i < |ToolOrder| && ToolOrder[i] == t
  {
    match t
    case Pen => 0
    case Line => 1
    case Rectangle => 2
    case Circle => 3
    case Triangle => 4
    case Text => 5
  }

  /** static_cast<DrawingTool>(index) for a combo-box index. */
  function ToolAt(index: int): (t: Tool)
    requires 0 <= index < |ToolOrder|
    ensures ToolIndex(t) == index
  {
    ToolOrder[index]
  }

  /** Every tool has exactly one combo-box entry, so the cast from an index is a bijection that keeps the order. */
  lemma ToolOrderIsEnumeration()
    ensures |ToolOrder| == 6
    ensures forall t: Tool :: t in ToolOrder
    ensures forall i, j :: 0 <= i < j < |ToolOrder| ==> ToolOrder[i] != ToolOrder[j]
    ensures forall i, j :: 0 <= i < j < |ToolOrder| ==> ToolIndex(ToolAt(i)) < ToolIndex(ToolAt(j))
  {
    forall t: Tool ensures t in ToolOrder {
      assert ToolOrder[ToolIndex(t)] == t;
    }
  }

  /**
   * A scene item, as a value. Each variant stands for the Qt item class that the tool creates;
   * `color` and `width` are those of the item's pen, and the text item's colour is its text colour.
   */
  datatype Shape =
    | PathShape(points: seq<Point>, color: Color, width: int)         // QGraphicsPathItem (Pen)
    | LineShape(p1: Point, p2: Point, color: Color, width: int)       // QGraphicsLineItem (Line)
    | RectShape(box: Rect, color: Color, width: int)                  // QGraphicsRectItem (Rectangle)
    | EllipseShape(box: Rect, color: Color, width: int)               // QGraphicsEllipseItem (Circle)
    | PolygonShape(vertices: seq<Point>, color: Color, width: int)    // QGraphicsPolygonItem (Triangle)
    | TextShape(pos: Point, text: string, fontSize: int, color: Color) // QGraphicsTextItem (Text)
}
