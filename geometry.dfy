/**
 * Scene geometry: points, colours and Qt-style rectangles.
 *
 * Qt works with QPointF; the drawing logic only copies points and takes their
 * minimum and maximum, so integer coordinates capture everything it does.
 */
module Geometry {

  datatype Point = Point(x: int, y: int)

  /** QPointF() and an empty QPainterPath both start at the origin. */
  const Origin := Point(0, 0)

  /** A colour as an RGB triple; how a hue becomes a colour is not part of the model. */
  datatype Color = Rgb(red: int, green: int, blue: int)

  const Black := Rgb(0, 0, 0)
  const White := Rgb(255, 255, 255)

  /** QRectF: a corner plus an extent; the extent may be negative until the rectangle is normalised. */
  datatype Rect = Rect(x: int, y: int, width: int, height: int)

  function Min(a: int, b: int): int { if a <= b then a else b }
  function Max(a: int, b: int): int { if a <= b then b else a }

  /** QRectF(topLeft, bottomRight): the two corners are taken as given. */
  function CornerRect(topLeft: Point, bottomRight: Point): (r: Rect)
    ensures r.x == topLeft.x && r.y == topLeft.y
    ensures r.x + r.width == bottomRight.x && r.y + r.height == bottomRight.y
  {
    Rect(topLeft.x, topLeft.y, bottomRight.x - topLeft.x, bottomRight.y - topLeft.y)
  }

  /** QRectF::normalized(): a negative extent is flipped, so the rectangle covers the same span. */
  function Normalized(r: Rect): (n: Rect)
    ensures n.width >= 0 && n.height >= 0
    ensures n.x == Min(r.x, r.x + r.width) && n.x + n.width == Max(r.x, r.x + r.width)
    ensures n.y == Min(r.y, r.y + r.height) && n.y + n.height == Max(r.y, r.y + r.height)
  {
    var (x, w) := if r.width < 0 then (r.x + r.width, -r.width) else (r.x, r.width);
    var (y, h) := if r.height < 0 then (r.y + r.height, -r.height) else (r.y, r.height);
    Rect(x, y, w, h)
  }

  /**
   * The box the Rectangle and Circle tools draw between an anchor and the cursor:
   * per axis it runs from the smaller to the larger coordinate of the two points.
   */
  function BoundingBox(anchor: Point, cursor: Point): (box: Rect)
    ensures box.width >= 0 && box.height >= 0
    ensures box.x == Min(anchor.x, cursor.x) && box.x + box.width == Max(anchor.x, cursor.x)
    ensures box.y == Min(anchor.y, cursor.y) && box.y + box.height == Max(anchor.y, cursor.y)
  {
    Normalized(CornerRect(anchor, cursor))
  }

  /** The box does not depend on the direction of the drag. */
  lemma BoundingBoxSymmetric(a: Point, b: Point)
    ensures BoundingBox(a, b) == BoundingBox(b, a)
  {
  }

  /** A press with no drag gives the empty box at the press point, which is what the press itself creates. */
  lemma BoundingBoxOfOnePoint(a: Point)
    ensures BoundingBox(a, a) == CornerRect(a, a) == Rect(a.x, a.y, 0, 0)
  {
  }
}
