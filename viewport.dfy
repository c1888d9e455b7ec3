/** The viewport transform shared by the raster stroke layer, the DOM node layer and the pointer
    handlers: a zoom factor and a pan offset, with screen points taken relative to the canvas'
    top-left corner. Coordinates are real numbers, so the identities below hold exactly. */
module Viewport {

  datatype Point = Point(x: real, y: real)

  function Plus(a: Point, b: Point): Point { Point(a.x + b.x, a.y + b.y) }

  function Minus(a: Point, b: Point): Point { Point(a.x - b.x, a.y - b.y) }

  function Times(a: Point, k: real): Point { Point(a.x * k, a.y * k) }

  function Over(a: Point, k: real): Point
    requires k != 0.0
  {
    Point(a.x / k, a.y / k)
  }

  const Origin := Point(0.0, 0.0)

  /** Bounds of the wheel-zoom clamp. */
  const MinZoom: real := 0.1
  const MaxZoom: real := 10.0

  /** `zoom` and `offset` of the canvas component. */
  datatype View = View(zoom: real, offset: Point)

  /** The initial state: zoom 1, offset (0, 0). */
  const InitialView := View(1.0, Origin)

  /** The zoom clamp invariant; it also keeps every division by the zoom defined. */
  predicate ValidView(v: View) {
    MinZoom <= v.zoom <= MaxZoom
  }

  /** `getMousePos`: the world point under a canvas-relative screen point. Mapping the result
      back with the raster layer's transform gives the screen point again. */
  function ToWorld(v: View, screen: Point): (w: Point)
    requires v.zoom > 0.0
    ensures ToScreen(v, w) == screen
  {
    Minus(Over(screen, v.zoom), v.offset)
  }

  /** The raster layer's transform, `ctx.scale(zoom)` followed by `ctx.translate(offset)`:
      a world point is drawn at `(w + offset) * zoom`. */
  function ToScreen(v: View, w: Point): Point {
    Times(Plus(w, v.offset), v.zoom)
  }

  /** The other direction of the round trip: a world point drawn on screen is found again
      under that screen point. */
  lemma WorldScreenRoundTrip(v: View, w: Point)
    requires v.zoom > 0.0
    ensures ToWorld(v, ToScreen(v, w)) == w
  {
  }

  function Min(a: real, b: real): real { if a <= b then a else b }

  function Max(a: real, b: real): real { if a >= b then a else b }

  /** `Math.min(Math.max(z, 0.1), 10)`. */
  function Clamp(z: real): (r: real)
    ensures MinZoom <= r <= MaxZoom
    ensures MinZoom <= z <= MaxZoom ==> r == z
    ensures z < MinZoom ==> r == MinZoom
    ensures z > MaxZoom ==> r == MaxZoom
  {
    Min(Max(z, MinZoom), MaxZoom)
  }

  /** The wheel step: zoom out by 0.9 for a positive `deltaY`, zoom in by 1.1 otherwise. */
  function WheelFactor(deltaY: real): (f: real)
    ensures f == 0.9 || f == 1.1
    ensures f < 1.0 <==> deltaY > 0.0
  {
    if deltaY > 0.0 then 0.9 else 1.1
  }

  /** `handleWheel`: scales the zoom by the wheel step, clamps it, and recomputes the offset from
      the world point that was under the pointer. The new zoom is in range, the world point under
      the pointer does not move, the zoom moves in the wheel's direction, and an unclamped step is
      applied exactly. */
  function Wheel(v: View, mouse: Point, deltaY: real): (r: View)
    requires v.zoom > 0.0
    ensures ValidView(r)
    ensures ToWorld(r, mouse) == ToWorld(v, mouse)
    ensures ValidView(v) && deltaY > 0.0 ==> r.zoom <= v.zoom
    ensures ValidView(v) && deltaY <= 0.0 ==> r.zoom >= v.zoom
    ensures MinZoom <= v.zoom * WheelFactor(deltaY) <= MaxZoom ==> r.zoom == v.zoom * WheelFactor(deltaY)
    ensures r.zoom == Clamp(v.zoom * WheelFactor(deltaY))
  {
    var newZoom := Clamp(v.zoom * WheelFactor(deltaY));
    var beforeZoom := ToWorld(v, mouse);
    View(newZoom, Minus(Over(mouse, newZoom), beforeZoom))
  }

  /** A panning move: the offset grows by the pointer movement divided by the zoom. The zoom is
      kept, and every world point moves on screen by exactly the pointer movement, so the canvas
      follows the hand. */
  function Pan(v: View, movement: Point): (r: View)
    requires v.zoom > 0.0
    ensures r.zoom == v.zoom
    ensures forall w :: ToScreen(r, w) == Plus(ToScreen(v, w), movement)
  {
    View(v.zoom, Plus(v.offset, Over(movement, v.zoom)))
  }

  /** Dividing by the zoom distributes over a sum of points, so movements can be added up before
      or after they are scaled into world units. */
  lemma OverPlus(a: Point, b: Point, z: real)
    requires z != 0.0
    ensures Over(Plus(a, b), z) == Plus(Over(a, z), Over(b, z))
  {
    calc {
      (a.x / z + b.x / z) * z;
      (a.x / z) * z + (b.x / z) * z;
      a.x + b.x;
    }
    calc {
      (a.y / z + b.y / z) * z;
      (a.y / z) * z + (b.y / z) * z;
      a.y + b.y;
    }
  }

  /** Where the DOM node layer puts a node stored at world point `p`: the container is translated
      by `offset * zoom` and the node inside it by `p * zoom`. This is the raster layer's
      transform, so nodes and strokes share one screen frame. */
  function NodeLayerPosition(v: View, p: Point): (s: Point)
    ensures s == ToScreen(v, p)
  {
    Plus(Times(v.offset, v.zoom), Times(p, v.zoom))
  }

  /** The stroke width set before redrawing, `2 / zoom` in world units: scaled by the zoom it is
      always 2 screen pixels wide. */
  function LineWidth(v: View): (width: real)
    requires v.zoom > 0.0
    ensures width * v.zoom == 2.0
    ensures width > 0.0
  {
    2.0 / v.zoom
  }
}
