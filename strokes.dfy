/** The freehand stroke layer: the stroke history and the stroke being drawn, and the raster
    redraw that strokes every path as connected straight segments under the viewport transform. */
module Strokes {
  import opened Wrappers
  import opened Viewport

  /** A freehand stroke: its points in world coordinates, in the order they were captured. */
  type Path = seq<Point>

  /** One straight piece of ink, from `from` to `to`. */
  datatype Segment = Segment(from: Point, to: Point)

  /** What stroking one path paints: nothing for fewer than two points, otherwise one segment
      between each pair of consecutive points, in order. */
  function Polyline(path: Path): (segs: seq<Segment>)
    ensures |segs| == if |path| < 2 then 0 else |path| - 1
    ensures forall i :: 0 <= i < |segs| ==> segs[i] == Segment(path[i], path[i + 1])
    decreases |path|
  {
    if |path| < 2 then [] else [Segment(path[0], path[1])] + Polyline(path[1..])
  }

  /** `drawPath`: returns early for fewer than two points, otherwise moves the pen to the first
      point and draws a line to each following point. */
  method DrawPath(path: Path) returns (segs: seq<Segment>)
    ensures segs == Polyline(path)
  {
    segs := [];
    if |path| < 2 {
      return;
    }
    var pen := path[0];
    var i := 1;
    while i < |path|
      invariant 1 <= i <= |path|
      invariant pen == path[i - 1]
      invariant |segs| == i - 1
      invariant forall k :: 0 <= k < |segs| ==> segs[k] == Segment(path[k], path[k + 1])
    {
      segs := segs + [Segment(pen, path[i])];
      pen := path[i];
      i := i + 1;
    }
    var expected := Polyline(path);
    assert |segs| == |expected|;
    forall k | 0 <= k < |segs|
      ensures segs[k] == expected[k]
    {
      assert segs[k] == Segment(path[k], path[k + 1]);
    }
  }

  /** The world segments of a list of paths, path after path. */
  function AllSegments(paths: seq<Path>): seq<Segment>
    decreases |paths|
  {
    if paths == [] then [] else AllSegments(paths[..|paths| - 1]) + Polyline(paths[|paths| - 1])
  }

  /** Drawing two lists of paths one after the other paints the segments of the first list, then
      those of the second: adding paths never alters what earlier paths paint. */
  lemma {:induction false} AllSegmentsAppend(a: seq<Path>, b: seq<Path>)
    ensures AllSegments(a + b) == AllSegments(a) + AllSegments(b)
    decreases |b|
  {
    if b == [] {
      assert a + b == a;
    } else {
      var n := |b| - 1;
      assert (a + b)[..|a + b| - 1] == a + b[..n];
      assert (a + b)[|a + b| - 1] == b[n];
      AllSegmentsAppend(a, b[..n]);
    }
  }

  /** A path of a single point paints nothing: committing it leaves the picture unchanged. */
  lemma SinglePointPathInvisible(paths: seq<Path>, p: Point)
    ensures AllSegments(paths + [[p]]) == AllSegments(paths)
  {
    assert (paths + [[p]])[..|paths|] == paths;
  }

  /** A segment mapped to screen coordinates by the raster layer's transform. */
  function OnScreen(v: View, s: Segment): Segment {
    Segment(ToScreen(v, s.from), ToScreen(v, s.to))
  }

  /** The segments mapped to the screen, one for one and in order. */
  function Project(v: View, segs: seq<Segment>): (screen: seq<Segment>)
    ensures |screen| == |segs|
    ensures forall i :: 0 <= i < |segs| ==> screen[i] == OnScreen(v, segs[i])
    decreases |segs|
  {
    if segs == [] then [] else [OnScreen(v, segs[0])] + Project(v, segs[1..])
  }

  /** The paths a redraw strokes: the history, then the stroke in progress if there is one. */
  function Drawn(paths: seq<Path>, current: Option<Path>): seq<Path> {
    if current.Some? then paths + [current.value] else paths
  }

  /** The picture a redraw leaves on the cleared canvas, in screen coordinates. */
  function Frame(v: View, paths: seq<Path>, current: Option<Path>): seq<Segment> {
    Project(v, AllSegments(Drawn(paths, current)))
  }

  /** `redrawCanvas`: clears the canvas, sets the transform, strokes every stored path in order and
      then the stroke in progress. */
  method RedrawCanvas(v: View, paths: seq<Path>, current: Option<Path>) returns (frame: seq<Segment>)
    ensures frame == Frame(v, paths, current)
  {
    var world: seq<Segment> := [];
    var i := 0;
    while i < |paths|
      invariant 0 <= i <= |paths|
      invariant world == AllSegments(paths[..i])
    {
      var segs := DrawPath(paths[i]);
      assert paths[..i + 1][..i] == paths[..i];
      world := world + segs;
      i := i + 1;
    }
    assert paths[..i] == paths;
    if current.Some? {
      var segs := DrawPath(current.value);
      assert (paths + [current.value])[..|paths|] == paths;
      world := world + segs;
    }
    frame := Project(v, world);
  }

  /** In a drag that pressed at `press` and then moved through `ps`, where the pointer was just
      before the `k`-th move. */
  function PointerBefore(press: Point, ps: seq<Point>, k: nat): Point
    requires k < |ps|
  {
    if k == 0 then press else ps[k - 1]
  }

  /** The history of committed strokes and the stroke being drawn (`paths`, `currentPath`). */
  datatype StrokeState = StrokeState(paths: seq<Path>, current: Option<Path>)

  const NoStrokes := StrokeState([], None)

  /** Mouse-down while drawing: a new current stroke holding exactly the pointer position. */
  function Begin(s: StrokeState, p: Point): StrokeState {
    s.(current := Some([p]))
  }

  /** Mouse-move while a stroke is open: the pointer position is appended to it. */
  function Extend(s: StrokeState, p: Point): StrokeState
    requires s.current.Some?
  {
    s.(current := Some(s.current.value + [p]))
  }

  /** Mouse-up while a stroke is open: the stroke, whatever its length, is appended to the history
      and the current slot is cleared. */
  function Commit(s: StrokeState): StrokeState
    requires s.current.Some?
  {
    StrokeState(s.paths + [s.current.value], None)
  }

  /** A run of mouse-moves while a stroke is open. */
  function ExtendAll(s: StrokeState, ps: seq<Point>): (r: StrokeState)
    requires s.current.Some?
    ensures r.current.Some?
    decreases |ps|
  {
    if ps == [] then s else ExtendAll(Extend(s, ps[0]), ps[1..])
  }

  /** Extending an open stroke by a run of points appends exactly those points, and leaves the
      history alone. */
  lemma {:induction false} ExtendAllAppends(s: StrokeState, ps: seq<Point>)
    requires s.current.Some?
    ensures ExtendAll(s, ps) == StrokeState(s.paths, Some(s.current.value + ps))
    decreases |ps|
  {
    if ps == [] {
      assert s.current.value + ps == s.current.value;
    } else {
      ExtendAllAppends(Extend(s, ps[0]), ps[1..]);
      assert (s.current.value + [ps[0]]) + ps[1..] == s.current.value + ps;
    }
  }

  /** A whole stroke gesture (down at `p0`, moves through `ps`, up) adds exactly one path to the
      history, holding `p0` and then every move's point in order, and leaves earlier paths as they
      were. */
  lemma StrokeRecordsEveryPoint(s: StrokeState, p0: Point, ps: seq<Point>)
    ensures Commit(ExtendAll(Begin(s, p0), ps)) == StrokeState(s.paths + [[p0] + ps], None)
  {
    ExtendAllAppends(Begin(s, p0), ps);
  }

  /** Committing the open stroke does not change the picture: the stroke painted while in progress
      is painted from the history afterwards. */
  lemma CommitKeepsFrame(v: View, s: StrokeState)
    requires s.current.Some?
    ensures Frame(v, Commit(s).paths, None) == Frame(v, s.paths, s.current)
  {
  }
}
