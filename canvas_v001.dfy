/** The canvas component of editor version 0.0.1: like version 0.0.2 it tracks the pointer in
    screen pixels and pans by displacements, but strokes are painted straight into an off-screen
    buffer, modelled here as the log of segments painted into it. Moves and releases are heard on
    the window only while a tool is chosen. */
module CanvasV001 {
  import opened Wrappers
  import opened Viewport
  import opened Strokes

  /** The two tools of this version. */
  datatype Mode = Panning | Drawing

  datatype State = State(
    mode: Option<Mode>,
    startPos: Option<Point>,
    canvasOffset: Point,
    buffer: seq<Segment>)

  const Initial := State(None, None, Origin, [])

  /** `handleMouseDown` on the canvas: records the press position, whatever the tool. */
  function MouseDown(s: State, pos: Point): (r: State)
    ensures r.startPos == Some(pos)
    ensures r.mode == s.mode && r.canvasOffset == s.canvasOffset && r.buffer == s.buffer
  {
    s.(startPos := Some(pos))
  }

  /** `handleMouseMove`. Without a press or without a tool nothing happens. The pen paints one
      segment from the last position to this one, both shifted back by the offset; the hand adds
      the pointer's displacement to the offset. Either way the position is remembered. */
  function MouseMove(s: State, pos: Point): (r: State)
    ensures s.startPos.None? || s.mode.None? ==> r == s
    ensures r.mode == s.mode
    ensures s.startPos.Some? && s.mode == Some(Drawing) ==>
      r.buffer == s.buffer + [Segment(Minus(s.startPos.value, s.canvasOffset), Minus(pos, s.canvasOffset))]
      && r.canvasOffset == s.canvasOffset && r.startPos == Some(pos)
    ensures s.startPos.Some? && s.mode == Some(Panning) ==>
      r.canvasOffset == Plus(s.canvasOffset, Minus(pos, s.startPos.value))
      && r.buffer == s.buffer && r.startPos == Some(pos)
  {
    if s.startPos.None? || s.mode.None? then s
    else
      var start := s.startPos.value;
      match s.mode.value
      case Drawing =>
        s.(buffer := s.buffer + [Segment(Minus(start, s.canvasOffset), Minus(pos, s.canvasOffset))], startPos := Some(pos))
      case Panning =>
        s.(canvasOffset := Plus(s.canvasOffset, Minus(pos, start)), startPos := Some(pos))
  }

  /** `handleMouseUp`, heard only while a tool is chosen: forgets the press. */
  function MouseUp(s: State): (r: State)
    ensures s.mode.Some? ==> r.startPos.None?
    ensures s.mode.None? ==> r == s
    ensures r.mode == s.mode && r.canvasOffset == s.canvasOffset && r.buffer == s.buffer
  {
    if s.mode.None? then s else s.(startPos := None)
  }

  /** A run of mouse-moves. */
  function Moves(s: State, ps: seq<Point>): State
    decreases |ps|
  {
    if ps == [] then s else Moves(MouseMove(s, ps[0]), ps[1..])
  }

  /** Once a release has been heard, moves are ignored until the next press. */
  lemma {:induction false} ReleaseEndsGesture(s: State, ps: seq<Point>)
    requires s.mode.Some?
    ensures Moves(MouseUp(s), ps) == MouseUp(s)
    decreases |ps|
  {
    if ps != [] {
      ReleaseEndsGesture(s, ps[1..]);
    }
  }

  /** A pen drag paints one segment per move and never moves the view; the k-th new segment starts
      where the pointer was before that move (the press position for the first) and ends at the
      move's position, both relative to the offset, so consecutive segments chain. */
  lemma {:induction false} DrawGestureChains(s: State, ps: seq<Point>)
    requires s.startPos.Some? && s.mode == Some(Drawing)
    ensures var r := Moves(s, ps);
      && r.canvasOffset == s.canvasOffset
      && |r.buffer| == |s.buffer| + |ps|
      && r.buffer[..|s.buffer|] == s.buffer
      && (forall j :: |s.buffer| <= j < |r.buffer| ==>
            r.buffer[j] == Segment(Minus(PointerBefore(s.startPos.value, ps, j - |s.buffer|), s.canvasOffset),
                                  Minus(ps[j - |s.buffer|], s.canvasOffset)))
    decreases |ps|
  {
    if ps != [] {
      var t := MouseMove(s, ps[0]);
      DrawGestureChains(t, ps[1..]);
      var r := Moves(s, ps);
      var n := |s.buffer|;
      assert r.buffer[..n] == r.buffer[..n + 1][..n];
      assert r.buffer[..n + 1] == t.buffer;
      assert r.buffer[n] == r.buffer[..n + 1][n];
      forall j | n + 1 <= j < |r.buffer|
        ensures r.buffer[j] == Segment(Minus(PointerBefore(s.startPos.value, ps, j - n), s.canvasOffset),
                                      Minus(ps[j - n], s.canvasOffset))
      {
        assert PointerBefore(t.startPos.value, ps[1..], j - (n + 1)) == PointerBefore(s.startPos.value, ps, j - n);
        assert ps[1..][j - (n + 1)] == ps[j - n];
      }
    }
  }

  /** The segments of a pen drag form one connected line: each ends where the next begins. */
  lemma SegmentsChain(s: State, ps: seq<Point>)
    requires s.startPos.Some? && s.mode == Some(Drawing)
    ensures var r := Moves(s, ps);
      forall j :: |s.buffer| <= j < |r.buffer| - 1 ==> r.buffer[j].to == r.buffer[j + 1].from
  {
    DrawGestureChains(s, ps);
    var r := Moves(s, ps);
    forall j | |s.buffer| <= j < |r.buffer| - 1
      ensures r.buffer[j].to == r.buffer[j + 1].from
    {
      assert PointerBefore(s.startPos.value, ps, j + 1 - |s.buffer|) == ps[j - |s.buffer|];
    }
  }

  /** A hand drag paints nothing, and the offset grows by exactly the last pointer position minus
      the press position. */
  lemma {:induction false} PanGestureTelescopes(s: State, ps: seq<Point>)
    requires s.startPos.Some? && s.mode == Some(Panning) && |ps| > 0
    ensures var r := Moves(s, ps);
      && r.canvasOffset == Plus(s.canvasOffset, Minus(ps[|ps| - 1], s.startPos.value))
      && r.buffer == s.buffer
      && r.startPos == Some(ps[|ps| - 1])
    decreases |ps|
  {
    if |ps| > 1 {
      PanGestureTelescopes(MouseMove(s, ps[0]), ps[1..]);
    }
  }

  /** `redrawCanvas`: the buffer image is copied onto the cleared canvas at the offset, so every
      painted segment appears shifted by the current offset. */
  function Shown(s: State): (screen: seq<Segment>)
    ensures |screen| == |s.buffer|
  {
    seq(|s.buffer|, i requires 0 <= i < |s.buffer| =>
      Segment(Plus(s.buffer[i].from, s.canvasOffset), Plus(s.buffer[i].to, s.canvasOffset)))
  }

  /** A segment painted by a pen move is shown, as long as the view stays put, exactly from the
      pointer's previous position to its new one. */
  lemma PaintedUnderPointer(s: State, pos: Point)
    requires s.startPos.Some? && s.mode == Some(Drawing)
    ensures var r := MouseMove(s, pos);
      Shown(r)[|s.buffer|] == Segment(s.startPos.value, pos)
  {
  }

  /** The canvas component of version 0.0.1 and its state slots. */
  class Canvas {
    var mode: Option<Mode>
    var startPos: Option<Point>
    var canvasOffset: Point
    var buffer: seq<Segment>

    function Model(): State
      reads this
    {
      State(mode, startPos, canvasOffset, buffer)
    }

    constructor ()
      ensures Model() == Initial
    {
      mode := None;
      startPos := None;
      canvasOffset := Origin;
      buffer := [];
    }

    method HandleMouseDown(pos: Point)
      modifies this
      ensures Model() == MouseDown(old(Model()), pos)
    {
      startPos := Some(pos);
    }

    method HandleMouseMove(pos: Point)
      modifies this
      ensures Model() == MouseMove(old(Model()), pos)
    {
      if startPos.None? || mode.None? {
        return;
      }
      var start := startPos.value;
      if mode == Some(Drawing) {
        buffer := buffer + [Segment(Minus(start, canvasOffset), Minus(pos, canvasOffset))];
        startPos := Some(pos);
      } else {
        canvasOffset := Point(canvasOffset.x + (pos.x - start.x), canvasOffset.y + (pos.y - start.y));
        startPos := Some(pos);
      }
    }

    /** The window's mouse-up listener, attached only while a tool is chosen. */
    method HandleMouseUp()
      modifies this
      ensures Model() == MouseUp(old(Model()))
    {
      if mode.Some? {
        startPos := None;
      }
    }

    /** The hand and pen buttons. */
    method SelectTool(tool: Mode)
      modifies this
      ensures Model() == old(Model()).(mode := Some(tool))
    {
      mode := Some(tool);
    }
  }
}
