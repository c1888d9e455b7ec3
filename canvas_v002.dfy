/** The canvas component of editor version 0.0.2: pointer positions are kept in screen pixels,
    panning adds the pointer's displacement since the last event to the offset, and drawing stores
    straight segments relative to the offset. There is no zoom. */
module CanvasV002 {
  import opened Wrappers
  import opened Viewport
  import opened Strokes

  /** The two tools of this version. */
  datatype Mode = Panning | Drawing

  datatype State = State(
    mode: Option<Mode>,
    startPos: Option<Point>,
    canvasOffset: Point,
    drawLines: seq<Segment>,
    isPanning: bool)

  /** No tool, no press, offset (0, 0), nothing drawn. */
  const Initial := State(None, None, Origin, [], false)

  /** `handleMouseDown`: records the press position, and starts panning when the hand is chosen. */
  function MouseDown(s: State, pos: Point): (r: State)
    ensures r.startPos == Some(pos)
    ensures r.isPanning == (s.isPanning || s.mode == Some(Panning))
    ensures r.mode == s.mode && r.canvasOffset == s.canvasOffset && r.drawLines == s.drawLines
  {
    var s1 := s.(startPos := Some(pos));
    if s.mode == Some(Panning) then s1.(isPanning := true) else s1
  }

  /** `handleMouseMove`. Without a press nothing happens. With the pen and not panning, one segment
      from the last position to this one, both shifted back by the offset, is stored; with the hand
      while panning, the pointer's displacement is added to the offset. Either way the position is
      remembered for the next move. */
  function MouseMove(s: State, pos: Point): (r: State)
    ensures s.startPos.None? ==> r == s
    ensures r.mode == s.mode && r.isPanning == s.isPanning
    ensures s.startPos.Some? && s.mode == Some(Drawing) && !s.isPanning ==>
      r.drawLines == s.drawLines + [Segment(Minus(s.startPos.value, s.canvasOffset), Minus(pos, s.canvasOffset))]
      && r.canvasOffset == s.canvasOffset && r.startPos == Some(pos)
    ensures s.startPos.Some? && s.mode == Some(Panning) && s.isPanning ==>
      r.canvasOffset == Plus(s.canvasOffset, Minus(pos, s.startPos.value))
      && r.drawLines == s.drawLines && r.startPos == Some(pos)
    ensures !(s.mode == Some(Drawing) && !s.isPanning) && !(s.mode == Some(Panning) && s.isPanning) ==> r == s
  {
    if s.startPos.None? then s
    else
      var start := s.startPos.value;
      if s.mode == Some(Drawing) && !s.isPanning then
        var newLine := Segment(Minus(start, s.canvasOffset), Minus(pos, s.canvasOffset));
        s.(drawLines := s.drawLines + [newLine], startPos := Some(pos))
      else if s.mode == Some(Panning) && s.isPanning then
        s.(canvasOffset := Plus(s.canvasOffset, Minus(pos, start)), startPos := Some(pos))
      else s
  }

  /** `handleMouseUp`: forgets the press and stops panning; nothing else changes. */
  function MouseUp(s: State): (r: State)
    ensures r.startPos.None? && !r.isPanning
    ensures r.mode == s.mode && r.canvasOffset == s.canvasOffset && r.drawLines == s.drawLines
  {
    s.(startPos := None, isPanning := false)
  }

  /** A run of mouse-moves. */
  function Moves(s: State, ps: seq<Point>): State
    decreases |ps|
  {
    if ps == [] then s else Moves(MouseMove(s, ps[0]), ps[1..])
  }

  /** Without a press, moving the pointer does nothing at all. */
  lemma {:induction false} MovesWithoutPressInert(s: State, ps: seq<Point>)
    requires s.startPos.None?
    ensures Moves(s, ps) == s
    decreases |ps|
  {
    if ps != [] {
      MovesWithoutPressInert(MouseMove(s, ps[0]), ps[1..]);
    }
  }

  /** A pen drag stores one segment per move and never moves the view. The k-th new segment starts
      where the pointer was before that move (the press position for the first) and ends at the
      move's position, both relative to the offset; so each segment ends where the next begins, and
      shifted by the offset each ends exactly under its move's pointer. */
  lemma {:induction false} DrawGestureChains(s: State, ps: seq<Point>)
    requires s.startPos.Some? && s.mode == Some(Drawing) && !s.isPanning
    ensures var r := Moves(s, ps);
      && r.canvasOffset == s.canvasOffset
      && |r.drawLines| == |s.drawLines| + |ps|
      && r.drawLines[..|s.drawLines|] == s.drawLines
      && (forall j :: |s.drawLines| <= j < |r.drawLines| ==>
            r.drawLines[j] == Segment(Minus(PointerBefore(s.startPos.value, ps, j - |s.drawLines|), s.canvasOffset),
                                  Minus(ps[j - |s.drawLines|], s.canvasOffset)))
      && (forall j :: |s.drawLines| <= j < |r.drawLines| ==> Plus(r.drawLines[j].to, r.canvasOffset) == ps[j - |s.drawLines|])
    decreases |ps|
  {
    if ps != [] {
      var t := MouseMove(s, ps[0]);
      DrawGestureChains(t, ps[1..]);
      var r := Moves(s, ps);
      var n := |s.drawLines|;
      assert r.drawLines[..n] == r.drawLines[..n + 1][..n];
      assert r.drawLines[..n + 1] == t.drawLines;
      assert r.drawLines[n] == r.drawLines[..n + 1][n];
      forall j | n + 1 <= j < |r.drawLines|
        ensures r.drawLines[j] == Segment(Minus(PointerBefore(s.startPos.value, ps, j - n), s.canvasOffset),
                                      Minus(ps[j - n], s.canvasOffset))
      {
        assert PointerBefore(t.startPos.value, ps[1..], j - (n + 1)) == PointerBefore(s.startPos.value, ps, j - n);
        assert ps[1..][j - (n + 1)] == ps[j - n];
      }
    }
  }

  /** The segments of a pen drag form one connected line: each ends where the next begins. */
  lemma SegmentsChain(s: State, ps: seq<Point>)
    requires s.startPos.Some? && s.mode == Some(Drawing) && !s.isPanning
    ensures var r := Moves(s, ps);
      forall j :: |s.drawLines| <= j < |r.drawLines| - 1 ==> r.drawLines[j].to == r.drawLines[j + 1].from
  {
    DrawGestureChains(s, ps);
    var r := Moves(s, ps);
    forall j | |s.drawLines| <= j < |r.drawLines| - 1
      ensures r.drawLines[j].to == r.drawLines[j + 1].from
    {
      assert PointerBefore(s.startPos.value, ps, j + 1 - |s.drawLines|) == ps[j - |s.drawLines|];
    }
  }

  /** A hand drag never stores a segment, and the offset telescopes: after the moves it has grown by
      exactly the last pointer position minus the press position. */
  lemma {:induction false} PanGestureTelescopes(s: State, ps: seq<Point>)
    requires s.startPos.Some? && s.mode == Some(Panning) && s.isPanning && |ps| > 0
    ensures var r := Moves(s, ps);
      && r.canvasOffset == Plus(s.canvasOffset, Minus(ps[|ps| - 1], s.startPos.value))
      && r.drawLines == s.drawLines
      && r.startPos == Some(ps[|ps| - 1])
    decreases |ps|
  {
    if |ps| > 1 {
      PanGestureTelescopes(MouseMove(s, ps[0]), ps[1..]);
    }
  }

  /** `redrawCanvas`: clears the canvas and draws every stored segment translated by the current
      offset, in order. */
  method RedrawCanvas(s: State) returns (screen: seq<Segment>)
    ensures |screen| == |s.drawLines|
    ensures forall i :: 0 <= i < |screen| ==>
      screen[i] == Segment(Plus(s.drawLines[i].from, s.canvasOffset), Plus(s.drawLines[i].to, s.canvasOffset))
  {
    screen := [];
    var i := 0;
    while i < |s.drawLines|
      invariant 0 <= i <= |s.drawLines|
      invariant |screen| == i
      invariant forall k :: 0 <= k < i ==>
        screen[k] == Segment(Plus(s.drawLines[k].from, s.canvasOffset), Plus(s.drawLines[k].to, s.canvasOffset))
    {
      var line := s.drawLines[i];
      screen := screen + [Segment(Plus(line.from, s.canvasOffset), Plus(line.to, s.canvasOffset))];
      i := i + 1;
    }
  }

  /** The canvas component of version 0.0.2 and its state slots. */
  class Canvas {
    var mode: Option<Mode>
    var startPos: Option<Point>
    var canvasOffset: Point
    var drawLines: seq<Segment>
    var isPanning: bool

    function Model(): State
      reads this
    {
      State(mode, startPos, canvasOffset, drawLines, isPanning)
    }

    constructor ()
      ensures Model() == Initial
    {
      mode := None;
      startPos := None;
      canvasOffset := Origin;
      drawLines := [];
      isPanning := false;
    }

    method HandleMouseDown(pos: Point)
      modifies this
      ensures Model() == MouseDown(old(Model()), pos)
    {
      startPos := Some(pos);
      if mode == Some(Panning) {
        isPanning := true;
      }
    }

    method HandleMouseMove(pos: Point)
      modifies this
      ensures Model() == MouseMove(old(Model()), pos)
    {
      if startPos.None? {
        return;
      }
      var start := startPos.value;
      if mode == Some(Drawing) && !isPanning {
        var newLine := Segment(Minus(start, canvasOffset), Minus(pos, canvasOffset));
        drawLines := drawLines + [newLine];
        startPos := Some(pos);
      } else if mode == Some(Panning) && isPanning {
        canvasOffset := Point(canvasOffset.x + (pos.x - start.x), canvasOffset.y + (pos.y - start.y));
        startPos := Some(pos);
      }
    }

    method HandleMouseUp()
      modifies this
      ensures Model() == MouseUp(old(Model()))
    {
      startPos := None;
      isPanning := false;
    }

    /** The hand and pen buttons. */
    method SelectTool(tool: Mode)
      modifies this
      ensures Model() == old(Model()).(mode := Some(tool))
    {
      mode := Some(tool);
    }
  }
}
