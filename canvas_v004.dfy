/** The canvas component of editor version 0.0.4: viewport, wheel zoom, panning and freehand
    strokes, with a hand and a pen but no nodes, and no tool chosen at first. */
module CanvasV004 {
  import opened Wrappers
  import opened Viewport
  import opened Strokes

  /** The two tools of this version. */
  datatype Mode = Panning | Drawing

  datatype State = State(mode: Option<Mode>, isPanning: bool, view: View, strokes: StrokeState)

  predicate Invariant(s: State) {
    ValidView(s.view)
  }

  const Initial := State(None, false, InitialView, NoStrokes)

  /** `handleMouseDown`: the pen opens a stroke of exactly the pointer's world position, the hand
      starts panning, and without a tool nothing changes. */
  function MouseDown(s: State, screen: Point): (r: State)
    requires Invariant(s)
    ensures s.mode.None? ==> r == s
    ensures s.mode == Some(Drawing) ==> r == s.(strokes := StrokeState(s.strokes.paths, Some([ToWorld(s.view, screen)])))
    ensures s.mode == Some(Panning) ==> r == s.(isPanning := true)
  {
    match s.mode
    case Some(Drawing) => s.(strokes := Begin(s.strokes, ToWorld(s.view, screen)))
    case Some(Panning) => s.(isPanning := true)
    case None => s
  }

  /** `handleMouseMove`: extends an open stroke with the pen, pans while panning with the hand,
      otherwise nothing. */
  function MouseMove(s: State, screen: Point, movement: Point): (r: State)
    requires Invariant(s)
    ensures r.mode == s.mode && r.isPanning == s.isPanning
    ensures s.mode == Some(Drawing) && s.strokes.current.Some? ==>
      r.view == s.view && r.strokes == StrokeState(s.strokes.paths, Some(s.strokes.current.value + [ToWorld(s.view, screen)]))
    ensures s.mode == Some(Panning) && s.isPanning ==>
      r.strokes == s.strokes && r.view == View(s.view.zoom, Plus(s.view.offset, Over(movement, s.view.zoom)))
    ensures !(s.mode == Some(Drawing) && s.strokes.current.Some?) && !(s.mode == Some(Panning) && s.isPanning) ==> r == s
  {
    var pos := ToWorld(s.view, screen);
    if s.mode == Some(Drawing) && s.strokes.current.Some? then s.(strokes := Extend(s.strokes, pos))
    else if s.mode == Some(Panning) && s.isPanning then s.(view := Pan(s.view, movement))
    else s
  }

  /** `handleMouseUp`, also run on mouse-leave: commits an open stroke (clearing the slot) with the
      pen, stops panning with the hand. */
  function MouseUp(s: State): (r: State)
    ensures r.mode == s.mode && r.view == s.view
    ensures s.mode == Some(Drawing) && s.strokes.current.Some? ==>
      r.strokes == StrokeState(s.strokes.paths + [s.strokes.current.value], None) && r.isPanning == s.isPanning
    ensures s.mode == Some(Panning) ==> !r.isPanning && r.strokes == s.strokes
    ensures s.mode.None? || (s.mode == Some(Drawing) && s.strokes.current.None?) ==> r == s
  {
    if s.mode == Some(Drawing) && s.strokes.current.Some? then s.(strokes := Commit(s.strokes))
    else if s.mode == Some(Panning) then s.(isPanning := false)
    else s
  }

  datatype Event =
    | Down(at: Point)
    | Move(at: Point, movement: Point)
    | Up
    | Leave
    | Scroll(at: Point, deltaY: real)
    | ToolButton(tool: Mode)

  /** One event: zoom stays in range, the tool changes only through its two buttons, the view only
      by the wheel or a panning move, and the stroke history only grows. */
  function Step(s: State, e: Event): (r: State)
    requires Invariant(s)
    ensures Invariant(r)
    ensures r.mode != s.mode ==> e.ToolButton?
    ensures r.view != s.view ==> e.Scroll? || (e.Move? && s.mode == Some(Panning) && s.isPanning)
    ensures s.strokes.paths <= r.strokes.paths
  {
    match e
    case Down(at) => MouseDown(s, at)
    case Move(at, movement) => MouseMove(s, at, movement)
    case Up => MouseUp(s)
    case Leave => MouseUp(s)
    case Scroll(at, deltaY) => s.(view := Wheel(s.view, at, deltaY))
    case ToolButton(tool) => s.(mode := Some(tool))
  }

  /** Any sequence of events keeps the zoom in [0.1, 10] and the stroke history append-only; a
      sequence with no button press never changes the tool. */
  function Run(s: State, es: seq<Event>): (r: State)
    requires Invariant(s)
    ensures Invariant(r)
    ensures s.strokes.paths <= r.strokes.paths
    ensures (forall i :: 0 <= i < |es| ==> !es[i].ToolButton?) ==> r.mode == s.mode
    decreases |es|
  {
    if es == [] then s else Run(Step(s, es[0]), es[1..])
  }

  /** The canvas component of version 0.0.4 and its state slots. */
  class Canvas {
    var mode: Option<Mode>
    var isPanning: bool
    var zoom: real
    var offset: Point
    var paths: seq<Path>
    var currentPath: Option<Path>

    function Model(): State
      reads this
    {
      State(mode, isPanning, View(zoom, offset), StrokeState(paths, currentPath))
    }

    constructor ()
      ensures Model() == Initial
    {
      mode := None;
      isPanning := false;
      zoom := 1.0;
      offset := Origin;
      paths := [];
      currentPath := None;
    }

    method HandleMouseDown(screen: Point)
      requires Invariant(Model())
      modifies this
      ensures Model() == MouseDown(old(Model()), screen)
    {
      var pos := ToWorld(View(zoom, offset), screen);
      if mode == Some(Drawing) {
        currentPath := Some([pos]);
      } else if mode == Some(Panning) {
        isPanning := true;
      }
    }

    method HandleMouseMove(screen: Point, movement: Point)
      requires Invariant(Model())
      modifies this
      ensures Model() == MouseMove(old(Model()), screen, movement)
    {
      var pos := ToWorld(View(zoom, offset), screen);
      if mode == Some(Drawing) && currentPath.Some? {
        currentPath := Some(currentPath.value + [pos]);
      } else if mode == Some(Panning) && isPanning {
        offset := Point(offset.x + movement.x / zoom, offset.y + movement.y / zoom);
      }
    }

    /** Also the mouse-leave handler. */
    method HandleMouseUp()
      modifies this
      ensures Model() == MouseUp(old(Model()))
    {
      if mode == Some(Drawing) && currentPath.Some? {
        paths := paths + [currentPath.value];
        currentPath := None;
      } else if mode == Some(Panning) {
        isPanning := false;
      }
    }

    method HandleWheel(screen: Point, deltaY: real)
      requires Invariant(Model())
      modifies this
      ensures Model() == old(Model()).(view := Wheel(old(Model()).view, screen, deltaY))
    {
      var v := Wheel(View(zoom, offset), screen, deltaY);
      zoom := v.zoom;
      offset := v.offset;
    }

    /** The hand and pen buttons. */
    method SelectTool(tool: Mode)
      modifies this
      ensures Model() == old(Model()).(mode := Some(tool))
    {
      mode := Some(tool);
    }
  }
}
