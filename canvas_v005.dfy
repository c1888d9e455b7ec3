/** The canvas component of editor version 0.0.5: the same viewport and stroke handling as the
    current editor, but no tool is chosen at first, placing a node drops the tool, and there is no
    selection. */
module CanvasV005 {
  import opened Wrappers
  import opened Viewport
  import opened Strokes
  import opened Tools
  import NodesV005

  datatype State = State(
    mode: Option<Mode>,
    isPanning: bool,
    view: View,
    strokes: StrokeState,
    nodes: seq<NodesV005.Node>)

  predicate Invariant(s: State) {
    ValidView(s.view)
  }

  /** No tool, zoom 1, offset (0, 0), nothing drawn or placed. */
  const Initial := State(None, false, InitialView, NoStrokes, [])

  /** `handleMouseDown`. Without a tool nothing happens. The pen opens a stroke of exactly the
      pointer's world position, the hand starts panning, and the pin appends one node there and
      then drops the tool. */
  function MouseDown(s: State, screen: Point, newId: string): (r: State)
    requires Invariant(s)
    ensures s.mode.None? ==> r == s
    ensures s.mode == Some(Drawing) ==> r == s.(strokes := StrokeState(s.strokes.paths, Some([ToWorld(s.view, screen)])))
    ensures s.mode == Some(Panning) ==> r == s.(isPanning := true)
    ensures s.mode == Some(AddingNode) ==>
      var w := ToWorld(s.view, screen);
      r == s.(nodes := s.nodes + [NodesV005.Node(newId, w.x, w.y, NodesV005.NewNodeContent)], mode := None)
  {
    var pos := ToWorld(s.view, screen);
    match s.mode
    case Some(Drawing) => s.(strokes := Begin(s.strokes, pos))
    case Some(Panning) => s.(isPanning := true)
    case Some(AddingNode) => s.(nodes := NodesV005.Appended(s.nodes, newId, pos.x, pos.y), mode := None)
    case None => s
  }

  /** `handleMouseMove`: extends an open stroke with the pen, pans while panning with the hand,
      and otherwise changes nothing; it never changes the tool, the panning flag or the nodes. */
  function MouseMove(s: State, screen: Point, movement: Point): (r: State)
    requires Invariant(s)
    ensures r.mode == s.mode && r.isPanning == s.isPanning && r.nodes == s.nodes
    ensures s.mode == Some(Drawing) && s.strokes.current.Some? ==>
      r.view == s.view && r.strokes == StrokeState(s.strokes.paths, Some(s.strokes.current.value + [ToWorld(s.view, screen)]))
    ensures s.mode == Some(Panning) && s.isPanning ==>
      r.strokes == s.strokes && r.view == View(s.view.zoom, Plus(s.view.offset, Over(movement, s.view.zoom)))
    ensures !(s.mode == Some(Drawing) && s.strokes.current.Some?) && !(s.mode == Some(Panning) && s.isPanning) ==> r == s
  {
    var pos := ToWorld(s.view, screen);
    if s.mode == Some(Drawing) && s.strokes.current.Some? then s.(strokes := Extend(s.strokes, pos))
    else if s.mode == Some(Panning) && s.isPanning then s.(view := Pan(s.view, movement))
    else s
  }

  /** `handleMouseUp`, also run on mouse-leave: commits an open stroke with the pen (clearing the
      slot), stops panning with the hand. */
  function MouseUp(s: State): (r: State)
    ensures r.mode == s.mode && r.view == s.view && r.nodes == s.nodes
    ensures s.mode == Some(Drawing) && s.strokes.current.Some? ==>
      r.strokes == StrokeState(s.strokes.paths + [s.strokes.current.value], None) && r.isPanning == s.isPanning
    ensures s.mode == Some(Panning) ==> !r.isPanning && r.strokes == s.strokes
    ensures s.mode != Some(Panning) && !(s.mode == Some(Drawing) && s.strokes.current.Some?) ==> r == s
  {
    if s.mode == Some(Drawing) && s.strokes.current.Some? then s.(strokes := Commit(s.strokes))
    else if s.mode == Some(Panning) then s.(isPanning := false)
    else s
  }

  datatype Event =
    | Down(at: Point, newId: string)
    | Move(at: Point, movement: Point)
    | Up
    | Leave
    | Scroll(at: Point, deltaY: real)
    | ToolButton(tool: Mode)

  /** One event. The zoom stays in range and only the wheel moves the pointer's world point; the
      tool is set by a button or dropped by placing a node; strokes and nodes only grow. */
  function Step(s: State, e: Event): (r: State)
    requires Invariant(s)
    ensures Invariant(r)
    ensures e.Scroll? ==> ToWorld(r.view, e.at) == ToWorld(s.view, e.at)
    ensures r.mode != s.mode ==> e.ToolButton? || (e.Down? && s.mode == Some(AddingNode) && r.mode.None?)
    ensures r.view != s.view ==> e.Scroll? || (e.Move? && s.mode == Some(Panning) && s.isPanning)
    ensures s.strokes.paths <= r.strokes.paths
    ensures s.nodes <= r.nodes
  {
    match e
    case Down(at, newId) => MouseDown(s, at, newId)
    case Move(at, movement) => MouseMove(s, at, movement)
    case Up => MouseUp(s)
    case Leave => MouseUp(s)
    case Scroll(at, deltaY) => s.(view := Wheel(s.view, at, deltaY))
    case ToolButton(tool) => s.(mode := Some(tool))
  }

  /** Any sequence of events keeps the zoom in [0.1, 10] and only ever appends strokes and nodes. */
  function Run(s: State, es: seq<Event>): (r: State)
    requires Invariant(s)
    ensures Invariant(r)
    ensures s.strokes.paths <= r.strokes.paths
    ensures s.nodes <= r.nodes
    decreases |es|
  {
    if es == [] then s else Run(Step(s, es[0]), es[1..])
  }

  /** Until a tool is chosen, pressing, moving and releasing change nothing. */
  lemma {:induction false} NoToolIsInert(s: State, es: seq<Event>)
    requires Invariant(s) && s.mode.None?
    requires forall i :: 0 <= i < |es| ==> es[i].Down? || es[i].Move? || es[i].Up? || es[i].Leave?
    ensures Run(s, es) == s
    decreases |es|
  {
    if es != [] {
      NoToolIsInert(Step(s, es[0]), es[1..]);
    }
  }

  /** The canvas component of version 0.0.5 and its state slots. */
  class Canvas {
    var mode: Option<Mode>
    var isPanning: bool
    var zoom: real
    var offset: Point
    var paths: seq<Path>
    var currentPath: Option<Path>
    var nodes: seq<NodesV005.Node>

    function Model(): State
      reads this
    {
      State(mode, isPanning, View(zoom, offset), StrokeState(paths, currentPath), nodes)
    }

    constructor ()
      ensures Model() == Initial
    {
      mode := None;
      isPanning := false;
      zoom := 1.0;
      offset := Origin;
      paths := [];
      currentPath := None;
      nodes := [];
    }

    method HandleMouseDown(screen: Point, newId: string)
      requires Invariant(Model())
      modifies this
      ensures Model() == MouseDown(old(Model()), screen, newId)
    {
      var pos := ToWorld(View(zoom, offset), screen);
      if mode == Some(Drawing) {
        currentPath := Some([pos]);
      } else if mode == Some(Panning) {
        isPanning := true;
      } else if mode == Some(AddingNode) {
        nodes := NodesV005.Appended(nodes, newId, pos.x, pos.y);
        mode := None;
      }
    }

    method HandleMouseMove(screen: Point, movement: Point)
      requires Invariant(Model())
      modifies this
      ensures Model() == MouseMove(old(Model()), screen, movement)
    {
      var pos := ToWorld(View(zoom, offset), screen);
      if mode == Some(Drawing) && currentPath.Some? {
        currentPath := Some(currentPath.value + [pos]);
      } else if mode == Some(Panning) && isPanning {
        offset := Point(offset.x + movement.x / zoom, offset.y + movement.y / zoom);
      }
    }

    /** Also the mouse-leave handler. */
    method HandleMouseUp()
      modifies this
      ensures Model() == MouseUp(old(Model()))
    {
      if mode == Some(Drawing) && currentPath.Some? {
        paths := paths + [currentPath.value];
        currentPath := None;
      } else if mode == Some(Panning) {
        isPanning := false;
      }
    }

    method HandleWheel(screen: Point, deltaY: real)
      requires Invariant(Model())
      modifies this
      ensures Model() == old(Model()).(view := Wheel(old(Model()).view, screen, deltaY))
    {
      var v := Wheel(View(zoom, offset), screen, deltaY);
      zoom := v.zoom;
      offset := v.offset;
    }

    /** The hand, pen and pin buttons. */
    method SelectTool(tool: Mode)
      modifies this
      ensures Model() == old(Model()).(mode := Some(tool))
    {
      mode := Some(tool);
    }
  }
}
