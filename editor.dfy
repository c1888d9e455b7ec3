/** The current editor's canvas component: its state (tool mode, the panning flag, the viewport,
    the strokes, the node layer's list and the parent's record of the selected node) and the
    handlers that step it, one event at a time. */
module Editor {
  import opened Wrappers
  import opened Viewport
  import opened Strokes
  import opened Tools
  import Nodes

  datatype State = State(
    mode: Mode,
    isPanning: bool,
    view: View,
    strokes: StrokeState,
    nodes: seq<Nodes.Node>,
    selectedNode: Option<string>)

  /** What every reachable state satisfies: the zoom lies in [0.1, 10]. */
  predicate Invariant(s: State) {
    ValidView(s.view)
  }

  /** The freshly mounted editor: hand tool, zoom 1, offset (0, 0), nothing drawn or placed. */
  const Initial := State(Panning, false, InitialView, NoStrokes, [], None)

  /** `handleMouseDown`. The pointer is converted to world coordinates; the pen opens a stroke of
      exactly that point, the hand starts panning, and the pin appends one node there and hands
      back to the hand tool. Whatever the tool, every node is then deselected and the parent is
      told that nothing is selected. */
  function MouseDown(s: State, screen: Point, newId: string): (r: State)
    requires Invariant(s)
    ensures r.view == s.view
    ensures Nodes.NoneSelected(r.nodes) && r.selectedNode == None
    ensures s.mode == Drawing ==> r.strokes == StrokeState(s.strokes.paths, Some([ToWorld(s.view, screen)]))
    ensures s.mode == Drawing ==> r.mode == Drawing && r.isPanning == s.isPanning
    ensures s.mode == Panning ==> r.mode == Panning && r.isPanning && r.strokes == s.strokes
    ensures s.mode == AddingNode ==> r.mode == Panning && r.isPanning == s.isPanning && r.strokes == s.strokes
    ensures s.mode == AddingNode ==>
      var w := ToWorld(s.view, screen);
      |r.nodes| == |s.nodes| + 1 && r.nodes[|s.nodes|] == Nodes.Node(newId, w.x, w.y, Nodes.NewNodeContent, false)
    ensures s.mode != AddingNode ==> |r.nodes| == |s.nodes|
    ensures Nodes.SameNodes(r.nodes[..|s.nodes|], s.nodes)
  {
    var pos := ToWorld(s.view, screen);
    var s1 := match s.mode
      case Drawing => s.(strokes := Begin(s.strokes, pos))
      case Panning => s.(isPanning := true)
      case AddingNode => s.(nodes := Nodes.Appended(s.nodes, newId, pos.x, pos.y), mode := Panning);
    s1.(nodes := Nodes.Deselected(s1.nodes), selectedNode := None)
  }

  /** `handleMouseMove`. With the pen and an open stroke, the pointer's world position is appended
      to the stroke; with the hand while panning, the view pans by the pointer movement; otherwise
      nothing changes. The tool and the node layer never change on a move. */
  function MouseMove(s: State, screen: Point, movement: Point): (r: State)
    requires Invariant(s)
    ensures r.mode == s.mode && r.isPanning == s.isPanning && r.nodes == s.nodes && r.selectedNode == s.selectedNode
    ensures s.mode == Drawing && s.strokes.current.Some? ==>
      r.view == s.view && r.strokes == StrokeState(s.strokes.paths, Some(s.strokes.current.value + [ToWorld(s.view, screen)]))
    ensures s.mode == Panning && s.isPanning ==>
      r.strokes == s.strokes && r.view == View(s.view.zoom, Plus(s.view.offset, Over(movement, s.view.zoom)))
    ensures !(s.mode == Drawing && s.strokes.current.Some?) && !(s.mode == Panning && s.isPanning) ==> r == s
  {
    var pos := ToWorld(s.view, screen);
    if s.mode == Drawing && s.strokes.current.Some? then s.(strokes := Extend(s.strokes, pos))
    else if s.mode == Panning && s.isPanning then s.(view := Pan(s.view, movement))
    else s
  }

  /** `handleMouseUp`, also run on mouse-leave. With the pen and an open stroke, the stroke is
      appended to the history unchanged, even when it holds a single point, and the slot is
      cleared; with the hand, panning stops. */
  function MouseUp(s: State): (r: State)
    ensures r.mode == s.mode && r.view == s.view && r.nodes == s.nodes && r.selectedNode == s.selectedNode
    ensures s.mode == Drawing && s.strokes.current.Some? ==>
      r.strokes == StrokeState(s.strokes.paths + [s.strokes.current.value], None) && r.isPanning == s.isPanning
    ensures s.mode == Panning ==> !r.isPanning && r.strokes == s.strokes
    ensures s.mode == AddingNode || (s.mode == Drawing && s.strokes.current.None?) ==> r == s
  {
    if s.mode == Drawing && s.strokes.current.Some? then s.(strokes := Commit(s.strokes))
    else if s.mode == Panning then s.(isPanning := false)
    else s
  }

  /** `handleWheel`: only the view changes, as `Wheel` says. */
  function WheelZoom(s: State, screen: Point, deltaY: real): (r: State)
    requires Invariant(s)
    ensures Invariant(r)
    ensures ToWorld(r.view, screen) == ToWorld(s.view, screen)
    ensures r.view == Wheel(s.view, screen, deltaY)
    ensures r == s.(view := r.view)
  {
    s.(view := Wheel(s.view, screen, deltaY))
  }

  /** A click on the `k`-th rendered node: the node layer toggles that node and reports the new
      selection to the parent, which records it. A click that hits no node changes nothing. */
  function NodeClick(s: State, k: nat): (r: State)
    ensures r == s.(nodes := r.nodes, selectedNode := r.selectedNode)
    ensures Nodes.SameNodes(r.nodes, s.nodes)
    ensures k < |s.nodes| && s.nodes[k].selected ==> Nodes.NoneSelected(r.nodes) && r.selectedNode == None
    ensures k < |s.nodes| && !s.nodes[k].selected ==> r.nodes[k].selected && r.selectedNode == Some(s.nodes[k].id)
    ensures k < |s.nodes| ==>
      var target := Nodes.ClickTarget(s.nodes[k]);
      r.nodes == Nodes.SelectedOnly(s.nodes, target) && r.selectedNode == target
    ensures k >= |s.nodes| ==> r == s
  {
    if k < |s.nodes| then
      var target := Nodes.ClickTarget(s.nodes[k]);
      Nodes.ClickToggles(s.nodes, k);
      s.(nodes := Nodes.SelectedOnly(s.nodes, target), selectedNode := target)
    else s
  }

  /** `handleKeyDown`: the Delete key with a (non-empty) selected id clears the recorded
      selection. The node list itself is not touched; see README. */
  function KeyDown(s: State, key: string): (r: State)
    ensures r.nodes == s.nodes && r == s.(selectedNode := r.selectedNode)
    ensures key == "Delete" && s.selectedNode.Some? && s.selectedNode.value != "" ==> r.selectedNode == None
    ensures !(key == "Delete" && s.selectedNode.Some? && s.selectedNode.value != "") ==> r == s
  {
    if key == "Delete" && s.selectedNode.Some? && s.selectedNode.value != "" then s.(selectedNode := None) else s
  }

  /** The inputs the canvas reacts to. `Down` carries the id a node placed by it would get. */
  datatype Event =
    | Down(at: Point, newId: string)
    | Move(at: Point, movement: Point)
    | Up
    | Leave
    | Scroll(at: Point, deltaY: real)
    | ToolButton(tool: Mode)
    | NodeClicked(index: nat)
    | Key(key: string)

  /** One event. The zoom stays in range; the tool changes only through a tool button or by placing
      a node, which returns to the hand; the view changes only by the wheel or a panning move; the
      stroke history only grows; the node list only grows and keeps its nodes in place. */
  function Step(s: State, e: Event): (r: State)
    requires Invariant(s)
    ensures Invariant(r)
    ensures r.mode != s.mode ==> e.ToolButton? || (e.Down? && s.mode == AddingNode && r.mode == Panning)
    ensures r.view != s.view ==> e.Scroll? || (e.Move? && s.mode == Panning && s.isPanning)
    ensures s.strokes.paths <= r.strokes.paths
    ensures |s.nodes| <= |r.nodes| && Nodes.SameNodes(r.nodes[..|s.nodes|], s.nodes)
  {
    match e
    case Down(at, newId) => MouseDown(s, at, newId)
    case Move(at, movement) => MouseMove(s, at, movement)
    case Up => MouseUp(s)
    case Leave => MouseUp(s)
    case Scroll(at, deltaY) => WheelZoom(s, at, deltaY)
    case ToolButton(tool) => s.(mode := tool)
    case NodeClicked(k) => NodeClick(s, k)
    case Key(key) => KeyDown(s, key)
  }

  /** A sequence of events, in order. Over any sequence the zoom stays in [0.1, 10] (and so the
      conversions stay defined), the stroke history only grows, and placed nodes are never lost
      or moved. */
  function Run(s: State, es: seq<Event>): (r: State)
    requires Invariant(s)
    ensures Invariant(r)
    ensures s.strokes.paths <= r.strokes.paths
    ensures |s.nodes| <= |r.nodes| && Nodes.SameNodes(r.nodes[..|s.nodes|], s.nodes)
    decreases |es|
  {
    if es == [] then s
    else
      var r := Run(Step(s, es[0]), es[1..]);
      SameNodesPrefix(s.nodes, Step(s, es[0]).nodes, r.nodes);
      r
  }

  /** Keeping the nodes of a prefix is transitive. */
  lemma SameNodesPrefix(a: seq<Nodes.Node>, b: seq<Nodes.Node>, c: seq<Nodes.Node>)
    requires |a| <= |b| <= |c|
    requires Nodes.SameNodes(b[..|a|], a) && Nodes.SameNodes(c[..|b|], b)
    ensures Nodes.SameNodes(c[..|a|], a)
  {
    forall i | 0 <= i < |a|
      ensures c[..|a|][i].(selected := false) == a[i].(selected := false)
    {
      assert c[..|b|][i] == c[i] && b[..|a|][i] == b[i];
    }
  }

  /** Running two sequences one after the other is running their concatenation. */
  lemma {:induction false} RunAppend(s: State, a: seq<Event>, b: seq<Event>)
    requires Invariant(s)
    ensures Run(s, a + b) == Run(Run(s, a), b)
    decreases |a|
  {
    if a == [] {
      assert a + b == b;
    } else {
      assert (a + b)[0] == a[0] && (a + b)[1..] == a[1..] + b;
      RunAppend(Step(s, a[0]), a[1..], b);
    }
  }

  predicate AllMoves(es: seq<Event>) {
    forall i :: 0 <= i < |es| ==> es[i].Move?
  }

  /** The sum of the pointer movements of a run of moves. */
  function TotalMovement(es: seq<Event>): Point
    requires AllMoves(es)
    decreases |es|
  {
    if es == [] then Origin else Plus(es[0].movement, TotalMovement(es[1..]))
  }

  /** While panning, a run of moves shifts the offset by the total movement divided by the zoom,
      and changes nothing else. */
  lemma {:induction false} PanningMovesAccumulate(s: State, es: seq<Event>)
    requires Invariant(s) && s.mode == Panning && s.isPanning && AllMoves(es)
    ensures Run(s, es) == s.(view := View(s.view.zoom, Plus(s.view.offset, Over(TotalMovement(es), s.view.zoom))))
    decreases |es|
  {
    var z := s.view.zoom;
    if es == [] {
    } else {
      var t := Step(s, es[0]);
      PanningMovesAccumulate(t, es[1..]);
      OverPlus(es[0].movement, TotalMovement(es[1..]), z);
    }
  }

  /** The world positions of a run of moves, converted at one view. */
  function WorldPoints(v: View, es: seq<Event>): (ps: seq<Point>)
    requires v.zoom > 0.0 && AllMoves(es)
    ensures |ps| == |es|
    ensures forall i :: 0 <= i < |es| ==> ps[i] == ToWorld(v, es[i].at)
    decreases |es|
  {
    if es == [] then [] else [ToWorld(v, es[0].at)] + WorldPoints(v, es[1..])
  }

  /** With the pen and an open stroke, a run of moves appends each pointer's world position to the
      stroke, in order, and changes nothing else. */
  lemma {:induction false} DrawingMovesExtend(s: State, es: seq<Event>)
    requires Invariant(s) && s.mode == Drawing && s.strokes.current.Some? && AllMoves(es)
    ensures Run(s, es) == s.(strokes := ExtendAll(s.strokes, WorldPoints(s.view, es)))
    decreases |es|
  {
    if es != [] {
      var t := Step(s, es[0]);
      DrawingMovesExtend(t, es[1..]);
      assert WorldPoints(s.view, es)[1..] == WorldPoints(s.view, es[1..]);
    }
  }

  /** A complete pen gesture (press, moves, release) adds exactly one path to the history: the
      press position followed by every move's position, in world coordinates. The view, the tool
      and the earlier paths are unchanged, and no stroke is left open. */
  lemma PenGestureRecordsStroke(s: State, at: Point, newId: string, moves: seq<Event>)
    requires Invariant(s) && s.mode == Drawing && AllMoves(moves)
    ensures var r := Run(s, [Down(at, newId)] + moves + [Up]);
      r.strokes == StrokeState(s.strokes.paths + [[ToWorld(s.view, at)] + WorldPoints(s.view, moves)], None)
      && r.view == s.view && r.mode == Drawing
  {
    var d := Step(s, Down(at, newId));
    RunAppend(s, [Down(at, newId)], moves);
    RunAppend(s, [Down(at, newId)] + moves, [Up]);
    assert Run(s, [Down(at, newId)]) == d by {
      assert [Down(at, newId)][1..] == [];
    }
    DrawingMovesExtend(d, moves);
    StrokeRecordsEveryPoint(s.strokes, ToWorld(s.view, at), WorldPoints(s.view, moves));
    var m := Run(d, moves);
    assert Run(m, [Up]) == Step(m, Up) by {
      assert [Up][1..] == [];
    }
  }

  /** A node placed with the pin is rendered by the node layer exactly under the pointer that
      placed it. */
  lemma PlacedNodeUnderPointer(s: State, at: Point, newId: string)
    requires Invariant(s) && s.mode == AddingNode
    ensures var r := MouseDown(s, at, newId);
      |r.nodes| == |s.nodes| + 1 && Nodes.Placements(r.view, r.nodes)[|s.nodes|].at == at
  {
    var r := MouseDown(s, at, newId);
    var w := ToWorld(s.view, at);
    assert r.nodes[|s.nodes|].x == w.x && r.nodes[|s.nodes|].y == w.y;
    assert Point(w.x, w.y) == w;
  }

  /** The canvas component, its state slots as fields and the node layer it talks to. */
  class CanvasEditor {
    var mode: Mode
    var isPanning: bool
    var zoom: real
    var offset: Point
    var paths: seq<Path>
    var currentPath: Option<Path>
    var selectedNode: Option<string>
    const store: Nodes.NodeStore

    function Model(): State
      reads this, store
    {
      State(mode, isPanning, View(zoom, offset), StrokeState(paths, currentPath), store.nodes, selectedNode)
    }

    constructor ()
      ensures Model() == Initial
      ensures fresh(store)
    {
      mode := Panning;
      isPanning := false;
      zoom := 1.0;
      offset := Origin;
      paths := [];
      currentPath := None;
      selectedNode := None;
      store := new Nodes.NodeStore();
    }

    method HandleMouseDown(screen: Point, newId: string)
      requires Invariant(Model())
      modifies this, store
      ensures Model() == MouseDown(old(Model()), screen, newId)
    {
      var pos := ToWorld(View(zoom, offset), screen);
      if mode == Drawing {
        currentPath := Some([pos]);
      } else if mode == Panning {
        isPanning := true;
      } else {
        store.AddNode(newId, pos.x, pos.y);
        mode := Panning;
      }
      var reported := store.DeselectAll();
      selectedNode := reported;  // handleNodeSelect
    }

    method HandleMouseMove(screen: Point, movement: Point)
      requires Invariant(Model())
      modifies this
      ensures Model() == MouseMove(old(Model()), screen, movement)
    {
      var pos := ToWorld(View(zoom, offset), screen);
      if mode == Drawing && currentPath.Some? {
        currentPath := Some(currentPath.value + [pos]);
      } else if mode == Panning && isPanning {
        offset := Point(offset.x + movement.x / zoom, offset.y + movement.y / zoom);
      }
    }

    /** Also the mouse-leave handler. */
    method HandleMouseUp()
      modifies this
      ensures Model() == MouseUp(old(Model()))
    {
      if mode == Drawing && currentPath.Some? {
        paths := paths + [currentPath.value];
        currentPath := None;
      } else if mode == Panning {
        isPanning := false;
      }
    }

    method HandleWheel(screen: Point, deltaY: real)
      requires Invariant(Model())
      modifies this
      ensures Model() == WheelZoom(old(Model()), screen, deltaY)
    {
      var v := Wheel(View(zoom, offset), screen, deltaY);
      zoom := v.zoom;
      offset := v.offset;
    }

    /** The three tool buttons. */
    method SelectTool(tool: Mode)
      modifies this
      ensures Model() == old(Model()).(mode := tool)
    {
      mode := tool;
    }

    method HandleNodeClick(k: nat)
      modifies store, this
      ensures Model() == NodeClick(old(Model()), k)
    {
      if k < |store.nodes| {
        var reported := store.ClickNode(k);
        selectedNode := reported;  // handleNodeSelect
      }
    }

    method HandleKeyDown(key: string)
      modifies this
      ensures Model() == KeyDown(old(Model()), key)
    {
      if key == "Delete" && selectedNode.Some? && selectedNode.value != "" {
        selectedNode := None;
      }
    }

    /** `redrawCanvas` on the current state: the strokes' screen segments. */
    method Redraw() returns (frame: seq<Segment>)
      ensures frame == Frame(View(zoom, offset), paths, currentPath)
    {
      frame := RedrawCanvas(View(zoom, offset), paths, currentPath);
    }
  }
}
