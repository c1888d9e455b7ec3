/** The node layer of the current editor: the node list it owns, its selection operations, the
    toggle a click on a node performs, and where each node is placed on screen. */
module Nodes {
  import opened Wrappers
  import opened Viewport

  datatype Node = Node(id: string, x: real, y: real, content: string, selected: bool)

  /** Placeholder text of a freshly placed node. */
  const NewNodeContent: string := "New Node"

  /** The two lists hold the same nodes in the same order, ignoring the selection flags. */
  predicate SameNodes(a: seq<Node>, b: seq<Node>) {
    |a| == |b| && forall i :: 0 <= i < |a| ==> a[i].(selected := false) == b[i].(selected := false)
  }

  /** No two nodes share an id. The ids come from a clock, so this is not guaranteed. */
  predicate DistinctIds(nodes: seq<Node>) {
    forall i, j :: 0 <= i < j < |nodes| ==> nodes[i].id != nodes[j].id
  }

  predicate NoneSelected(nodes: seq<Node>) {
    forall i :: 0 <= i < |nodes| ==> !nodes[i].selected
  }

  /** `addNode`: exactly one unselected node with the placeholder text is appended at the end,
      at the given world position; the earlier nodes are untouched. */
  function Appended(nodes: seq<Node>, id: string, x: real, y: real): (r: seq<Node>)
    ensures |r| == |nodes| + 1
    ensures r[..|nodes|] == nodes
    ensures r[|nodes|] == Node(id, x, y, NewNodeContent, false)
  {
    nodes + [Node(id, x, y, NewNodeContent, false)]
  }

  /** `selectNode`: every node keeps its id, position and content and its place in the list, and
      is selected exactly when its id is the target. */
  function SelectedOnly(nodes: seq<Node>, target: Option<string>): (r: seq<Node>)
    ensures SameNodes(r, nodes)
    ensures forall i :: 0 <= i < |r| ==> (r[i].selected <==> target == Some(r[i].id))
    decreases |nodes|
  {
    if nodes == [] then []
    else [nodes[0].(selected := target == Some(nodes[0].id))] + SelectedOnly(nodes[1..], target)
  }

  /** `deselectAll`: the same nodes, none of them selected. */
  function Deselected(nodes: seq<Node>): (r: seq<Node>)
    ensures SameNodes(r, nodes)
    ensures NoneSelected(r)
    decreases |nodes|
  {
    if nodes == [] then [] else [nodes[0].(selected := false)] + Deselected(nodes[1..])
  }

  /** Selecting nothing is deselecting everything. */
  lemma SelectNothingIsDeselectAll(nodes: seq<Node>)
    ensures SelectedOnly(nodes, None) == Deselected(nodes)
  {
    var a, b := SelectedOnly(nodes, None), Deselected(nodes);
    forall i | 0 <= i < |a|
      ensures a[i] == b[i]
    {
      assert a[i].(selected := false) == nodes[i].(selected := false) == b[i].(selected := false);
    }
  }

  /** Deselecting twice is deselecting once. */
  lemma DeselectIdempotent(nodes: seq<Node>)
    ensures Deselected(Deselected(nodes)) == Deselected(nodes)
  {
    var a, b := Deselected(Deselected(nodes)), Deselected(nodes);
    forall i | 0 <= i < |a|
      ensures a[i] == b[i]
    {
      assert a[i].(selected := false) == b[i].(selected := false);
    }
  }

  /** With distinct ids, selecting leaves at most one node selected. */
  lemma AtMostOneSelected(nodes: seq<Node>, target: Option<string>, i: int, j: int)
    requires DistinctIds(nodes)
    requires 0 <= i < |nodes| && 0 <= j < |nodes|
    ensures SelectedOnly(nodes, target)[i].selected && SelectedOnly(nodes, target)[j].selected ==> i == j
  {
    var r := SelectedOnly(nodes, target);
    assert r[i].id == nodes[i].id by {
      assert r[i].(selected := false) == nodes[i].(selected := false);
    }
    assert r[j].id == nodes[j].id by {
      assert r[j].(selected := false) == nodes[j].(selected := false);
    }
  }

  /** `Node.handleClick`: a selected node asks for no selection, an unselected one for itself. */
  function ClickTarget(n: Node): Option<string> {
    if n.selected then None else Some(n.id)
  }

  /** A click on node `k` toggles it: a selected node leaves nothing selected; an unselected one
      becomes selected, and with distinct ids it is then the only selected node. */
  lemma ClickToggles(nodes: seq<Node>, k: int)
    requires 0 <= k < |nodes|
    ensures nodes[k].selected ==> NoneSelected(SelectedOnly(nodes, ClickTarget(nodes[k])))
    ensures !nodes[k].selected ==> SelectedOnly(nodes, ClickTarget(nodes[k]))[k].selected
    ensures !nodes[k].selected && DistinctIds(nodes) ==>
      forall j :: 0 <= j < |nodes| && SelectedOnly(nodes, ClickTarget(nodes[k]))[j].selected ==> j == k
  {
    var r := SelectedOnly(nodes, ClickTarget(nodes[k]));
    assert r[k].id == nodes[k].id by {
      assert r[k].(selected := false) == nodes[k].(selected := false);
    }
    if !nodes[k].selected && DistinctIds(nodes) {
      forall j | 0 <= j < |nodes| && r[j].selected
        ensures j == k
      {
        AtMostOneSelected(nodes, ClickTarget(nodes[k]), j, k);
      }
    }
  }

  /** A node as the DOM node layer shows it: its top-left corner on screen, the scale applied to
      its box, its text, and whether it is drawn highlighted. */
  datatype Placement = Placement(id: string, at: Point, scale: real, content: string, highlighted: bool)

  /** The rendered node layer: every node exactly once, in list order, placed at the raster layer's
      image of its world position and scaled by the zoom. */
  function Placements(v: View, nodes: seq<Node>): (r: seq<Placement>)
    ensures |r| == |nodes|
    ensures forall i :: 0 <= i < |nodes| ==>
      r[i] == Placement(nodes[i].id, ToScreen(v, Point(nodes[i].x, nodes[i].y)), v.zoom, nodes[i].content, nodes[i].selected)
    decreases |nodes|
  {
    if nodes == [] then []
    else
      var n := nodes[0];
      [Placement(n.id, NodeLayerPosition(v, Point(n.x, n.y)), v.zoom, n.content, n.selected)] + Placements(v, nodes[1..])
  }

  /** The `nodes` state of the node layer, with the operations it hands to the canvas. Each
      selection operation also returns the value it reports to `onNodeSelect`. */
  class NodeStore {
    var nodes: seq<Node>

    constructor ()
      ensures nodes == []
    {
      nodes := [];
    }

    method AddNode(id: string, x: real, y: real)
      modifies this
      ensures nodes == Appended(old(nodes), id, x, y)
    {
      nodes := nodes + [Node(id, x, y, NewNodeContent, false)];
    }

    method SelectNode(target: Option<string>) returns (reported: Option<string>)
      modifies this
      ensures nodes == SelectedOnly(old(nodes), target)
      ensures reported == target
    {
      nodes := SelectedOnly(nodes, target);
      reported := target;
    }

    method DeselectAll() returns (reported: Option<string>)
      modifies this
      ensures nodes == Deselected(old(nodes))
      ensures reported == None
    {
      nodes := Deselected(nodes);
      reported := None;
    }

    /** A click on the `k`-th rendered node. */
    method ClickNode(k: nat) returns (reported: Option<string>)
      requires k < |nodes|
      modifies this
      ensures nodes == SelectedOnly(old(nodes), ClickTarget(old(nodes)[k]))
      ensures reported == ClickTarget(old(nodes)[k])
    {
      reported := SelectNode(ClickTarget(nodes[k]));
    }
  }
}
