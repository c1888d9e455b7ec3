/** The node layer of editor version 0.0.5: an append-only list of nodes, rendered in order. */
module NodesV005 {
  import opened Viewport

  datatype Node = Node(id: string, x: real, y: real, content: string)

  /** Placeholder text of a freshly placed node. */
  const NewNodeContent: string := "New Node"

  /** `addNode`: exactly one node with the placeholder text is appended at the given world
      position; the earlier nodes keep their values and their order. */
  function Appended(nodes: seq<Node>, id: string, x: real, y: real): (r: seq<Node>)
    ensures |r| == |nodes| + 1
    ensures r[..|nodes|] == nodes
    ensures r[|nodes|] == Node(id, x, y, NewNodeContent)
  {
    nodes + [Node(id, x, y, NewNodeContent)]
  }

  /** One call of `addNode`: the id it stamps and the world position it is given. */
  datatype AddRequest = AddRequest(id: string, x: real, y: real)

  /** A sequence of `addNode` calls, the only operation the layer offers. */
  function AddAll(nodes: seq<Node>, requests: seq<AddRequest>): seq<Node>
    decreases |requests|
  {
    if requests == [] then nodes
    else AddAll(Appended(nodes, requests[0].id, requests[0].x, requests[0].y), requests[1..])
  }

  /** Whatever the calls, the list never shrinks: it grows by one node per call, keeps every earlier
      node where it was, and the i-th new node is the i-th call's. */
  lemma {:induction false} OnlyGrows(nodes: seq<Node>, requests: seq<AddRequest>)
    ensures |AddAll(nodes, requests)| == |nodes| + |requests|
    ensures AddAll(nodes, requests)[..|nodes|] == nodes
    ensures forall i :: 0 <= i < |requests| ==>
      AddAll(nodes, requests)[|nodes| + i] == Node(requests[i].id, requests[i].x, requests[i].y, NewNodeContent)
    decreases |requests|
  {
    if requests != [] {
      var first := Appended(nodes, requests[0].id, requests[0].x, requests[0].y);
      OnlyGrows(first, requests[1..]);
      var r := AddAll(nodes, requests);
      assert r[..|nodes|] == r[..|first|][..|nodes|];
      forall i | 0 <= i < |requests|
        ensures r[|nodes| + i] == Node(requests[i].id, requests[i].x, requests[i].y, NewNodeContent)
      {
        if i > 0 {
          assert r[|first| + (i - 1)] == r[|nodes| + i];
          assert requests[1..][i - 1] == requests[i];
        } else {
          assert r[..|first|][|nodes|] == r[|nodes|];
        }
      }
    }
  }

  /** A node as rendered: top-left corner on screen, scale of its box, and its text. */
  datatype Placement = Placement(id: string, at: Point, scale: real, content: string)

  /** The rendered node layer: every node exactly once, in list order, at the raster layer's image
      of its world position and scaled by the zoom. */
  function Placements(v: View, nodes: seq<Node>): (r: seq<Placement>)
    ensures |r| == |nodes|
    ensures forall i :: 0 <= i < |nodes| ==>
      r[i] == Placement(nodes[i].id, ToScreen(v, Point(nodes[i].x, nodes[i].y)), v.zoom, nodes[i].content)
    decreases |nodes|
  {
    if nodes == [] then []
    else
      var n := nodes[0];
      [Placement(n.id, NodeLayerPosition(v, Point(n.x, n.y)), v.zoom, n.content)] + Placements(v, nodes[1..])
  }
}
