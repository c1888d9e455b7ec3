# Infinite canvas: viewport and pointer-interaction core

This project models the core of the infinite-canvas whiteboard editor in Dafny and proves
properties of that model. The core is the viewport transform shared by three layers: the raster
stroke layer, the DOM node layer and the pointer handlers. It also covers the pointer state
machine that pans, draws freehand strokes and places nodes, and the node list with its selection
flags. The current editor (`src/components/Canvas.tsx`, `src/components/Nodes.tsx`) is modelled,
and so are the four earlier iterations kept under `prompts/Canvas/versions/` (0.0.5, 0.0.4,
0.0.2, 0.0.1).

Coordinates are `real`, so the round-trip and anchoring identities hold exactly. Each React
event handler is one atomic transition. It is written twice: as a pure function on a `State`
datatype, and as a method of a class whose fields are the component's state slots. Each method's
postcondition equates its new state with the pure function applied to the old state. The lemmas
are proved about the pure functions.

Files and modules:

- `wrappers.dfy` (`Wrappers`): `Option`, for the slots that may be `null`.
- `viewport.dfy` (`Viewport`): points and views, `getMousePos` (`ToWorld`), the raster transform
  (`ToScreen`), the wheel zoom with its clamp, panning, the node layer's placement, and the
  stroke width. The current editor, 0.0.5 and 0.0.4 have the same code for all of these except
  the node layer's placement. Only the current editor and 0.0.5 have a node layer
  (`src/components/Nodes.tsx:90-106`; `prompts/Canvas/versions/0.0.5/Nodes.tsx:60-76`). The
  shared code is at `src/components/Canvas.tsx:60-66, 83-87, 138-143, 156-181`,
  `prompts/Canvas/versions/0.0.5/Canvas.tsx:49-55, 72-76, 120-125, 138-163` and
  `prompts/Canvas/versions/0.0.4/0.0.4.tsx:39-45, 62-66, 92-97, 110-135`. It is modelled once,
  and the table cites the current editor's lines.
- `strokes.dfy` (`Strokes`): `drawPath`, `redrawCanvas`, and the stroke start, extend and commit
  steps. These steps are shared by the same three versions.
- `tools.dfy` (`Tools`): the three-tool mode of the current editor and 0.0.5.
- `nodes.dfy` (`Nodes`): the current node layer. It holds the node list, `addNode`,
  `selectNode`, `deselectAll`, the click toggle and the rendered placements.
- `editor.dfy` (`Editor`): the current canvas component.
- `nodes_v005.dfy`, `canvas_v005.dfy`, `canvas_v004.dfy`, `canvas_v002.dfy`, `canvas_v001.dfy`:
  the earlier iterations.

The model follows the code in these points:

- A stroke of a single point is committed to the history on mouse-up. It is only skipped when
  drawing (`src/components/Canvas.tsx:69, 148-150`).
- Node ids come from `Date.now()` and are not guaranteed unique. Properties that need distinct
  ids take that as a hypothesis.
- The editor's files contain no node deletion, dragging, resizing, connections or anchors, and
  nodes have no stored size.

## Model

| member | source | states |
|---|---|---|
| Viewport.ToWorld | src/components/Canvas.tsx:60-66 | for zoom > 0, mapping the world point back through the raster transform gives the original canvas-relative screen point |
| Viewport.WorldScreenRoundTrip | src/components/Canvas.tsx:83-85 | the other round trip: a world point drawn at `(w + offset)·zoom` converts back to `w` |
| Viewport.Clamp | src/components/Canvas.tsx:159 | the result lies in [0.1, 10], equals its input inside that range, and is the nearer bound outside it |
| Viewport.WheelFactor | src/components/Canvas.tsx:158 | the step is 0.9 or 1.1, and it is below 1 exactly when deltaY > 0 |
| Viewport.Wheel | src/components/Canvas.tsx:156-181 | the new zoom lies in [0.1, 10]; the world point under the pointer is unchanged; the zoom falls for deltaY > 0 and rises otherwise; the new zoom is the wheel step clamped to [0.1, 10], so an unclamped step multiplies the zoom exactly |
| Viewport.Pan | src/components/Canvas.tsx:138-143 | the zoom is kept, and every world point moves on screen by exactly the pointer movement |
| Viewport.NodeLayerPosition | src/components/Nodes.tsx:90-106 | container translate `offset·zoom` plus node translate `p·zoom` is the raster layer's `(p + offset)·zoom` |
| Viewport.LineWidth | src/components/Canvas.tsx:87 | the stroke width `2/zoom` times the zoom is always 2 screen pixels |
| Strokes.Polyline | src/components/Canvas.tsx:68-76 | a path of fewer than two points paints nothing; otherwise one segment joins each consecutive pair of points, in order |
| Strokes.DrawPath | src/components/Canvas.tsx:68-76 | the moveTo/lineTo loop paints exactly `Polyline(path)` |
| Strokes.AllSegmentsAppend | src/components/Canvas.tsx:92 | drawing paths one after another paints the first list's segments, then the second's, so adding paths never alters what earlier paths paint |
| Strokes.SinglePointPathInvisible | src/components/Canvas.tsx:69 | committing a single-point stroke leaves the painted picture unchanged |
| Strokes.Project | src/components/Canvas.tsx:83-85 | the scale-then-translate transform maps each segment's endpoints to screen, one for one and in order |
| Strokes.RedrawCanvas | src/components/Canvas.tsx:78-96 | the redraw loop paints the history in order and then the open stroke, all mapped to screen |
| Strokes.ExtendAllAppends | src/components/Canvas.tsx:134-137 | a run of moves appends exactly their points to the open stroke and leaves the history alone |
| Strokes.StrokeRecordsEveryPoint | src/components/Canvas.tsx:112-154 | a down, moves, up gesture appends exactly one path (the press point, then each move's point) and keeps the earlier paths |
| Strokes.CommitKeepsFrame | src/components/Canvas.tsx:147-150 | committing the open stroke does not change the redrawn picture |
| Nodes.Appended | src/components/Nodes.tsx:58-67 | one node is appended at the end with the given x, y, id, content "New Node" and selected = false; earlier nodes are unchanged |
| Nodes.SelectedOnly | src/components/Nodes.tsx:69-75 | length, order, ids, positions and contents are kept, and a node is selected exactly when its id is the target |
| Nodes.Deselected | src/components/Nodes.tsx:77-83 | the same nodes, none of them selected |
| Nodes.SelectNothingIsDeselectAll | src/components/Nodes.tsx:69-83 | `selectNode(null)` gives the same list as `deselectAll()` |
| Nodes.DeselectIdempotent | src/components/Nodes.tsx:77-83 | deselecting twice equals deselecting once |
| Nodes.AtMostOneSelected | src/components/Nodes.tsx:69-73 | with distinct ids, at most one node is selected after `selectNode` |
| Nodes.ClickToggles | src/components/Nodes.tsx:28-31 | clicking a selected node leaves none selected; clicking an unselected node selects it, and with distinct ids only it |
| Nodes.Placements | src/components/Nodes.tsx:90-111 | every node is rendered exactly once, in list order, at `ToScreen` of its world position, scaled by the zoom and highlighted when selected |
| Nodes.NodeStore.constructor | src/components/Nodes.tsx:56 | the node list starts empty |
| Nodes.NodeStore.AddNode | src/components/Nodes.tsx:58-67 | the list becomes `Appended(old list, id, x, y)` |
| Nodes.NodeStore.SelectNode | src/components/Nodes.tsx:69-75 | the list becomes `SelectedOnly(old list, id)`, and the id is reported to `onNodeSelect` |
| Nodes.NodeStore.DeselectAll | src/components/Nodes.tsx:77-83 | the list becomes `Deselected(old list)`, and null is reported to `onNodeSelect` |
| Nodes.NodeStore.ClickNode | src/components/Nodes.tsx:28-31 | a node click calls `selectNode` with null for a selected node and with its own id otherwise |
| Editor.MouseDown | src/components/Canvas.tsx:112-126 | the pen opens a stroke of exactly the pointer's world point; the hand sets isPanning; the pin appends one node at that point and switches to the hand; every node is then deselected and selectedNode is null; the view never changes |
| Editor.MouseMove | src/components/Canvas.tsx:132-145 | a move never changes the mode or the nodes; with the pen and an open stroke it appends one world point; with the hand while panning it adds movement/zoom to the offset; otherwise nothing changes |
| Editor.MouseUp | src/components/Canvas.tsx:147-154 | with the pen, the open stroke is appended to the history unchanged (even a single point) and cleared; with the hand, isPanning is cleared; otherwise nothing changes |
| Editor.WheelZoom | src/components/Canvas.tsx:156-181 | only the view changes, and it becomes `Viewport.Wheel` of the old view: the zoom is the clamped 0.9/1.1 step, and the pointer's world point is kept |
| Editor.NodeClick | src/components/Nodes.tsx:28-31 | a click on node k runs `selectNode` with null for a selected node and with its id otherwise: every node is selected exactly when its id is that target, so clicking a selected node clears all flags; the target is recorded in selectedNode; the nodes' other fields are kept; a click that hits no node changes nothing |
| Editor.KeyDown | src/components/Canvas.tsx:195-200 | Delete with a non-empty selected id clears selectedNode; any other key, and Delete with no or an empty selection, changes nothing; the node list is never touched |
| Editor.Step | src/components/Canvas.tsx:209-231 | zoom stays in [0.1, 10]; the mode changes only by a tool button or by placing a node, which sets the hand; the view changes only by the wheel or a panning move; paths and nodes only grow |
| Editor.Run | src/components/Canvas.tsx:51-58 | from any valid state, and so from the initial one, every event sequence keeps zoom in [0.1, 10], keeps the stroke history append-only and never loses or moves a placed node |
| Editor.RunAppend | src/components/Canvas.tsx:209-218 | handling two event sequences in turn is handling their concatenation |
| Editor.PanningMovesAccumulate | src/components/Canvas.tsx:138-143 | while panning, a run of moves adds the total movement divided by the zoom to the offset, and changes nothing else |
| Editor.DrawingMovesExtend | src/components/Canvas.tsx:134-137 | with the pen and an open stroke, a run of moves appends each pointer's world point in order, and changes nothing else |
| Editor.PenGestureRecordsStroke | src/components/Canvas.tsx:112-154 | a pen press, moves and release add exactly one path: the press point, then every move's point, in world coordinates; earlier paths, the view and the mode are kept |
| Editor.PlacedNodeUnderPointer | src/components/Canvas.tsx:118-120 | a node placed with the pin is rendered by the node layer exactly under the pointer that placed it |
| Editor.CanvasEditor.constructor | src/components/Canvas.tsx:51-58 | initial state: hand tool, zoom 1, offset (0,0), no strokes, no nodes, no selection |
| Editor.CanvasEditor.HandleMouseDown | src/components/Canvas.tsx:112-126 | the new state is `MouseDown` of the old one |
| Editor.CanvasEditor.HandleMouseMove | src/components/Canvas.tsx:132-145 | the new state is `MouseMove` of the old one |
| Editor.CanvasEditor.HandleMouseUp | src/components/Canvas.tsx:147-154 | the new state is `MouseUp` of the old one; it is also the mouse-leave handler |
| Editor.CanvasEditor.HandleWheel | src/components/Canvas.tsx:156-181 | the new state is `WheelZoom` of the old one |
| Editor.CanvasEditor.SelectTool | src/components/Canvas.tsx:227-229 | a tool button sets the mode and nothing else |
| Editor.CanvasEditor.HandleNodeClick | src/components/Canvas.tsx:128-130 | the new state is `NodeClick` of the old one |
| Editor.CanvasEditor.HandleKeyDown | src/components/Canvas.tsx:195-200 | the new state is `KeyDown` of the old one |
| Editor.CanvasEditor.Redraw | src/components/Canvas.tsx:78-96 | redrawing paints `Frame` of the current view, history and open stroke |
| NodesV005.Appended | prompts/Canvas/versions/0.0.5/Nodes.tsx:46-54 | one node is appended with the given position and content "New Node"; the length grows by 1; earlier nodes and their order are unchanged |
| NodesV005.OnlyGrows | prompts/Canvas/versions/0.0.5/Nodes.tsx:44-54 | any sequence of `addNode` calls only appends, one node per call, in call order |
| NodesV005.Placements | prompts/Canvas/versions/0.0.5/Nodes.tsx:60-80 | every node is rendered exactly once, in list order, at `(x + offset)·zoom` |
| CanvasV005.MouseDown | prompts/Canvas/versions/0.0.5/Canvas.tsx:101-112 | without a tool nothing changes; the pen opens a one-point stroke; the hand sets isPanning; the pin appends a node at the world pointer and resets the mode to null |
| CanvasV005.MouseMove | prompts/Canvas/versions/0.0.5/Canvas.tsx:114-127 | appends one world point to an open stroke with the pen; pans by movement/zoom only with the hand while panning; never changes mode, isPanning or nodes |
| CanvasV005.MouseUp | prompts/Canvas/versions/0.0.5/Canvas.tsx:129-136 | commits the open stroke and clears the slot with the pen; clears isPanning with the hand |
| CanvasV005.Step | prompts/Canvas/versions/0.0.5/Canvas.tsx:177-196 | zoom stays in range; the wheel keeps the pointer's world point; the mode changes only by a button or by placing a node (to null); the view changes only by the wheel or a panning move; strokes and nodes only grow |
| CanvasV005.Run | prompts/Canvas/versions/0.0.5/Canvas.tsx:41-46 | any event sequence keeps the zoom in [0.1, 10] and only appends strokes and nodes |
| CanvasV005.NoToolIsInert | prompts/Canvas/versions/0.0.5/Canvas.tsx:101-136 | with no tool chosen, any presses, moves, releases and leaves change nothing |
| CanvasV005.Canvas.constructor | prompts/Canvas/versions/0.0.5/Canvas.tsx:41-46 | initial state: mode null, zoom 1, offset (0,0), nothing drawn or placed |
| CanvasV005.Canvas.HandleMouseDown | prompts/Canvas/versions/0.0.5/Canvas.tsx:101-112 | the new state is `MouseDown` of the old one |
| CanvasV005.Canvas.HandleMouseMove | prompts/Canvas/versions/0.0.5/Canvas.tsx:114-127 | the new state is `MouseMove` of the old one |
| CanvasV005.Canvas.HandleMouseUp | prompts/Canvas/versions/0.0.5/Canvas.tsx:129-136 | the new state is `MouseUp` of the old one; it is also the mouse-leave handler |
| CanvasV005.Canvas.HandleWheel | prompts/Canvas/versions/0.0.5/Canvas.tsx:138-163 | only the view changes, as `Viewport.Wheel` states |
| CanvasV005.Canvas.SelectTool | prompts/Canvas/versions/0.0.5/Canvas.tsx:192-196 | a tool button sets the mode and nothing else |
| CanvasV004.MouseDown | prompts/Canvas/versions/0.0.4/0.0.4.tsx:77-84 | without a tool nothing changes; the pen opens a one-point stroke; the hand sets isPanning |
| CanvasV004.MouseMove | prompts/Canvas/versions/0.0.4/0.0.4.tsx:86-99 | appends one world point to an open stroke with the pen; pans by movement/zoom only with the hand while panning; otherwise nothing changes |
| CanvasV004.MouseUp | prompts/Canvas/versions/0.0.4/0.0.4.tsx:101-108 | commits the open stroke and clears the slot with the pen; clears isPanning with the hand |
| CanvasV004.Step | prompts/Canvas/versions/0.0.4/0.0.4.tsx:145-159 | zoom stays in range; the mode changes only by the two buttons; the view changes only by the wheel or a panning move; the history only grows |
| CanvasV004.Run | prompts/Canvas/versions/0.0.4/0.0.4.tsx:32-37 | any event sequence keeps the zoom in range and the history append-only, and without a button press keeps the mode |
| CanvasV004.Canvas.constructor | prompts/Canvas/versions/0.0.4/0.0.4.tsx:32-37 | initial state: mode null, zoom 1, offset (0,0), nothing drawn |
| CanvasV004.Canvas.HandleMouseDown | prompts/Canvas/versions/0.0.4/0.0.4.tsx:77-84 | the new state is `MouseDown` of the old one |
| CanvasV004.Canvas.HandleMouseMove | prompts/Canvas/versions/0.0.4/0.0.4.tsx:86-99 | the new state is `MouseMove` of the old one |
| CanvasV004.Canvas.HandleMouseUp | prompts/Canvas/versions/0.0.4/0.0.4.tsx:101-108 | the new state is `MouseUp` of the old one; it is also the mouse-leave handler |
| CanvasV004.Canvas.HandleWheel | prompts/Canvas/versions/0.0.4/0.0.4.tsx:110-135 | only the view changes, as `Viewport.Wheel` states |
| CanvasV004.Canvas.SelectTool | prompts/Canvas/versions/0.0.4/0.0.4.tsx:156-159 | the hand and pen buttons set the mode and nothing else |
| CanvasV002.MouseDown | prompts/Canvas/versions/0.0.2/0.0.2.tsx:44-51 | records startPos, and sets isPanning only with the hand |
| CanvasV002.MouseMove | prompts/Canvas/versions/0.0.2/0.0.2.tsx:54-81 | without a press nothing changes; with the pen and not panning, appends one segment from startPos − offset to pos − offset and advances startPos; with the hand while panning, adds pos − startPos to the offset and advances startPos |
| CanvasV002.MouseUp | prompts/Canvas/versions/0.0.2/0.0.2.tsx:85-88 | clears both startPos and isPanning, and nothing else |
| CanvasV002.MovesWithoutPressInert | prompts/Canvas/versions/0.0.2/0.0.2.tsx:55 | with no press active, any run of moves changes nothing |
| CanvasV002.DrawGestureChains | prompts/Canvas/versions/0.0.2/0.0.2.tsx:59-68 | a pen drag appends one segment per move and never changes the offset; each segment runs from the previous pointer to the current one, relative to the offset, and shifted back by the offset it ends under the pointer |
| CanvasV002.SegmentsChain | prompts/Canvas/versions/0.0.2/0.0.2.tsx:59-68 | in a pen drag each stored segment ends where the next begins |
| CanvasV002.PanGestureTelescopes | prompts/Canvas/versions/0.0.2/0.0.2.tsx:69-78 | over a hand drag the offset grows by exactly the final pointer minus the press pointer, and no segment is stored |
| CanvasV002.RedrawCanvas | prompts/Canvas/versions/0.0.2/0.0.2.tsx:90-110 | every stored segment is drawn once, in order, at its stored position plus the offset |
| CanvasV002.Canvas.constructor | prompts/Canvas/versions/0.0.2/0.0.2.tsx:30-34 | initial state: mode null, no press, offset (0,0), no segments, not panning |
| CanvasV002.Canvas.HandleMouseDown | prompts/Canvas/versions/0.0.2/0.0.2.tsx:44-51 | the new state is `MouseDown` of the old one |
| CanvasV002.Canvas.HandleMouseMove | prompts/Canvas/versions/0.0.2/0.0.2.tsx:54-81 | the new state is `MouseMove` of the old one |
| CanvasV002.Canvas.HandleMouseUp | prompts/Canvas/versions/0.0.2/0.0.2.tsx:85-88 | the new state is `MouseUp` of the old one |
| CanvasV002.Canvas.SelectTool | prompts/Canvas/versions/0.0.2/0.0.2.tsx:127-133 | the hand and pen buttons set the mode and nothing else |
| CanvasV001.MouseDown | prompts/Canvas/versions/0.0.1/0.0.1.tsx:39-42 | sets startPos to the canvas-relative pointer position, whatever the tool |
| CanvasV001.MouseMove | prompts/Canvas/versions/0.0.1/0.0.1.tsx:44-76 | without a press or without a tool nothing changes; the pen logs one segment from startPos − offset to pos − offset; the hand adds pos − startPos to the offset; both set startPos := pos |
| CanvasV001.MouseUp | prompts/Canvas/versions/0.0.1/0.0.1.tsx:78-80 | clears startPos when a tool is chosen; the listener is not attached otherwise (lines 114-127) |
| CanvasV001.ReleaseEndsGesture | prompts/Canvas/versions/0.0.1/0.0.1.tsx:78-80 | after a release, moves are no-ops until the next press |
| CanvasV001.DrawGestureChains | prompts/Canvas/versions/0.0.1/0.0.1.tsx:49-63 | a pen drag logs one segment per move and never changes the offset; each segment runs from the previous pointer to the current one, relative to the offset |
| CanvasV001.SegmentsChain | prompts/Canvas/versions/0.0.1/0.0.1.tsx:54-60 | in a pen drag each logged segment ends where the next begins |
| CanvasV001.PanGestureTelescopes | prompts/Canvas/versions/0.0.1/0.0.1.tsx:64-75 | over a hand drag the offset grows by exactly the final pointer minus the press pointer, and nothing is logged |
| CanvasV001.Shown | prompts/Canvas/versions/0.0.1/0.0.1.tsx:82-93 | the buffer image is shown at the offset, one shown segment per logged segment; where each segment appears is stated by `CanvasV001.PaintedUnderPointer` |
| CanvasV001.PaintedUnderPointer | prompts/Canvas/versions/0.0.1/0.0.1.tsx:54-61 | after the buffer is copied at the offset, a segment painted by a pen move is shown exactly from the previous pointer position to the new one |
| CanvasV001.Canvas.constructor | prompts/Canvas/versions/0.0.1/0.0.1.tsx:24-26 | initial state: mode null, no press, offset (0,0), empty buffer |
| CanvasV001.Canvas.HandleMouseDown | prompts/Canvas/versions/0.0.1/0.0.1.tsx:39-42 | the new state is `MouseDown` of the old one |
| CanvasV001.Canvas.HandleMouseMove | prompts/Canvas/versions/0.0.1/0.0.1.tsx:44-76 | the new state is `MouseMove` of the old one |
| CanvasV001.Canvas.HandleMouseUp | prompts/Canvas/versions/0.0.1/0.0.1.tsx:78-80 | the new state is `MouseUp` of the old one |
| CanvasV001.Canvas.SelectTool | prompts/Canvas/versions/0.0.1/0.0.1.tsx:95-101 | the hand and pen buttons set the mode and nothing else |

## Left out

- DOM input: events carry canvas-relative screen points. The subtraction of
  `getBoundingClientRect()` is done by the caller, and so is `e.movementX/Y` for panning moves.
  `preventDefault` and the registration of the wheel, resize and keydown listeners are not
  modelled. In 0.0.1 the null-canvas fallback of `getCanvasCoordinates` (which returns (0,0)) is
  not modelled.
- Canvas 2D calls: a redraw is modelled as the list of straight segments it strokes, in screen
  coordinates. Colours, caps, joins, `save`/`restore`, canvas resizing and clipping to the canvas
  or 0.0.1's buffer size are not modelled.
- IEEE doubles: coordinates are `real`. The round-trip and anchoring identities hold only
  approximately for doubles.
- React scheduling: `setState` is asynchronous and batched, and handlers read state from their
  render's closure. So `redrawCanvas()` inside a handler paints the state before that handler's
  updates, and `resizeCanvas` is memoised over the first render. Each handler is modelled as one
  atomic transition, and a redraw as a function of the current state.
- Editor.KeyDown: the handler also calls `nodesRef.current.deleteNode(selectedNode)`
  (`src/components/Canvas.tsx:197`). The node layer's handle declares no such member
  (`src/components/Nodes.tsx:50-53`), so at run time that call would raise before the selection
  is cleared. The model keeps only the clearing of `selectedNode` and leaves the node list as it
  is.
- Mounting: `nodesRef.current`, and in 0.0.1 the buffer canvas and its context, are taken to be
  present. The null checks around them are not modelled.
- Node ids: `Date.now()` is an opaque `newId` parameter of the mouse-down event. Uniqueness is
  not assumed. It is a hypothesis of `Nodes.AtMostOneSelected` and `Nodes.ClickToggles`.
- The debug `console.log` in 0.0.5's mouse-down handler, the incremental `drawLine` call in
  0.0.2's move handler, and the node boxes' padding, minimum size and styling are not modelled.
  The `drawLine` call paints the same segment that `RedrawCanvas` paints for it.
- The sidebar, the page component, the stand-alone hand and pen button components and the
  metrics server are outside this core.
