/**
 * The canvas page (app/canvas.tsx): the toolbar's drawing modes, the zoom level, what a
 * click on the empty canvas creates, and the sample flowcharts drawn at start-up.
 *
 * The graph library's graph is represented by `Graph`, whose nodes and edges are
 * sequences that its operations append to; a node is named by its index. The random
 * numbers the page draws are inputs.
 */
module Canvas {
  import opened Wrappers
  import opened Text
  import NodeStyle
  import ZoomControls

  type Rect = NodeStyle.Rect
  type Component = NodeStyle.Component

  // ---------------------------------------------------------------- toolbar modes

  datatype ToolbarMode = ArrowMode | StickyMode | TextMode | SectionMode

  datatype ToolbarState = ToolbarState(arrowMode: bool, stickyMode: bool, textMode: bool, sectionMode: bool)
  {
    /** `state[mode]`. */
    function Get(mode: ToolbarMode): bool {
      match mode
      case ArrowMode => arrowMode
      case StickyMode => stickyMode
      case TextMode => textMode
      case SectionMode => sectionMode
    }

    /** `state[mode] = b`. */
    function Set(mode: ToolbarMode, b: bool): (r: ToolbarState)
      ensures r.Get(mode) == b
      ensures forall other :: other != mode ==> r.Get(other) == Get(other)
    {
      match mode
      case ArrowMode => this.(arrowMode := b)
      case StickyMode => this.(stickyMode := b)
      case TextMode => this.(textMode := b)
      case SectionMode => this.(sectionMode := b)
    }
  }

  /** No mode active: the toolbar's initial state. */
  const AllModesOff: ToolbarState := ToolbarState(false, false, false, false)

  predicate AtMostOneActive(state: ToolbarState) {
    forall m, m' :: state.Get(m) && state.Get(m') ==> m == m'
  }

  /**
   * `setToolbarMode`: every mode off, then `mode` flipped from what it was. Choosing the
   * active mode turns everything off; choosing another makes it the only active one.
   */
  function SetToolbarMode(state: ToolbarState, mode: ToolbarMode): (r: ToolbarState)
    ensures AtMostOneActive(r)
    ensures state.Get(mode) ==> r == AllModesOff
    ensures !state.Get(mode) ==> r.Get(mode) && forall other :: other != mode ==> !r.Get(other)
  {
    AllModesOff.Set(mode, !state.Get(mode))
  }

  // ---------------------------------------------------------------- zoom

  const MinZoom: int := 25
  const MaxZoom: int := 200
  const ZoomStep: int := 10
  /** The zoom before any button is pressed, and the one `handleZoomReset` sets. */
  const DefaultZoom: int := 100

  /** `handleZoomIn`: `Math.min(prev + 10, 200)`. */
  function ZoomIn(prev: int): (zoom: int)
    ensures zoom <= MaxZoom && zoom <= prev + ZoomStep
    ensures zoom == MaxZoom || zoom == prev + ZoomStep
  {
    if prev + ZoomStep < MaxZoom then prev + ZoomStep else MaxZoom
  }

  /** `handleZoomOut`: `Math.max(prev - 10, 25)`. */
  function ZoomOut(prev: int): (zoom: int)
    ensures zoom >= MinZoom && zoom >= prev - ZoomStep
    ensures zoom == MinZoom || zoom == prev - ZoomStep
  {
    if prev - ZoomStep > MinZoom then prev - ZoomStep else MinZoom
  }

  predicate InZoomRange(zoom: int) {
    MinZoom <= zoom <= MaxZoom
  }

  /** From a zoom in range every handler, reset included, leads to a zoom in range. */
  lemma ZoomStaysInRange(zoom: int)
    requires InZoomRange(zoom)
    ensures InZoomRange(ZoomIn(zoom)) && InZoomRange(ZoomOut(zoom)) && InZoomRange(DefaultZoom)
  {
  }

  /**
   * The zoom controls disable a button exactly when its handler would leave the zoom
   * as it is, and the zoom buttons otherwise change it in their direction.
   */
  lemma ZoomButtonsMatchHandlers(zoom: int)
    requires InZoomRange(zoom)
    ensures ZoomControls.ZoomControls(zoom).zoomInDisabled <==> ZoomIn(zoom) == zoom
    ensures ZoomControls.ZoomControls(zoom).zoomOutDisabled <==> ZoomOut(zoom) == zoom
    ensures !ZoomControls.ZoomControls(zoom).zoomInDisabled ==> ZoomIn(zoom) > zoom
    ensures !ZoomControls.ZoomControls(zoom).zoomOutDisabled ==> ZoomOut(zoom) < zoom
  {
  }

  // ---------------------------------------------------------------- the graph

  datatype Point = Point(x: int, y: int)

  /** A group node (drawn by the group style), or an ordinary node with its bounds and React component. */
  datatype NodeShape = GroupShape | LeafShape(layout: Rect, style: Component)

  /** A node: its shape, its parent group if any, its labels and how many ports it has. */
  datatype GraphNode = GraphNode(shape: NodeShape, parent: Option<nat>, labels: seq<string>, ports: nat)

  datatype Edge = Edge(source: nat, target: nat)

  /** A port, named by the node it belongs to. */
  datatype Port = Port(owner: nat)

  datatype GraphModel = GraphModel(nodes: seq<GraphNode>, edges: seq<Edge>)

  /** A new group node, before it has a parent. */
  const NewGroup: GraphNode := GraphNode(GroupShape, None, [], 0)

  /**
   * Every edge goes from a node to a later one and every parent comes before its child.
   * The operations of this page keep it, so their graphs have no cycle (`OrderedHasNoCycle`).
   */
  ghost predicate Ordered(g: GraphModel) {
    (forall e :: e in g.edges ==> e.source < e.target < |g.nodes|)
    && (forall i :: 0 <= i < |g.nodes| && g.nodes[i].parent.Some? ==> g.nodes[i].parent.value < i)
  }

  /** A sequence of at least two nodes, each joined to the next by an edge. */
  ghost predicate IsPath(edges: seq<Edge>, path: seq<nat>) {
    |path| >= 2 && forall i :: 0 <= i < |path| - 1 ==> Edge(path[i], path[i + 1]) in edges
  }

  /** In an ordered graph every path ends at a later node than it starts at, so none is a cycle. */
  lemma {:induction false} OrderedHasNoCycle(g: GraphModel, path: seq<nat>)
    requires Ordered(g) && IsPath(g.edges, path)
    ensures path[0] < path[|path| - 1]
  {
    assert Edge(path[0], path[1]) in g.edges;
    if |path| > 2 {
      assert IsPath(g.edges, path[1..]) by {
        forall i | 0 <= i < |path[1..]| - 1
          ensures Edge(path[1..][i], path[1..][i + 1]) in g.edges
        {
          assert Edge(path[i + 1], path[i + 2]) in g.edges;
        }
      }
      OrderedHasNoCycle(g, path[1..]);
    }
  }

  /** The graph library's graph, with the operations the page calls on it. */
  class Graph {
    var nodes: seq<GraphNode>
    var edges: seq<Edge>

    constructor ()
      ensures nodes == [] && edges == []
    {
      nodes, edges := [], [];
    }

    function Model(): GraphModel
      reads this
    {
      GraphModel(nodes, edges)
    }

    /** `createNode(layout, style)`: a new ordinary node without parent, label or port. */
    method CreateNode(layout: Rect, style: Component) returns (node: nat)
      modifies this
      ensures node == |old(nodes)|
      ensures nodes == old(nodes) + [GraphNode(LeafShape(layout, style), None, [], 0)] && edges == old(edges)
    {
      node := |nodes|;
      nodes := nodes + [GraphNode(LeafShape(layout, style), None, [], 0)];
    }

    /** `createGroupNode()`. */
    method CreateGroupNode() returns (node: nat)
      modifies this
      ensures node == |old(nodes)|
      ensures nodes == old(nodes) + [NewGroup] && edges == old(edges)
    {
      node := |nodes|;
      nodes := nodes + [NewGroup];
    }

    /** `setParent(node, parent)`. */
    method SetParent(node: nat, parent: nat)
      requires node < |nodes| && parent < |nodes|
      modifies this
      ensures nodes == old(nodes)[node := old(nodes)[node].(parent := Some(parent))] && edges == old(edges)
    {
      nodes := nodes[node := nodes[node].(parent := Some(parent))];
    }

    /** `addLabel(node, text)`. */
    method AddLabel(node: nat, text: string)
      requires node < |nodes|
      modifies this
      ensures nodes == old(nodes)[node := old(nodes)[node].(labels := old(nodes)[node].labels + [text])]
      ensures edges == old(edges)
    {
      nodes := nodes[node := nodes[node].(labels := nodes[node].labels + [text])];
    }

    /** `addPort(node)`. */
    method AddPort(node: nat) returns (port: Port)
      requires node < |nodes|
      modifies this
      ensures port == Port(node)
      ensures nodes == old(nodes)[node := old(nodes)[node].(ports := old(nodes)[node].ports + 1)]
      ensures edges == old(edges)
    {
      nodes := nodes[node := nodes[node].(ports := nodes[node].ports + 1)];
      port := Port(node);
    }

    /** `createEdge(source, target)`, between two nodes or between the ports of two nodes. */
    method CreateEdge(source: nat, target: nat)
      requires source < |nodes| && target < |nodes|
      modifies this
      ensures nodes == old(nodes) && edges == old(edges) + [Edge(source, target)]
    {
      edges := edges + [Edge(source, target)];
    }
  }

  // ---------------------------------------------------------------- canvas clicks

  datatype ClickAction = CreateArrow | CreateSticky | CreateText | CreateNothing

  /** The first active mode in the order arrow, sticky, text decides; section mode creates nothing. */
  function ClickActionFor(toolbar: ToolbarState): (action: ClickAction)
    ensures action == CreateArrow <==> toolbar.arrowMode
    ensures action == CreateSticky <==> !toolbar.arrowMode && toolbar.stickyMode
    ensures action == CreateText <==> !toolbar.arrowMode && !toolbar.stickyMode && toolbar.textMode
    ensures action == CreateNothing <==> !toolbar.arrowMode && !toolbar.stickyMode && !toolbar.textMode
  {
    if toolbar.arrowMode then CreateArrow
    else if toolbar.stickyMode then CreateSticky
    else if toolbar.textMode then CreateText
    else CreateNothing
  }

  /** After `setToolbarMode` turns a mode on the priority order plays no part: a click does what the one active mode says. */
  lemma ClickFollowsChosenMode(state: ToolbarState, mode: ToolbarMode)
    requires !state.Get(mode)
    ensures ClickActionFor(SetToolbarMode(state, mode)) ==
      match mode
      case ArrowMode => CreateArrow
      case StickyMode => CreateSticky
      case TextMode => CreateText
      case SectionMode => CreateNothing
  {
  }

  /** With the toolbar as the page starts, every mode off, a click creates nothing. */
  lemma InitialToolbarCreatesNothing()
    ensures ClickActionFor(AllModesOff) == CreateNothing
  {
  }

  const ArrowLength: int := 150

  /** The bounds of a sticky note created by a click at `p`. */
  function StickyRect(p: Point): Rect {
    NodeStyle.Rect(p.x - 75, p.y - 50, 200, 250)
  }

  /** The bounds of a text box created by a click at `p`. */
  function TextRect(p: Point): Rect {
    NodeStyle.Rect(p.x - 100, p.y - 25, 200, 50)
  }

  predicate Contains(r: Rect, p: Point) {
    r.x <= p.x <= r.x + r.width && r.y <= p.y <= r.y + r.height
  }

  /** Both shapes lie under the click; the text box is centred on it. */
  lemma ClickedShapesCoverClick(p: Point)
    ensures Contains(StickyRect(p), p) && Contains(TextRect(p), p)
    ensures 2 * TextRect(p).x + TextRect(p).width == 2 * p.x && 2 * TextRect(p).y + TextRect(p).height == 2 * p.y
  {
  }

  const StickyLabel: string := "Double-click to edit Sticky"
  const TextLabel: string := "Double-click to edit"

  /**
   * The `canvas-clicked` handler. Arrow mode: two 1-by-1 nodes, at the click and 150 to
   * its right, each with a port, and one edge from the first to the second. Sticky and
   * text mode: one node with its component and label. Otherwise nothing.
   */
  method HandleCanvasClicked(graph: Graph, toolbar: ToolbarState, location: Point)
    modifies graph
    ensures var n := |old(graph.nodes)|;
      match ClickActionFor(toolbar)
      case CreateArrow =>
        graph.nodes == old(graph.nodes) + [
          GraphNode(LeafShape(NodeStyle.Rect(location.x, location.y, 1, 1), NodeStyle.NodeTemplateComponent), None, [], 1),
          GraphNode(LeafShape(NodeStyle.Rect(location.x + ArrowLength, location.y, 1, 1), NodeStyle.NodeTemplateComponent), None, [], 1)]
        && graph.edges == old(graph.edges) + [Edge(n, n + 1)]
      case CreateSticky =>
        graph.nodes == old(graph.nodes) + [GraphNode(LeafShape(StickyRect(location), NodeStyle.StickyNoteComponent), None, [StickyLabel], 0)]
        && graph.edges == old(graph.edges)
      case CreateText =>
        graph.nodes == old(graph.nodes) + [GraphNode(LeafShape(TextRect(location), NodeStyle.TextNoteComponent), None, [TextLabel], 0)]
        && graph.edges == old(graph.edges)
      case CreateNothing =>
        graph.nodes == old(graph.nodes) && graph.edges == old(graph.edges)
    ensures Ordered(old(graph.Model())) ==> Ordered(graph.Model())
  {
    ghost var g0 := graph.Model();
    if toolbar.arrowMode {
      var node1 := graph.CreateNode(NodeStyle.Rect(location.x, location.y, 1, 1), NodeStyle.NodeTemplateComponent);
      var port1 := graph.AddPort(node1);
      var node2 := graph.CreateNode(NodeStyle.Rect(location.x + ArrowLength, location.y, 1, 1), NodeStyle.NodeTemplateComponent);
      var port2 := graph.AddPort(node2);
      graph.CreateEdge(port1.owner, port2.owner);
      OrderedAfterClick(g0, graph.Model());
    } else if toolbar.stickyMode {
      var node := graph.CreateNode(StickyRect(location), NodeStyle.StickyNoteComponent);
      graph.AddLabel(node, StickyLabel);
      assert [] + [StickyLabel] == [StickyLabel];
      OrderedAfterClick(g0, graph.Model());
    } else if toolbar.textMode {
      var node := graph.CreateNode(TextRect(location), NodeStyle.TextNoteComponent);
      graph.AddLabel(node, TextLabel);
      assert [] + [TextLabel] == [TextLabel];
      OrderedAfterClick(g0, graph.Model());
    }
  }

  /** Appending parentless nodes and forward edges between nodes keeps a graph ordered. */
  lemma OrderedAfterClick(g0: GraphModel, g: GraphModel)
    requires |g.nodes| >= |g0.nodes| && g.nodes[..|g0.nodes|] == g0.nodes
    requires |g.edges| >= |g0.edges| && g.edges[..|g0.edges|] == g0.edges
    requires forall i :: |g0.nodes| <= i < |g.nodes| ==> g.nodes[i].parent == None
    requires forall j :: |g0.edges| <= j < |g.edges| ==> g.edges[j].source < g.edges[j].target < |g.nodes|
    ensures Ordered(g0) ==> Ordered(g)
  {
    if Ordered(g0) {
      forall e | e in g.edges ensures e.source < e.target < |g.nodes| {
        var j :| 0 <= j < |g.edges| && g.edges[j] == e;
        if j < |g0.edges| {
          assert g0.edges[j] == e;
        }
      }
      forall i | 0 <= i < |g.nodes| && g.nodes[i].parent.Some? ensures g.nodes[i].parent.value < i {
        assert i < |g0.nodes| && g0.nodes[i] == g.nodes[i];
      }
    }
  }

  // ---------------------------------------------------------------- sample flowcharts

  const ColumnSpacing: int := 120
  const RowSpacing: int := 80
  const RowOffset: int := 40
  const StepWidth: int := 100
  const StepHeight: int := 60

  /** The bounds of step `i` of a flowchart placed at `position`: three to a row, rows top to bottom. */
  function FlowchartCell(position: Point, i: nat): Rect {
    NodeStyle.Rect(position.x + (i % 3) * ColumnSpacing, position.y + (i / 3) * RowSpacing + RowOffset, StepWidth, StepHeight)
  }

  predicate Disjoint(a: Rect, b: Rect) {
    a.x + a.width <= b.x || b.x + b.width <= a.x || a.y + a.height <= b.y || b.y + b.height <= a.y
  }

  /**
   * Two steps of one flowchart never overlap and never share a position: the columns are
   * 120 apart for 100-wide nodes, the rows 80 apart for 60-high nodes.
   */
  lemma FlowchartCellsDisjoint(position: Point, i: nat, j: nat)
    requires i != j
    ensures Disjoint(FlowchartCell(position, i), FlowchartCell(position, j))
    ensures FlowchartCell(position, i).x != FlowchartCell(position, j).x || FlowchartCell(position, i).y != FlowchartCell(position, j).y
  {
    if i % 3 == j % 3 {
      assert i == 3 * (i / 3) + i % 3 && j == 3 * (j / 3) + j % 3;
      assert i / 3 != j / 3;
    }
  }

  function StepLabel(i: nat): string {
    "Step " + NatToString(i + 1)
  }

  /** Step `i` of a flowchart whose group node is `group`. */
  function FlowchartStep(group: nat, position: Point, i: nat): GraphNode {
    GraphNode(LeafShape(FlowchartCell(position, i), NodeStyle.NodeTemplateComponent), Some(group), [StepLabel(i)], 0)
  }

  /** The group node of a flowchart under `parent`, followed by its first `count` steps. */
  function FlowchartNodes(group: nat, position: Point, parent: nat, count: nat): (ns: seq<GraphNode>)
    ensures |ns| == count + 1 && ns[0] == NewGroup.(parent := Some(parent))
    ensures forall i :: 0 <= i < count ==> ns[i + 1] == FlowchartStep(group, position, i)
  {
    [NewGroup.(parent := Some(parent))] + seq(count, i requires 0 <= i < count => FlowchartStep(group, position, i))
  }

  lemma FlowchartNodesGrow(group: nat, position: Point, parent: nat, count: nat)
    ensures FlowchartNodes(group, position, parent, count + 1) == FlowchartNodes(group, position, parent, count) + [FlowchartStep(group, position, count)]
  {
  }

  /**
   * The edges of round `i` of the edge loop of a flowchart with `count` steps starting at
   * node `first`: to the next step, and to the step after it when that round's random
   * draw came out true and `i < count - 2`.
   */
  function RoundEdges(first: nat, count: nat, branch: seq<bool>, i: nat): seq<Edge>
    requires i < |branch|
  {
    [Edge(first + i, first + i + 1)] + (if branch[i] && i < count - 2 then [Edge(first + i, first + i + 2)] else [])
  }

  /** The edges of the first `rounds` rounds, in the order they are created. */
  function FlowchartEdges(first: nat, count: nat, branch: seq<bool>, rounds: nat): seq<Edge>
    requires rounds <= |branch|
  {
    if rounds == 0 then [] else FlowchartEdges(first, count, branch, rounds - 1) + RoundEdges(first, count, branch, rounds - 1)
  }

  /** Every edge of a flowchart goes from one of its steps to a later one. */
  lemma {:induction false} FlowchartEdgesForward(first: nat, count: nat, branch: seq<bool>, rounds: nat)
    requires rounds <= |branch| && rounds < count
    ensures forall e :: e in FlowchartEdges(first, count, branch, rounds) ==> first <= e.source < e.target < first + count
  {
    if rounds > 0 {
      FlowchartEdgesForward(first, count, branch, rounds - 1);
    }
  }

  /**
   * The edges of a flowchart are exactly the chain edges from each step of the rounds run
   * to the next, and the branch edges two steps on where the draw was true and `i < count - 2`.
   */
  lemma {:induction false} FlowchartEdgesExactly(first: nat, count: nat, branch: seq<bool>, rounds: nat, e: Edge)
    requires rounds <= |branch|
    ensures e in FlowchartEdges(first, count, branch, rounds) <==>
      first <= e.source < first + rounds
      && (e.target == e.source + 1
          || (e.target == e.source + 2 && branch[e.source - first] && e.source - first < count - 2))
  {
    if rounds > 0 {
      FlowchartEdgesExactly(first, count, branch, rounds - 1, e);
    }
  }

  /** How many of `edges` go from a node to the next one. */
  function ChainEdgeCount(edges: seq<Edge>): nat {
    if edges == [] then 0
    else ChainEdgeCount(edges[..|edges| - 1]) + (if edges[|edges| - 1].target == edges[|edges| - 1].source + 1 then 1 else 0)
  }

  lemma {:induction false} ChainEdgeCountAppend(a: seq<Edge>, b: seq<Edge>)
    ensures ChainEdgeCount(a + b) == ChainEdgeCount(a) + ChainEdgeCount(b)
    decreases |b|
  {
    if b == [] {
      assert a + b == a;
    } else {
      assert (a + b)[..|a + b| - 1] == a + b[..|b| - 1];
      ChainEdgeCountAppend(a, b[..|b| - 1]);
    }
  }

  /** Each round adds exactly one chain edge: a flowchart of `count` steps has `count - 1` of them. */
  lemma {:induction false} FlowchartChainEdgeCount(first: nat, count: nat, branch: seq<bool>, rounds: nat)
    requires rounds <= |branch|
    ensures ChainEdgeCount(FlowchartEdges(first, count, branch, rounds)) == rounds
  {
    if rounds > 0 {
      var i := rounds - 1;
      FlowchartChainEdgeCount(first, count, branch, i);
      ChainEdgeCountAppend(FlowchartEdges(first, count, branch, i), RoundEdges(first, count, branch, i));
      var chain := [Edge(first + i, first + i + 1)];
      assert ChainEdgeCount(chain) == 1 by {
        assert chain[..0] == [];
      }
      if branch[i] && i < count - 2 {
        var skip := [Edge(first + i, first + i + 2)];
        assert ChainEdgeCount(skip) == 0 by {
          assert skip[..0] == [];
        }
        ChainEdgeCountAppend(chain, skip);
      } else {
        assert RoundEdges(first, count, branch, i) == chain;
      }
    }
  }

  /** Where a flowchart goes and which section group it belongs to. */
  datatype Placement = Placement(position: Point, parent: nat)

  /**
   * What `createFlowchart` does to a graph: with `roll` the value of
   * `Math.floor(Math.random() * 6)` there are `roll + 5` steps, and `branch` holds the
   * `Math.random() > 0.7` draws of the `roll + 4` rounds of the edge loop.
   */
  function AddFlowchart(g: GraphModel, placement: Placement, roll: nat, branch: seq<bool>): (r: GraphModel)
    requires |branch| == roll + 4
    ensures |r.nodes| == |g.nodes| + roll + 6 && r.nodes[..|g.nodes|] == g.nodes
    ensures |r.edges| >= |g.edges| && r.edges[..|g.edges|] == g.edges
  {
    GraphModel(
      g.nodes + FlowchartNodes(|g.nodes|, placement.position, placement.parent, roll + 5),
      g.edges + FlowchartEdges(|g.nodes| + 1, roll + 5, branch, roll + 4))
  }

  /** A flowchart added under an existing node keeps a graph ordered. */
  lemma AddFlowchartOrdered(g: GraphModel, placement: Placement, roll: nat, branch: seq<bool>)
    requires |branch| == roll + 4 && Ordered(g) && placement.parent < |g.nodes|
    ensures Ordered(AddFlowchart(g, placement, roll, branch))
  {
    var r := AddFlowchart(g, placement, roll, branch);
    var n := |g.nodes|;
    var added := FlowchartEdges(n + 1, roll + 5, branch, roll + 4);
    FlowchartEdgesForward(n + 1, roll + 5, branch, roll + 4);
    forall e | e in r.edges ensures e.source < e.target < |r.nodes| {
      if e !in g.edges {
        assert e in added;
      }
    }
    var ns := FlowchartNodes(n, placement.position, placement.parent, roll + 5);
    forall i | 0 <= i < |r.nodes| && r.nodes[i].parent.Some? ensures r.nodes[i].parent.value < i {
      if i < n {
        assert r.nodes[i] == g.nodes[i];
      } else if i == n {
        assert r.nodes[i] == ns[0];
      } else {
        assert r.nodes[i] == ns[(i - n - 1) + 1];
      }
    }
  }

  /** The random draws for several flowcharts: per flowchart one draw per round of its edge loop. */
  predicate DrawsFit(rolls: seq<nat>, branches: seq<seq<bool>>) {
    |rolls| == |branches| && forall k :: 0 <= k < |rolls| ==> |branches[k]| == rolls[k] + 4
  }

  /** Flowcharts added one after another, in the order of `placements`. */
  function AddFlowcharts(g: GraphModel, placements: seq<Placement>, rolls: seq<nat>, branches: seq<seq<bool>>): (r: GraphModel)
    requires |placements| == |rolls| && DrawsFit(rolls, branches)
    ensures |r.nodes| >= |g.nodes| && r.nodes[..|g.nodes|] == g.nodes
    decreases |placements|
  {
    if placements == [] then g
    else
      var k := |placements| - 1;
      var before := AddFlowcharts(g, placements[..k], rolls[..k], branches[..k]);
      var r := AddFlowchart(before, placements[k], rolls[k], branches[k]);
      assert r.nodes[..|g.nodes|] == before.nodes[..|before.nodes|][..|g.nodes|];
      r
  }

  /** Adding one more flowchart to a prefix of the placements. */
  lemma AddFlowchartsGrow(g: GraphModel, placements: seq<Placement>, rolls: seq<nat>, branches: seq<seq<bool>>, k: nat)
    requires |placements| == |rolls| && DrawsFit(rolls, branches) && k < |placements|
    ensures AddFlowcharts(g, placements[..k + 1], rolls[..k + 1], branches[..k + 1])
      == AddFlowchart(AddFlowcharts(g, placements[..k], rolls[..k], branches[..k]), placements[k], rolls[k], branches[k])
  {
    assert placements[..k + 1][..k] == placements[..k];
    assert rolls[..k + 1][..k] == rolls[..k];
    assert branches[..k + 1][..k] == branches[..k];
  }

  lemma {:induction false} AddFlowchartsOrdered(g: GraphModel, placements: seq<Placement>, rolls: seq<nat>, branches: seq<seq<bool>>)
    requires |placements| == |rolls| && DrawsFit(rolls, branches)
    requires Ordered(g) && forall k :: 0 <= k < |placements| ==> placements[k].parent < |g.nodes|
    ensures Ordered(AddFlowcharts(g, placements, rolls, branches))
    decreases |placements|
  {
    if placements != [] {
      var k := |placements| - 1;
      AddFlowchartsOrdered(g, placements[..k], rolls[..k], branches[..k]);
      var before := AddFlowcharts(g, placements[..k], rolls[..k], branches[..k]);
      AddFlowchartOrdered(before, placements[k], rolls[k], branches[k]);
    }
  }

  const GroupPositions: seq<Point> := [Point(50, 50), Point(450, 50), Point(850, 50), Point(250, 350), Point(650, 350)]

  /**
   * The two `forEach` loops of `createFlowchartGroups`: the first three flowcharts under
   * `section1` and the last two under `section2`, each at `groupPositions[index]`, where
   * `index` counts within its own slice.
   */
  function Placements(section1: nat, section2: nat): (ps: seq<Placement>)
    ensures |ps| == 5
  {
    seq(3, index requires 0 <= index < 3 => Placement(GroupPositions[index], section1))
    + seq(2, index requires 0 <= index < 2 => Placement(GroupPositions[index], section2))
  }

  /**
   * Because the index restarts, the fourth and fifth flowcharts sit at the first two
   * positions, and the last two positions are never used.
   */
  lemma SectionAssignment(section1: nat, section2: nat)
    ensures forall k :: 0 <= k < 3 ==> Placements(section1, section2)[k] == Placement(GroupPositions[k], section1)
    ensures Placements(section1, section2)[3] == Placement(GroupPositions[0], section2)
    ensures Placements(section1, section2)[4] == Placement(GroupPositions[1], section2)
    ensures forall k :: 0 <= k < 5 ==>
      Placements(section1, section2)[k].position != GroupPositions[3] && Placements(section1, section2)[k].position != GroupPositions[4]
  {
  }

  /** What `createFlowchartGroups` does to a graph: two section groups, then the five flowcharts. */
  function FlowchartGroups(g: GraphModel, rolls: seq<nat>, branches: seq<seq<bool>>): GraphModel
    requires |rolls| == 5 && DrawsFit(rolls, branches)
  {
    var section1 := |g.nodes|;
    AddFlowcharts(GraphModel(g.nodes + [NewGroup, NewGroup], g.edges), Placements(section1, section1 + 1), rolls, branches)
  }

  /** The sample graph keeps an ordered graph ordered; drawn into the empty graph it has no cycle. */
  lemma FlowchartGroupsOrdered(g: GraphModel, rolls: seq<nat>, branches: seq<seq<bool>>)
    requires |rolls| == 5 && DrawsFit(rolls, branches) && Ordered(g)
    ensures Ordered(FlowchartGroups(g, rolls, branches))
  {
    var section1 := |g.nodes|;
    var g1 := GraphModel(g.nodes + [NewGroup, NewGroup], g.edges);
    assert Ordered(g1) by {
      forall i | 0 <= i < |g1.nodes| && g1.nodes[i].parent.Some? ensures g1.nodes[i].parent.value < i {
        assert i < |g.nodes| && g1.nodes[i] == g.nodes[i];
      }
    }
    AddFlowchartsOrdered(g1, Placements(section1, section1 + 1), rolls, branches);
  }

  /**
   * `createFlowchart`: a group node under `parentGroup`, `roll + 5` steps laid out in the
   * grid and labelled `Step 1`, `Step 2`, ..., then the chain and branch edges.
   */
  method CreateFlowchart(graph: Graph, position: Point, parentGroup: nat, roll: nat, branch: seq<bool>)
    requires parentGroup < |graph.nodes|
    requires roll < 6
    requires |branch| == roll + 4
    modifies graph
    ensures graph.Model() == AddFlowchart(old(graph.Model()), Placement(position, parentGroup), roll, branch)
    ensures 5 <= |graph.nodes| - |old(graph.nodes)| - 1 <= 10
  {
    var nodeCount := roll + 5;
    ghost var g0 := graph.Model();
    var groupNode := graph.CreateGroupNode();
    graph.SetParent(groupNode, parentGroup);
    var nodes: seq<nat> := [];
    var i := 0;
    while i < nodeCount
      invariant 0 <= i <= nodeCount
      invariant graph.edges == g0.edges
      invariant graph.nodes == g0.nodes + FlowchartNodes(groupNode, position, parentGroup, i)
      invariant |nodes| == i && forall k :: 0 <= k < i ==> nodes[k] == groupNode + 1 + k
    {
      var x := position.x + (i % 3) * 120;
      var y := position.y + (i / 3) * 80 + 40;
      ghost var before := graph.nodes;
      var node := graph.CreateNode(NodeStyle.Rect(x, y, 100, 60), NodeStyle.NodeTemplateComponent);
      graph.AddLabel(node, "Step " + NatToString(i + 1));
      graph.SetParent(node, groupNode);
      nodes := nodes + [node];
      assert [] + [StepLabel(i)] == [StepLabel(i)];
      assert graph.nodes[node] == FlowchartStep(groupNode, position, i);
      assert graph.nodes == before + [FlowchartStep(groupNode, position, i)];
      FlowchartNodesGrow(groupNode, position, parentGroup, i);
      i := i + 1;
    }
    i := 0;
    while i < |nodes| - 1
      invariant 0 <= i <= |nodes| - 1
      invariant |graph.nodes| == groupNode + 1 + nodeCount
      invariant graph.nodes == g0.nodes + FlowchartNodes(groupNode, position, parentGroup, nodeCount)
      invariant graph.edges == g0.edges + FlowchartEdges(groupNode + 1, nodeCount, branch, i)
    {
      if i < |nodes| - 1 {
        graph.CreateEdge(nodes[i], nodes[i + 1]);
      }
      if branch[i] && i < |nodes| - 2 {
        graph.CreateEdge(nodes[i], nodes[i + 2]);
      }
      i := i + 1;
    }
  }

  /**
   * `createFlowchartGroups`: two section groups, three flowcharts under the first and two
   * under the second. Returns the first section.
   */
  method CreateFlowchartGroups(graph: Graph, rolls: seq<nat>, branches: seq<seq<bool>>) returns (section1: nat)
    requires |rolls| == 5 && DrawsFit(rolls, branches)
    requires forall k :: 0 <= k < 5 ==> rolls[k] < 6
    modifies graph
    ensures section1 == |old(graph.nodes)|
    ensures graph.Model() == FlowchartGroups(old(graph.Model()), rolls, branches)
  {
    section1 := graph.CreateGroupNode();
    var section2 := graph.CreateGroupNode();
    ghost var g1 := graph.Model();
    assert g1.nodes == old(graph.nodes) + [NewGroup] + [NewGroup] == old(graph.nodes) + [NewGroup, NewGroup];
    ghost var placements := Placements(section1, section2);
    SectionAssignment(section1, section2);
    var index := 0;
    while index < 3
      invariant 0 <= index <= 3
      invariant graph.Model() == AddFlowcharts(g1, placements[..index], rolls[..index], branches[..index])
    {
      AddFlowchartsGrow(g1, placements, rolls, branches, index);
      assert placements[index] == Placement(GroupPositions[index], section1);
      assert |graph.nodes| >= |g1.nodes|;
      CreateFlowchart(graph, GroupPositions[index], section1, rolls[index], branches[index]);
      index := index + 1;
    }
    index := 0;
    while index < 2
      invariant 0 <= index <= 2
      invariant graph.Model() == AddFlowcharts(g1, placements[..3 + index], rolls[..3 + index], branches[..3 + index])
    {
      AddFlowchartsGrow(g1, placements, rolls, branches, 3 + index);
      assert placements[3 + index] == Placement(GroupPositions[index], section2);
      assert |graph.nodes| >= |g1.nodes|;
      CreateFlowchart(graph, GroupPositions[index], section2, rolls[3 + index], branches[3 + index]);
      index := index + 1;
    }
    assert placements[..5] == placements && rolls[..5] == rolls && branches[..5] == branches;
  }
}
