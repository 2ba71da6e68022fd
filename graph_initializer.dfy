/**
 * The graph builder of `GraphInitializer`
 * (src/components/skills/GraphInitializer.tsx): the rendered graph holds the
 * non-hidden nodes, with default sizes and colours filled in, and the
 * non-hidden edges whose two endpoints are among them.
 *
 * The graph library's graph is a map from node id to attributes plus the
 * list of added edges. Its `addNode` throws on an id already present and
 * its `addEdge` on a second edge between the same source and target; the
 * builder's preconditions exclude both.
 */
module GraphInitializer {
  import opened Common

  const CategoryType := "category"
  const CategorySize: real := 15.0
  const DefaultSize: real := 8.0
  const CategoryColor := "#4f46e5"
  const DefaultColor := "#94a3b8"

  /** A node as the builder reads it. A missing number or colour is `None`. */
  datatype Node = Node(
    id: string,
    labelText: string,
    nodeType: string,
    x: Option<real>,
    y: Option<real>,
    size: Option<real>,
    color: Option<string>,
    hidden: bool)

  datatype Edge = Edge(id: string, source: string, target: string, relationship: string, hidden: bool)

  datatype GraphData = GraphData(nodes: seq<Node>, edges: seq<Edge>)

  /** The attributes a node is added with. A position of `None` is one
      drawn at random. */
  datatype NodeAttrs = NodeAttrs(
    labelText: string,
    nodeType: string,
    x: Option<real>,
    y: Option<real>,
    size: real,
    color: string)

  /** An added edge: its endpoints and its attributes. */
  datatype AddedEdge = AddedEdge(source: string, target: string, id: string, relationship: string)

  /** The rendered graph. */
  datatype Graph = Graph(nodes: map<string, NodeAttrs>, edges: seq<AddedEdge>)

  /** `v || fallback` on a number: a missing value or 0 is falsy. */
  function OrNumber(v: Option<real>, fallback: real): (r: real)
    ensures v.Some? && v.value != 0.0 ==> r == v.value
    ensures v.None? || v.value == 0.0 ==> r == fallback
  {
    if v.Some? && v.value != 0.0 then v.value else fallback
  }

  /** `v || fallback` on a string: a missing value or "" is falsy. */
  function OrString(v: Option<string>, fallback: string): (r: string)
    ensures v.Some? && v.value != "" ==> r == v.value
    ensures v.None? || v.value == "" ==> r == fallback
  {
    if v.Some? && v.value != "" then v.value else fallback
  }

  /** A position coordinate: the node's own when truthy, a random one
      (`None`) otherwise. */
  function Position(v: Option<real>): (r: Option<real>)
    ensures r.Some? <==> v.Some? && v.value != 0.0
    ensures r.Some? ==> r == v
  {
    if v.Some? && v.value != 0.0 then v else None
  }

  /** The attributes of `addNode(node.id, { … })`. */
  function Attrs(n: Node): (a: NodeAttrs)
    ensures a.labelText == n.labelText && a.nodeType == n.nodeType
    ensures a.x == Position(n.x) && a.y == Position(n.y)
    ensures a.size == OrNumber(n.size, if n.nodeType == CategoryType then CategorySize else DefaultSize)
    ensures a.color == OrString(n.color, if n.nodeType == CategoryType then CategoryColor else DefaultColor)
    ensures a.size != 0.0 && a.color != ""
  {
    NodeAttrs(
      n.labelText,
      n.nodeType,
      Position(n.x),
      Position(n.y),
      OrNumber(n.size, if n.nodeType == CategoryType then CategorySize else DefaultSize),
      OrString(n.color, if n.nodeType == CategoryType then CategoryColor else DefaultColor))
  }

  /** The ids of the non-hidden nodes. */
  function VisibleIds(nodes: seq<Node>): set<string> {
    set n | n in nodes && !n.hidden :: n.id
  }

  /** `addNode` never meets an id twice. */
  predicate UniqueVisibleIds(nodes: seq<Node>) {
    forall i, j :: 0 <= i < j < |nodes| && !nodes[i].hidden && !nodes[j].hidden ==> nodes[i].id != nodes[j].id
  }

  /** An edge the builder adds, given the ids of the added nodes. */
  predicate Kept(e: Edge, ids: set<string>) {
    !e.hidden && e.source in ids && e.target in ids
  }

  /** `addEdge` never meets a source and target pair twice. */
  predicate NoParallelKeptEdges(data: GraphData) {
    forall i, j :: 0 <= i < j < |data.edges| && Kept(data.edges[i], VisibleIds(data.nodes))
                   && Kept(data.edges[j], VisibleIds(data.nodes))
                   ==> (data.edges[i].source, data.edges[i].target) != (data.edges[j].source, data.edges[j].target)
  }

  function Added(e: Edge): AddedEdge {
    AddedEdge(e.source, e.target, e.id, e.relationship)
  }

  /** The edges added, in order, from the list `edges` when the nodes with
      ids `ids` are present. */
  function AddedEdges(edges: seq<Edge>, ids: set<string>): (r: seq<AddedEdge>)
    ensures forall a :: a in r ==> a.source in ids && a.target in ids
    ensures forall a :: a in r <==> exists e :: e in edges && Kept(e, ids) && Added(e) == a
    ensures |r| <= |edges|
  {
    if edges == [] then []
    else
      var init := edges[..|edges| - 1];
      var e := edges[|edges| - 1];
      assert edges == init + [e];
      var rest := AddedEdges(init, ids);
      if Kept(e, ids) then rest + [Added(e)] else rest
  }

  /** Every edge endpoint is a node of the graph. */
  predicate NoDanglingEdges(g: Graph) {
    forall k :: 0 <= k < |g.edges| ==> g.edges[k].source in g.nodes && g.edges[k].target in g.nodes
  }

  /** The node half of the `useMemo` body: `addNode` for every node that
      is not hidden, in order. */
  method AddNodes(nodes: seq<Node>) returns (added: map<string, NodeAttrs>)
    requires UniqueVisibleIds(nodes)
    ensures added.Keys == VisibleIds(nodes)
    ensures forall i :: 0 <= i < |nodes| && !nodes[i].hidden ==> added[nodes[i].id] == Attrs(nodes[i])
  {
    added := map[];
    var i := 0;
    while i < |nodes|
      invariant i <= |nodes|
      invariant added.Keys == VisibleIds(nodes[..i])
      invariant forall k :: 0 <= k < i && !nodes[k].hidden ==> added[nodes[k].id] == Attrs(nodes[k])
    {
      var node := nodes[i];
      assert nodes[..i + 1] == nodes[..i] + [node];
      if !node.hidden {
        added := added[node.id := Attrs(node)];
      }
      i := i + 1;
    }
    assert nodes[..i] == nodes;
  }

  /** The edge half: `addEdge` for every edge that is not hidden and whose
      endpoints are both nodes, in order. */
  method AddEdges(edges: seq<Edge>, ids: set<string>) returns (added: seq<AddedEdge>)
    ensures added == AddedEdges(edges, ids)
  {
    added := [];
    var j := 0;
    while j < |edges|
      invariant j <= |edges|
      invariant added == AddedEdges(edges[..j], ids)
    {
      var edge := edges[j];
      assert edges[..j + 1][..j] == edges[..j];
      if !edge.hidden && edge.source in ids && edge.target in ids {
        added := added + [Added(edge)];
      }
      j := j + 1;
    }
    assert edges[..j] == edges;
  }

  /** The `useMemo` body: the visible nodes, then the visible edges between
      them. */
  method BuildGraph(data: GraphData) returns (g: Graph)
    requires UniqueVisibleIds(data.nodes)
    requires NoParallelKeptEdges(data)
    ensures g.nodes.Keys == VisibleIds(data.nodes)
    ensures forall i :: 0 <= i < |data.nodes| && !data.nodes[i].hidden ==>
      g.nodes[data.nodes[i].id] == Attrs(data.nodes[i])
    ensures g.edges == AddedEdges(data.edges, VisibleIds(data.nodes))
    ensures NoDanglingEdges(g)
  {
    var nodes := AddNodes(data.nodes);
    var edges := AddEdges(data.edges, nodes.Keys);
    g := Graph(nodes, edges);
    forall k | 0 <= k < |g.edges| ensures g.edges[k].source in g.nodes && g.edges[k].target in g.nodes {
      assert g.edges[k] in edges;
    }
  }
}
