/**
 * The `useSkillsGraph` hook (src/hooks/useSkillsGraph.ts): the bundled skills
 * graph with every node recoloured by its type, and the hook's graph,
 * loading and error state.
 */
module SkillsGraph {
  import opened Common

  const RootColor := "#1fd38d"
  const CategoryColor := "#61e7b9"
  const SkillColor := "#a0f0d3"
  const UnknownErrorMessage := "An unknown error occurred"

  /** A node of `skills-graph.json`. The type is whatever string the JSON
      holds: `root`, `category`, `skill` or anything else. */
  datatype GraphNode = GraphNode(id: string, labelText: string, nodeType: string, color: Option<string>)

  datatype GraphEdge = GraphEdge(from: string, to: string)

  datatype SkillsGraphData = SkillsGraphData(nodes: seq<GraphNode>, edges: seq<GraphEdge>)

  /** The colour of a node of the given type: roots and categories have their
      own shades and every other type is drawn as a skill. */
  function ColorFor(nodeType: string): (c: string)
    ensures nodeType == "root" ==> c == RootColor
    ensures nodeType == "category" ==> c == CategoryColor
    ensures nodeType != "root" && nodeType != "category" ==> c == SkillColor
  {
    if nodeType == "root" then RootColor
    else if nodeType == "category" then CategoryColor
    else SkillColor
  }

  /** `nodes.map(node => ({ ...node, color: … }))`: same nodes in the same
      order, every field but the colour kept, the colour replaced by the one
      for the node's type. */
  function Recolor(nodes: seq<GraphNode>): (r: seq<GraphNode>)
    ensures |r| == |nodes|
    ensures forall i :: 0 <= i < |nodes| ==>
      r[i].id == nodes[i].id && r[i].labelText == nodes[i].labelText && r[i].nodeType == nodes[i].nodeType
    ensures forall i :: 0 <= i < |nodes| ==> r[i].color == Some(ColorFor(nodes[i].nodeType))
  {
    if nodes == [] then []
    else [nodes[0].(color := Some(ColorFor(nodes[0].nodeType)))] + Recolor(nodes[1..])
  }

  /** Recolouring a recoloured list changes nothing. */
  lemma {:induction false} RecolorIdempotent(nodes: seq<GraphNode>)
    ensures Recolor(Recolor(nodes)) == Recolor(nodes)
  {
    var once := Recolor(nodes);
    var twice := Recolor(once);
    forall i | 0 <= i < |nodes| ensures twice[i] == once[i] {
    }
  }

  /** Recolouring depends only on the nodes' ids, label texts and types: two lists
      that differ only in their incoming colours come out the same. */
  lemma {:induction false} IncomingColorIgnored(a: seq<GraphNode>, b: seq<GraphNode>)
    requires |a| == |b|
    requires forall i :: 0 <= i < |a| ==> a[i].(color := None) == b[i].(color := None)
    ensures Recolor(a) == Recolor(b)
  {
    var ra, rb := Recolor(a), Recolor(b);
    forall i | 0 <= i < |a| ensures ra[i] == rb[i] {
      assert a[i].id == b[i].id && a[i].labelText == b[i].labelText && a[i].nodeType == b[i].nodeType by {
        assert a[i].(color := None).id == a[i].id;
        assert b[i].(color := None).id == b[i].id;
      }
    }
  }

  /** The graph the hook stores: recoloured nodes and the edges as loaded. */
  function Prepare(data: SkillsGraphData): (g: SkillsGraphData)
    ensures g.edges == data.edges
    ensures g.nodes == Recolor(data.nodes)
  {
    SkillsGraphData(Recolor(data.nodes), data.edges)
  }

  /** How the preparation of the bundled data ended. */
  datatype LoadOutcome =
    | Prepared(data: SkillsGraphData)
    | Threw(message: Option<string>)   // None when the thrown value was not an Error

  /** The hook's state, updated in place by its effect. */
  class SkillsGraphLoader {
    var graph: Option<SkillsGraphData>
    var loading: bool
    var error: Option<string>

    /** The first render: loading, nothing yet. */
    constructor ()
      ensures graph == None && loading && error == None
    {
      graph := None;
      loading := true;
      error := None;
    }

    /** The mount effect. `Prepared(data)` is a run of the `try` block on
        the raw graph `data`; `Threw` is the `catch` path. */
    method Load(outcome: LoadOutcome)
      modifies this
      ensures !loading
      ensures outcome.Prepared? ==> graph == Some(Prepare(outcome.data)) && error == old(error)
      ensures outcome.Threw? ==> graph == old(graph)
      ensures outcome.Threw? ==>
        error == Some(if outcome.message.Some? then outcome.message.value else UnknownErrorMessage)
    {
      loading := true;
      match outcome {
        case Prepared(data) =>
          var coloredNodes := Recolor(data.nodes);
          graph := Some(SkillsGraphData(coloredNodes, data.edges));
          loading := false;
        case Threw(message) =>
          error := Some(if message.Some? then message.value else UnknownErrorMessage);
          loading := false;
      }
    }
  }

  /** The hook from its first render until its effect has run: a failed
      preparation leaves no graph. */
  method Mount(outcome: LoadOutcome) returns (loader: SkillsGraphLoader)
    ensures !loader.loading
    ensures outcome.Prepared? ==> loader.graph == Some(Prepare(outcome.data)) && loader.error == None
    ensures outcome.Threw? ==> loader.graph == None && loader.error.Some?
  {
    loader := new SkillsGraphLoader();
    loader.Load(outcome);
  }
}
