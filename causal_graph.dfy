/**
 * The causal graph of the DAG advisor: typed nodes and edges held as two lists that only
 * ever grow, the designated exposure and outcome, parent/child look-ups, the confounder
 * "triangle" search that stands in for backdoor-path detection, and the GraphViz DOT writer.
 *
 * No operation validates anything: duplicate names, dangling edge endpoints and cycles are
 * all accepted, exactly as in the implementation.
 */
module CausalGraph {
  import opened Common
  import opened Text

  /** The role a node plays. The implementation stores a free string and only ever compares it
      with the six names below, so every other string behaves alike and is `OtherType`. */
  datatype NodeType = Exposure | Outcome | Confounder | Mediator | Collider | Instrument | OtherType

  /** Edge kinds: only `unmeasured_confounding` is ever told apart from the rest. */
  datatype EdgeType = Causal | UnmeasuredConfounding | OtherEdge

  datatype DAGNode = DAGNode(name: string, nodeType: NodeType, measured: bool)

  datatype DAGEdge = DAGEdge(fromNode: string, toNode: string, edgeType: EdgeType)

  /** The four fields of a graph object at one moment. */
  datatype Graph = Graph(nodes: seq<DAGNode>, edges: seq<DAGEdge>,
                         exposure: Option<string>, outcome: Option<string>)

  const EmptyGraph := Graph([], [], None, None)

  predicate HasEdge(edges: seq<DAGEdge>, from: string, to: string)
  {
    exists i :: 0 <= i < |edges| && edges[i].fromNode == from && edges[i].toNode == to
  }

  /** `[e.from_node for e in edges if e.to_node == node]`. */
  function ParentsOf(edges: seq<DAGEdge>, node: string): (r: seq<string>)
    ensures |r| <= |edges|
    ensures forall x :: x in r <==> HasEdge(edges, x, node)
    decreases |edges|
  {
    if |edges| == 0 then []
    else
      var n := |edges| - 1;
      var prefix := ParentsOf(edges[..n], node);
      assert forall x :: HasEdge(edges[..n], x, node) ==> HasEdge(edges, x, node);
      assert forall x :: HasEdge(edges, x, node) && !HasEdge(edges[..n], x, node) ==>
        edges[n].fromNode == x && edges[n].toNode == node;
      prefix + (if edges[n].toNode == node then [edges[n].fromNode] else [])
  }

  /** `[e.to_node for e in edges if e.from_node == node]`. */
  function ChildrenOf(edges: seq<DAGEdge>, node: string): (r: seq<string>)
    ensures |r| <= |edges|
    ensures forall x :: x in r <==> HasEdge(edges, node, x)
    decreases |edges|
  {
    if |edges| == 0 then []
    else
      var n := |edges| - 1;
      var prefix := ChildrenOf(edges[..n], node);
      assert forall x :: HasEdge(edges[..n], node, x) ==> HasEdge(edges, node, x);
      assert forall x :: HasEdge(edges, node, x) && !HasEdge(edges[..n], node, x) ==>
        edges[n].fromNode == node && edges[n].toNode == x;
      prefix + (if edges[n].fromNode == node then [edges[n].toNode] else [])
  }

  /** `c` is a confounder in the one shape the search recognises: it is neither end and
      points directly into both of them. */
  predicate IsTriangleApex(edges: seq<DAGEdge>, x: string, y: string, c: string)
  {
    c != x && c != y && x in ChildrenOf(edges, c) && y in ChildrenOf(edges, c)
  }

  /** One candidate path per node, in node order, for every node that is an apex. */
  function TrianglePaths(nodes: seq<DAGNode>, edges: seq<DAGEdge>, x: string, y: string)
    : (paths: seq<seq<string>>)
    ensures |paths| <= |nodes|
    decreases |nodes|
  {
    if |nodes| == 0 then []
    else
      var n := |nodes| - 1;
      TrianglePaths(nodes[..n], edges, x, y)
        + (if IsTriangleApex(edges, x, y, nodes[n].name) then [[x, nodes[n].name, y]] else [])
  }

  /** Every path found is `[x, c, y]` for a node `c` apart from both ends with edges into
      both. */
  lemma {:induction false} TrianglePathsSound(nodes: seq<DAGNode>, edges: seq<DAGEdge>, x: string, y: string)
    ensures forall p :: p in TrianglePaths(nodes, edges, x, y) ==>
      |p| == 3 && p[0] == x && p[2] == y && p[1] != x && p[1] != y &&
      HasEdge(edges, p[1], x) && HasEdge(edges, p[1], y)
    decreases |nodes|
  {
    if |nodes| > 0 {
      var n := |nodes| - 1;
      TrianglePathsSound(nodes[..n], edges, x, y);
      var prefix := TrianglePaths(nodes[..n], edges, x, y);
      var r := TrianglePaths(nodes, edges, x, y);
      var c := nodes[n].name;
      if IsTriangleApex(edges, x, y, c) {
        assert x in ChildrenOf(edges, c) && y in ChildrenOf(edges, c);
        assert HasEdge(edges, c, x) && HasEdge(edges, c, y);
        assert r == prefix + [[x, c, y]];
      }
    }
  }

  /** Every path found comes from a node of the list. */
  lemma {:induction false} TrianglePathsFromNodes(nodes: seq<DAGNode>, edges: seq<DAGEdge>, x: string, y: string)
    ensures forall p :: p in TrianglePaths(nodes, edges, x, y) ==>
      exists i :: 0 <= i < |nodes| && p == [x, nodes[i].name, y]
    decreases |nodes|
  {
    if |nodes| > 0 {
      var n := |nodes| - 1;
      TrianglePathsFromNodes(nodes[..n], edges, x, y);
      var prefix := TrianglePaths(nodes[..n], edges, x, y);
      var r := TrianglePaths(nodes, edges, x, y);
      forall p | p in r ensures exists i :: 0 <= i < |nodes| && p == [x, nodes[i].name, y] {
        if p in prefix {
          var i :| 0 <= i < n && p == [x, nodes[..n][i].name, y];
          assert nodes[..n][i] == nodes[i];
        } else {
          assert p == [x, nodes[n].name, y];
        }
      }
    }
  }

  /** Every apex in the list gives its path. */
  lemma {:induction false} TrianglePathsComplete(nodes: seq<DAGNode>, edges: seq<DAGEdge>, x: string, y: string)
    ensures forall i :: 0 <= i < |nodes| && IsTriangleApex(edges, x, y, nodes[i].name) ==>
      [x, nodes[i].name, y] in TrianglePaths(nodes, edges, x, y)
    decreases |nodes|
  {
    if |nodes| > 0 {
      var n := |nodes| - 1;
      TrianglePathsComplete(nodes[..n], edges, x, y);
      assert forall i :: 0 <= i < n ==> nodes[..n][i] == nodes[i];
    }
  }

  /** The pythonic truth value of an optional name: set and not the empty string. */
  predicate IsSet(o: Option<string>)
  {
    o.Some? && o.value != ""
  }

  /** What `find_backdoor_paths` returns: nothing unless both ends are set to non-empty names,
      otherwise one `[exposure, c, outcome]` per triangle apex `c`. */
  function BackdoorPaths(g: Graph): (paths: seq<seq<string>>)
    ensures !IsSet(g.exposure) || !IsSet(g.outcome) ==> paths == []
    ensures IsSet(g.exposure) && IsSet(g.outcome) ==>
      paths == TrianglePaths(g.nodes, g.edges, g.exposure.value, g.outcome.value)
  {
    if !IsSet(g.exposure) || !IsSet(g.outcome) then []
    else TrianglePaths(g.nodes, g.edges, g.exposure.value, g.outcome.value)
  }

  // ---------- DOT serialisation ----------

  const DotHeader := "digraph CausalDAG {"
  const DotFooter := "}"
  const DashedAttr := "style=dashed"

  function RoleAttrs(t: NodeType): seq<string>
  {
    match t
    case Exposure => ["color=blue, shape=box"]
    case Outcome => ["color=red, shape=box"]
    case Confounder => ["color=orange, shape=ellipse"]
    case Mediator => ["color=green, shape=ellipse"]
    case _ => []
  }

  function NodeAttrs(n: DAGNode): seq<string>
  {
    RoleAttrs(n.nodeType) + (if n.measured then [] else [DashedAttr])
  }

  function NodeLine(n: DAGNode): string
  {
    "  \"" + n.name + "\" [" + Join(NodeAttrs(n), ", ") + "];"
  }

  function EdgeStyle(t: EdgeType): string
  {
    if t == UnmeasuredConfounding then "dashed, color=red" else "solid"
  }

  function EdgeLine(e: DAGEdge): string
  {
    "  \"" + e.fromNode + "\" -> \"" + e.toNode + "\" " + ("[style=" + EdgeStyle(e.edgeType) + "];")
  }

  function NodeLines(ns: seq<DAGNode>): (ls: seq<string>)
    ensures |ls| == |ns|
    decreases |ns|
  {
    if |ns| == 0 then [] else NodeLines(ns[..|ns| - 1]) + [NodeLine(ns[|ns| - 1])]
  }

  function EdgeLines(es: seq<DAGEdge>): (ls: seq<string>)
    ensures |ls| == |es|
    decreases |es|
  {
    if |es| == 0 then [] else EdgeLines(es[..|es| - 1]) + [EdgeLine(es[|es| - 1])]
  }

  /** The lines `to_dot` joins with newlines. */
  function DotLines(g: Graph): seq<string>
  {
    [DotHeader] + NodeLines(g.nodes) + EdgeLines(g.edges) + [DotFooter]
  }

  lemma {:induction false} NodeLinesAt(ns: seq<DAGNode>, i: nat)
    requires i < |ns|
    ensures NodeLines(ns)[i] == NodeLine(ns[i])
    decreases |ns|
  {
    if i < |ns| - 1 {
      NodeLinesAt(ns[..|ns| - 1], i);
    }
  }

  lemma {:induction false} EdgeLinesAt(es: seq<DAGEdge>, i: nat)
    requires i < |es|
    ensures EdgeLines(es)[i] == EdgeLine(es[i])
    decreases |es|
  {
    if i < |es| - 1 {
      EdgeLinesAt(es[..|es| - 1], i);
    }
  }

  lemma NodeLinesStep(ns: seq<DAGNode>, i: nat)
    requires i < |ns|
    ensures NodeLines(ns[..i + 1]) == NodeLines(ns[..i]) + [NodeLine(ns[i])]
  {
    assert ns[..i + 1][..i] == ns[..i];
  }

  lemma EdgeLinesStep(es: seq<DAGEdge>, j: nat)
    requires j < |es|
    ensures EdgeLines(es[..j + 1]) == EdgeLines(es[..j]) + [EdgeLine(es[j])]
  {
    assert es[..j + 1][..j] == es[..j];
  }

  /** The layout: a header, one line per node in insertion order, one line per edge in
      insertion order, and the closing brace. */
  lemma DotLayout(g: Graph)
    ensures |DotLines(g)| == |g.nodes| + |g.edges| + 2
    ensures DotLines(g)[0] == DotHeader
    ensures DotLines(g)[|g.nodes| + |g.edges| + 1] == DotFooter
    ensures forall i :: 0 <= i < |g.nodes| ==> DotLines(g)[1 + i] == NodeLine(g.nodes[i])
    ensures forall j :: 0 <= j < |g.edges| ==>
      DotLines(g)[1 + |g.nodes| + j] == EdgeLine(g.edges[j])
  {
    forall i | 0 <= i < |g.nodes| ensures DotLines(g)[1 + i] == NodeLine(g.nodes[i]) {
      NodeLinesAt(g.nodes, i);
    }
    forall j | 0 <= j < |g.edges|
      ensures DotLines(g)[1 + |g.nodes| + j] == EdgeLine(g.edges[j])
    {
      EdgeLinesAt(g.edges, j);
    }
  }

  lemma NoNewlineInJoin(parts: seq<string>, sep: string)
    requires '\n' !in sep
    requires forall i :: 0 <= i < |parts| ==> '\n' !in parts[i]
    ensures '\n' !in Join(parts, sep)
    decreases |parts|
  {
    if |parts| > 1 {
      NoNewlineInJoin(parts[1..], sep);
    }
  }

  /** A role writes at most one attribute, never the dashed one; it has no newline and does
      not end in `d`. */
  lemma RoleAttrsShape(t: NodeType)
    ensures |RoleAttrs(t)| <= 1 && DashedAttr !in RoleAttrs(t)
    ensures |RoleAttrs(t)| == 1 ==>
      '\n' !in RoleAttrs(t)[0] && |RoleAttrs(t)[0]| > 0 && RoleAttrs(t)[0][|RoleAttrs(t)[0]| - 1] != 'd'
  {
  }

  lemma NodeAttrsHaveNoNewline(n: DAGNode)
    ensures forall i :: 0 <= i < |NodeAttrs(n)| ==> '\n' !in NodeAttrs(n)[i]
  {
    var roles, attrs := RoleAttrs(n.nodeType), NodeAttrs(n);
    RoleAttrsShape(n.nodeType);
    assert '\n' !in DashedAttr;
    forall i | 0 <= i < |attrs| ensures '\n' !in attrs[i] {
      if i < |roles| {
        assert attrs[i] == roles[i];
      } else {
        assert attrs[i] == DashedAttr;
      }
    }
  }

  lemma NodeLineHasNoNewline(n: DAGNode)
    requires '\n' !in n.name
    ensures '\n' !in NodeLine(n)
  {
    NodeAttrsHaveNoNewline(n);
    NoNewlineInJoin(NodeAttrs(n), ", ");
  }

  lemma EdgeLineHasNoNewline(e: DAGEdge)
    requires '\n' !in e.fromNode && '\n' !in e.toNode
    ensures '\n' !in EdgeLine(e)
  {
    assert '\n' !in EdgeStyle(e.edgeType);
  }

  /** When no name contains a newline, splitting the DOT text on newlines gives back exactly
      the header, the node lines, the edge lines and the closing brace. */
  lemma {:induction false} DotLinesRoundTrip(g: Graph)
    requires forall i :: 0 <= i < |g.nodes| ==> '\n' !in g.nodes[i].name
    requires forall j :: 0 <= j < |g.edges| ==>
      '\n' !in g.edges[j].fromNode && '\n' !in g.edges[j].toNode
    ensures Split(Join(DotLines(g), "\n"), '\n') == DotLines(g)
    ensures |Split(Join(DotLines(g), "\n"), '\n')| == |g.nodes| + |g.edges| + 2
  {
    DotLayout(g);
    var ls := DotLines(g);
    assert '\n' !in DotHeader && '\n' !in DotFooter;
    forall k | 0 <= k < |ls| ensures '\n' !in ls[k] {
      if 1 <= k <= |g.nodes| {
        NodeLineHasNoNewline(g.nodes[k - 1]);
      } else if |g.nodes| < k < |g.nodes| + |g.edges| + 1 {
        EdgeLineHasNoNewline(g.edges[k - 1 - |g.nodes|]);
      }
    }
    assert "\n" == ['\n'];
    SplitJoin(ls, '\n');
  }

  /** `style=dashed` is among a node's attributes exactly when the node is unmeasured,
      and it is then the last attribute written. */
  lemma DashedIffUnmeasured(n: DAGNode)
    ensures DashedAttr in NodeAttrs(n) <==> !n.measured
    ensures !n.measured ==> EndsWith(NodeLine(n), "style=dashed];")
    ensures n.measured ==> !EndsWith(NodeLine(n), "style=dashed];")
  {
    if n.measured {
      MeasuredNodeSolid(n);
    } else {
      UnmeasuredNodeDashed(n);
    }
  }

  lemma UnmeasuredNodeDashed(n: DAGNode)
    requires !n.measured
    ensures DashedAttr in NodeAttrs(n) && EndsWith(NodeLine(n), "style=dashed];")
  {
    var roles := RoleAttrs(n.nodeType);
    var p := "  \"" + n.name + "\" [";
    var j := Join(NodeAttrs(n), ", ");
    assert NodeAttrs(n)[|roles|] == DashedAttr;
    JoinSnoc(roles, DashedAttr, ", ");
    if |roles| == 0 {
      assert j[|j| - |DashedAttr|..] == j;
    } else {
      EndsWithConcat(Join(roles, ", ") + ", ", DashedAttr);
    }
    EndsWithPrepend(p, j, DashedAttr);
    EndsWithExtend(p + j, DashedAttr, "];");
    assert DashedAttr + "];" == "style=dashed];";
  }

  lemma MeasuredNodeSolid(n: DAGNode)
    requires n.measured
    ensures DashedAttr !in NodeAttrs(n) && !EndsWith(NodeLine(n), "style=dashed];")
  {
    var roles := RoleAttrs(n.nodeType);
    RoleAttrsShape(n.nodeType);
    assert NodeAttrs(n) == roles;
    var p := "  \"" + n.name + "\" [";
    var j := Join(roles, ", ");
    var head := p + j;
    var line := head + "];";
    assert line == NodeLine(n);
    if |roles| == 0 {
      assert head == p;
    } else {
      assert j == roles[0];
    }
    assert line[|line| - 3] == head[|head| - 1];
    NotEndsWithAt(line, "style=dashed];", 3);
  }

  /** Edges are drawn dashed and red exactly when they are unmeasured confounding. */
  lemma EdgeDashedIffUnmeasuredConfounding(e: DAGEdge)
    ensures EndsWith(EdgeLine(e), "[style=dashed, color=red];") <==>
            e.edgeType == UnmeasuredConfounding
    ensures e.edgeType != UnmeasuredConfounding ==> EndsWith(EdgeLine(e), "[style=solid];")
  {
    var line := EdgeLine(e);
    var prefix := "  \"" + e.fromNode + "\" -> \"" + e.toNode + "\" ";
    var tail := "[style=" + EdgeStyle(e.edgeType) + "];";
    EndsWithConcat(prefix, tail);
    if e.edgeType != UnmeasuredConfounding {
      assert tail == "[style=solid];";
      assert line[|line| - 4] == tail[10];
      NotEndsWithAt(line, "[style=dashed, color=red];", 4);
    } else {
      assert tail == "[style=dashed, color=red];";
    }
  }

  /** Collider and instrument nodes that are measured are written with an empty attribute list. */
  lemma MeasuredColliderOrInstrumentHasNoAttrs(n: DAGNode)
    requires n.measured && (n.nodeType == Collider || n.nodeType == Instrument)
    ensures NodeAttrs(n) == []
    ensures NodeLine(n) == "  \"" + n.name + "\" [];"
  {
  }

  /** The DOT text does not record which of collider, instrument or any other role a node has
      nor whether an edge is causal, so it cannot be read back into the same graph. */
  lemma DotForgetsRoles(name: string, measured: bool, from: string, to: string)
    ensures NodeLine(DAGNode(name, Collider, measured)) ==
            NodeLine(DAGNode(name, Instrument, measured))
    ensures EdgeLine(DAGEdge(from, to, Causal)) == EdgeLine(DAGEdge(from, to, OtherEdge))
  {
  }

  /** One node line as `to_dot` writes it: the role's attributes, then `style=dashed` when
      the node is unmeasured. */
  method WriteNodeLine(n: DAGNode) returns (line: string)
    ensures line == NodeLine(n)
  {
    var attrs := RoleAttrs(n.nodeType);
    if !n.measured {
      attrs := attrs + [DashedAttr];
    }
    var attrStr := if |attrs| > 0 then Join(attrs, ", ") else "";
    line := "  \"" + n.name + "\" [" + attrStr + "];";
  }

  /** One edge line: dashed and red for unmeasured confounding, solid otherwise. */
  method WriteEdgeLine(e: DAGEdge) returns (line: string)
    ensures line == EdgeLine(e)
  {
    var style := if e.edgeType == UnmeasuredConfounding then "dashed, color=red" else "solid";
    line := "  \"" + e.fromNode + "\" -> \"" + e.toNode + "\" " + ("[style=" + style + "];");
  }

  /** The graph object: it only ever appends, and remembers the latest exposure and outcome. */
  class CausalDAG {
    var nodes: seq<DAGNode>
    var edges: seq<DAGEdge>
    var exposure: Option<string>
    var outcome: Option<string>

    constructor ()
      ensures nodes == [] && edges == [] && exposure == None && outcome == None
    {
      nodes := [];
      edges := [];
      exposure := None;
      outcome := None;
    }

    function Snapshot(): Graph
      reads this
    {
      Graph(nodes, edges, exposure, outcome)
    }

    /** Appends one node; a node of role exposure or outcome also becomes the designated one. */
    method AddNode(name: string, nodeType: NodeType, measured: bool)
      modifies this
      ensures nodes == old(nodes) + [DAGNode(name, nodeType, measured)]
      ensures edges == old(edges)
      ensures exposure == if nodeType == Exposure then Some(name) else old(exposure)
      ensures outcome == if nodeType == Outcome then Some(name) else old(outcome)
    {
      nodes := nodes + [DAGNode(name, nodeType, measured)];
      if nodeType == Exposure {
        exposure := Some(name);
      } else if nodeType == Outcome {
        outcome := Some(name);
      }
    }

    /** Appends one edge, with no check on its endpoints or on cycles. */
    method AddEdge(from: string, to: string, edgeType: EdgeType)
      modifies this
      ensures edges == old(edges) + [DAGEdge(from, to, edgeType)]
      ensures nodes == old(nodes) && exposure == old(exposure) && outcome == old(outcome)
    {
      edges := edges + [DAGEdge(from, to, edgeType)];
    }

    function GetParents(node: string): (r: seq<string>)
      reads this
      ensures forall x :: x in r <==> HasEdge(edges, x, node)
    {
      ParentsOf(edges, node)
    }

    function GetChildren(node: string): (r: seq<string>)
      reads this
      ensures forall x :: x in r <==> HasEdge(edges, node, x)
    {
      ChildrenOf(edges, node)
    }

    /** The node scan: one `[exposure, name, outcome]` per node that points into both ends. */
    method FindBackdoorPaths() returns (paths: seq<seq<string>>)
      ensures paths == BackdoorPaths(Snapshot())
    {
      paths := [];
      if !IsSet(exposure) || !IsSet(outcome) {
        return;
      }
      var x, y := exposure.value, outcome.value;
      var i := 0;
      while i < |nodes|
        invariant 0 <= i <= |nodes|
        invariant paths == TrianglePaths(nodes[..i], edges, x, y)
      {
        var c := nodes[i].name;
        if c != x && c != y {
          if x in GetChildren(c) && y in GetChildren(c) {
            paths := paths + [[x, c, y]];
          }
        }
        assert nodes[..i + 1][..i] == nodes[..i];
        i := i + 1;
      }
      assert nodes[..i] == nodes;
    }

    /** Writes the graph as GraphViz DOT text. */
    method ToDot() returns (dot: string)
      ensures dot == Join(DotLines(Snapshot()), "\n")
    {
      var ns, es := nodes, edges;
      var lines := [DotHeader];
      var i := 0;
      while i < |ns|
        invariant 0 <= i <= |ns|
        invariant lines == [DotHeader] + NodeLines(ns[..i])
      {
        var line := WriteNodeLine(ns[i]);
        NodeLinesStep(ns, i);
        lines := lines + [line];
        i := i + 1;
      }
      assert ns[..i] == ns;
      var j := 0;
      while j < |es|
        invariant 0 <= j <= |es|
        invariant lines == [DotHeader] + NodeLines(ns) + EdgeLines(es[..j])
      {
        var line := WriteEdgeLine(es[j]);
        EdgeLinesStep(es, j);
        lines := lines + [line];
        j := j + 1;
      }
      assert es[..j] == es;
      lines := lines + [DotFooter];
      dot := Join(lines, "\n");
    }
  }
}
