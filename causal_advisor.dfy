/**
 * The DAG advisor: it builds a causal graph from pre-collected inputs, reads an adjustment
 * set off a graph, and recommends an identification strategy. The language model the
 * advisor holds and the configuration file it loads are not used by these operations and
 * are not modelled; the E-value computation lives in module `EValues`.
 */
module CausalAdvisor {
  import opened Common
  import opened Text
  import opened CausalGraph

  // ---------- inputs and the graph they describe ----------

  /** The pre-collected inputs dictionary. Each documented key is either absent (`None`) or
      holds a value of its documented type; `otherKeys` records whether any other key is
      present, which only matters for the truth value of the dictionary. */
  datatype UserInputs = UserInputs(exposure: Option<string>, outcome: Option<string>,
                                   confounders: Option<seq<string>>,
                                   mediators: Option<seq<string>>, otherKeys: bool)

  /** `if user_inputs:` is false for a missing and for an empty dictionary. */
  predicate InputsTruthy(u: Option<UserInputs>)
  {
    u.Some? &&
    (u.value.exposure.Some? || u.value.outcome.Some? || u.value.confounders.Some? ||
     u.value.mediators.Some? || u.value.otherKeys)
  }

  function OrEmpty(o: Option<seq<string>>): seq<string>
  {
    if o.Some? then o.value else []
  }

  /** Measured nodes of one role, one per name, in order. */
  function RoleNodes(names: seq<string>, t: NodeType): (r: seq<DAGNode>)
    ensures |r| == |names|
    ensures forall i :: 0 <= i < |names| ==> r[i] == DAGNode(names[i], t, true)
  {
    seq(|names|, i requires 0 <= i < |names| => DAGNode(names[i], t, true))
  }

  /** Each confounder points into the exposure and then into the outcome. */
  function ConfounderEdges(cs: seq<string>, e: string, o: string): (r: seq<DAGEdge>)
    ensures |r| == 2 * |cs|
    decreases |cs|
  {
    if |cs| == 0 then []
    else
      var c := cs[|cs| - 1];
      ConfounderEdges(cs[..|cs| - 1], e, o) + [DAGEdge(c, e, Causal), DAGEdge(c, o, Causal)]
  }

  /** Each mediator is entered from the exposure and points into the outcome. */
  function MediatorEdges(ms: seq<string>, e: string, o: string): (r: seq<DAGEdge>)
    ensures |r| == 2 * |ms|
    decreases |ms|
  {
    if |ms| == 0 then []
    else
      var m := ms[|ms| - 1];
      MediatorEdges(ms[..|ms| - 1], e, o) + [DAGEdge(e, m, Causal), DAGEdge(m, o, Causal)]
  }

  /** The graph the inputs describe once both ends are known. */
  function BuiltGraph(e: string, o: string, cs: seq<string>, ms: seq<string>): Graph
  {
    Graph([DAGNode(e, Exposure, true), DAGNode(o, Outcome, true)]
            + RoleNodes(cs, Confounder) + RoleNodes(ms, Mediator),
          ConfounderEdges(cs, e, o) + MediatorEdges(ms, e, o) + [DAGEdge(e, o, Causal)],
          Some(e), Some(o))
  }

  /** What `construct_dag_interactive` produces: the empty graph for falsy inputs, a
      `KeyError` naming the first missing end it looks up (the exposure is always looked up
      first), and otherwise the described graph. */
  function Constructed(u: Option<UserInputs>): Result<Graph>
  {
    if !InputsTruthy(u) then Success(EmptyGraph)
    else if u.value.exposure.None? then Failure(KeyError("exposure"))
    else if u.value.outcome.None? then Failure(KeyError("outcome"))
    else Success(BuiltGraph(u.value.exposure.value, u.value.outcome.value,
                            OrEmpty(u.value.confounders), OrEmpty(u.value.mediators)))
  }

  /** Every construction either fails on a missing end or gives two nodes for the ends, one
      per confounder and mediator, and two edges per confounder and mediator plus the
      exposure-outcome edge. */
  lemma ConstructedShape(u: Option<UserInputs>)
    ensures Constructed(u).Failure? <==>
      InputsTruthy(u) && (u.value.exposure.None? || u.value.outcome.None?)
    ensures Constructed(u).Success? && InputsTruthy(u) ==>
      var g := Constructed(u).value;
      var cs, ms := OrEmpty(u.value.confounders), OrEmpty(u.value.mediators);
      |g.nodes| == 2 + |cs| + |ms| && |g.edges| == 2 * |cs| + 2 * |ms| + 1 &&
      g.exposure == u.value.exposure && g.outcome == u.value.outcome
  {
  }

  // ---------- facts about the described graph ----------

  lemma {:induction false} HasEdgeAppend(a: seq<DAGEdge>, b: seq<DAGEdge>, x: string, y: string)
    ensures HasEdge(a + b, x, y) <==> HasEdge(a, x, y) || HasEdge(b, x, y)
  {
    if HasEdge(a + b, x, y) {
      var i :| 0 <= i < |a + b| && (a + b)[i].fromNode == x && (a + b)[i].toNode == y;
      if i >= |a| {
        assert b[i - |a|] == (a + b)[i];
      }
    }
    if HasEdge(b, x, y) {
      var i :| 0 <= i < |b| && b[i].fromNode == x && b[i].toNode == y;
      assert (a + b)[|a| + i] == b[i];
    }
    if HasEdge(a, x, y) {
      var i :| 0 <= i < |a| && a[i].fromNode == x && a[i].toNode == y;
      assert (a + b)[i] == a[i];
    }
  }

  lemma {:induction false} ConfounderEdgesHas(cs: seq<string>, e: string, o: string, x: string, y: string)
    ensures HasEdge(ConfounderEdges(cs, e, o), x, y) <==> x in cs && (y == e || y == o)
    decreases |cs|
  {
    if |cs| > 0 {
      var n := |cs| - 1;
      var c := cs[n];
      ConfounderEdgesHas(cs[..n], e, o, x, y);
      var tail := [DAGEdge(c, e, Causal), DAGEdge(c, o, Causal)];
      HasEdgeAppend(ConfounderEdges(cs[..n], e, o), tail, x, y);
      assert HasEdge(tail, x, y) <==> x == c && (y == e || y == o) by {
        if x == c && y == e { assert tail[0].fromNode == x && tail[0].toNode == y; }
        if x == c && y == o { assert tail[1].fromNode == x && tail[1].toNode == y; }
      }
      assert cs == cs[..n] + [c];
    }
  }

  lemma {:induction false} MediatorEdgesHas(ms: seq<string>, e: string, o: string, x: string, y: string)
    ensures HasEdge(MediatorEdges(ms, e, o), x, y) <==> (x == e && y in ms) || (x in ms && y == o)
    decreases |ms|
  {
    if |ms| > 0 {
      var n := |ms| - 1;
      var m := ms[n];
      MediatorEdgesHas(ms[..n], e, o, x, y);
      var tail := [DAGEdge(e, m, Causal), DAGEdge(m, o, Causal)];
      HasEdgeAppend(MediatorEdges(ms[..n], e, o), tail, x, y);
      assert HasEdge(tail, x, y) <==> (x == e && y == m) || (x == m && y == o) by {
        if x == e && y == m { assert tail[0].fromNode == x && tail[0].toNode == y; }
        if x == m && y == o { assert tail[1].fromNode == x && tail[1].toNode == y; }
      }
      assert ms == ms[..n] + [m];
    }
  }

  /** The edges of the described graph, as a relation. */
  lemma {:induction false} BuiltEdges(e: string, o: string, cs: seq<string>, ms: seq<string>, x: string, y: string)
    ensures HasEdge(BuiltGraph(e, o, cs, ms).edges, x, y) <==>
      (x in cs && (y == e || y == o)) || (x == e && y in ms) || (x in ms && y == o) ||
      (x == e && y == o)
  {
    var ce, me, last := ConfounderEdges(cs, e, o), MediatorEdges(ms, e, o), [DAGEdge(e, o, Causal)];
    HasEdgeAppend(ce + me, last, x, y);
    HasEdgeAppend(ce, me, x, y);
    ConfounderEdgesHas(cs, e, o, x, y);
    MediatorEdgesHas(ms, e, o, x, y);
    assert HasEdge(last, x, y) <==> x == e && y == o by {
      if x == e && y == o { assert last[0].fromNode == x && last[0].toNode == y; }
    }
  }

  /** The node scan distributes over concatenated node lists. */
  lemma {:induction false} TrianglePathsAppend(a: seq<DAGNode>, b: seq<DAGNode>, edges: seq<DAGEdge>,
                                               x: string, y: string)
    ensures TrianglePaths(a + b, edges, x, y) == TrianglePaths(a, edges, x, y) + TrianglePaths(b, edges, x, y)
    decreases |b|
  {
    if |b| == 0 {
      assert a + b == a;
    } else {
      var n := |b| - 1;
      assert (a + b)[..|a + b| - 1] == a + b[..n];
      assert (a + b)[|a + b| - 1] == b[n];
      TrianglePathsAppend(a, b[..n], edges, x, y);
    }
  }

  /** A node list in which every node is an apex contributes one path per node, in order. */
  lemma {:induction false} AllApexPaths(ns: seq<DAGNode>, edges: seq<DAGEdge>, x: string, y: string)
    requires forall i :: 0 <= i < |ns| ==> IsTriangleApex(edges, x, y, ns[i].name)
    ensures TrianglePaths(ns, edges, x, y) == seq(|ns|, k requires 0 <= k < |ns| => [x, ns[k].name, y])
    decreases |ns|
  {
    if |ns| > 0 {
      var n := |ns| - 1;
      AllApexPaths(ns[..n], edges, x, y);
    }
  }

  /** A node list without an apex contributes nothing. */
  lemma {:induction false} NoApexPaths(ns: seq<DAGNode>, edges: seq<DAGEdge>, x: string, y: string)
    requires forall i :: 0 <= i < |ns| ==> !IsTriangleApex(edges, x, y, ns[i].name)
    ensures TrianglePaths(ns, edges, x, y) == []
    decreases |ns|
  {
    if |ns| > 0 {
      NoApexPaths(ns[..|ns| - 1], edges, x, y);
    }
  }

  /** Names of the ends, confounders and mediators are pairwise apart, and the ends are set. */
  predicate DistinctRoles(e: string, o: string, cs: seq<string>, ms: seq<string>)
  {
    e != "" && o != "" && e != o && e !in cs && o !in cs && e !in ms && o !in ms &&
    forall m :: m in ms ==> m !in cs
  }

  /** A listed confounder points into both ends. */
  lemma {:induction false} ConfounderIsApex(e: string, o: string, cs: seq<string>, ms: seq<string>, c: string)
    requires DistinctRoles(e, o, cs, ms) && c in cs
    ensures IsTriangleApex(BuiltGraph(e, o, cs, ms).edges, e, o, c)
  {
    BuiltEdges(e, o, cs, ms, c, e);
    BuiltEdges(e, o, cs, ms, c, o);
  }

  /** A listed mediator does not point into the exposure. */
  lemma {:induction false} MediatorIsNotApex(e: string, o: string, cs: seq<string>, ms: seq<string>, m: string)
    requires DistinctRoles(e, o, cs, ms) && m in ms
    ensures !IsTriangleApex(BuiltGraph(e, o, cs, ms).edges, e, o, m)
  {
    BuiltEdges(e, o, cs, ms, m, e);
  }

  lemma {:induction false} ConfoundersGivePaths(e: string, o: string, cs: seq<string>, ms: seq<string>)
    requires DistinctRoles(e, o, cs, ms)
    ensures TrianglePaths(RoleNodes(cs, Confounder), BuiltGraph(e, o, cs, ms).edges, e, o) ==
      seq(|cs|, k requires 0 <= k < |cs| => [e, cs[k], o])
  {
    var edges, cn := BuiltGraph(e, o, cs, ms).edges, RoleNodes(cs, Confounder);
    forall i | 0 <= i < |cn| ensures IsTriangleApex(edges, e, o, cn[i].name) {
      ConfounderIsApex(e, o, cs, ms, cs[i]);
    }
    AllApexPaths(cn, edges, e, o);
  }

  lemma {:induction false} MediatorsGiveNoPaths(e: string, o: string, cs: seq<string>, ms: seq<string>)
    requires DistinctRoles(e, o, cs, ms)
    ensures TrianglePaths(RoleNodes(ms, Mediator), BuiltGraph(e, o, cs, ms).edges, e, o) == []
  {
    var edges, mn := BuiltGraph(e, o, cs, ms).edges, RoleNodes(ms, Mediator);
    forall i | 0 <= i < |mn| ensures !IsTriangleApex(edges, e, o, mn[i].name) {
      MediatorIsNotApex(e, o, cs, ms, ms[i]);
    }
    NoApexPaths(mn, edges, e, o);
  }

  lemma {:induction false} PathsOfThreeParts(a: seq<DAGNode>, b: seq<DAGNode>, c: seq<DAGNode>,
                                             edges: seq<DAGEdge>, x: string, y: string)
    ensures TrianglePaths(a + b + c, edges, x, y) ==
      TrianglePaths(a, edges, x, y) + TrianglePaths(b, edges, x, y) + TrianglePaths(c, edges, x, y)
  {
    TrianglePathsAppend(a + b, c, edges, x, y);
    TrianglePathsAppend(a, b, edges, x, y);
  }

  /** With distinct names, the backdoor search finds exactly one path, exposure, confounder,
      outcome, per confounder the inputs list, in their order; mediators open none. */
  lemma {:induction false} BuiltBackdoorPaths(e: string, o: string, cs: seq<string>, ms: seq<string>)
    requires DistinctRoles(e, o, cs, ms)
    ensures BackdoorPaths(BuiltGraph(e, o, cs, ms)) == seq(|cs|, k requires 0 <= k < |cs| => [e, cs[k], o])
  {
    var g := BuiltGraph(e, o, cs, ms);
    var ends := [DAGNode(e, Exposure, true), DAGNode(o, Outcome, true)];
    var cn, mn := RoleNodes(cs, Confounder), RoleNodes(ms, Mediator);
    assert g.nodes == ends + cn + mn;
    NoApexPaths(ends, g.edges, e, o);
    ConfoundersGivePaths(e, o, cs, ms);
    MediatorsGiveNoPaths(e, o, cs, ms);
    BackdoorOfMiddle(g, ends, cn, mn);
  }

  /** When the first and last parts of the node list open no path, the search finds what the
      middle part opens. */
  lemma BackdoorOfMiddle(g: Graph, a: seq<DAGNode>, b: seq<DAGNode>, c: seq<DAGNode>)
    requires IsSet(g.exposure) && IsSet(g.outcome) && g.nodes == a + b + c
    requires TrianglePaths(a, g.edges, g.exposure.value, g.outcome.value) == []
    requires TrianglePaths(c, g.edges, g.exposure.value, g.outcome.value) == []
    ensures BackdoorPaths(g) == TrianglePaths(b, g.edges, g.exposure.value, g.outcome.value)
  {
    var x, y := g.exposure.value, g.outcome.value;
    PathsOfThreeParts(a, b, c, g.edges, x, y);
    EmptyAround(TrianglePaths(b, g.edges, x, y));
  }

  // ---------- adjustment sets ----------

  datatype AdjustmentSet = AdjustmentSet(variables: seq<string>, setType: string,
                                         blocksPaths: seq<string>, warnings: seq<string>)

  const PathArrow := " ← "

  /** `[n.name for n in nodes if n.node_type == t]`. */
  function NamesOfType(nodes: seq<DAGNode>, t: NodeType): (r: seq<string>)
    ensures |r| <= |nodes|
    ensures forall x :: x in r <==> exists i :: 0 <= i < |nodes| && nodes[i].nodeType == t && nodes[i].name == x
    decreases |nodes|
  {
    if |nodes| == 0 then []
    else
      var n := |nodes| - 1;
      var prefix := NamesOfType(nodes[..n], t);
      assert forall i :: 0 <= i < n ==> nodes[..n][i] == nodes[i];
      prefix + (if nodes[n].nodeType == t then [nodes[n].name] else [])
  }

  lemma {:induction false} NamesOfTypeAppend(a: seq<DAGNode>, b: seq<DAGNode>, t: NodeType)
    ensures NamesOfType(a + b, t) == NamesOfType(a, t) + NamesOfType(b, t)
    decreases |b|
  {
    if |b| == 0 {
      assert a + b == a;
    } else {
      var n := |b| - 1;
      assert (a + b)[..|a + b| - 1] == a + b[..n];
      assert (a + b)[|a + b| - 1] == b[n];
      NamesOfTypeAppend(a, b[..n], t);
    }
  }

  lemma {:induction false} NamesOfRoleNodes(names: seq<string>, t: NodeType, u: NodeType)
    ensures NamesOfType(RoleNodes(names, t), u) == if t == u then names else []
    decreases |names|
  {
    if |names| > 0 {
      var n := |names| - 1;
      var rs := RoleNodes(names, t);
      assert rs[..n] == RoleNodes(names[..n], t);
      assert rs[n] == DAGNode(names[n], t, true);
      assert NamesOfType(rs, u) == NamesOfType(rs[..n], u) + (if t == u then [names[n]] else []);
      NamesOfRoleNodes(names[..n], t, u);
      assert names == names[..n] + [names[n]];
    }
  }

  function ColliderWarning(colliders: seq<string>): string
  {
    "Do NOT control for colliders: " + Join(colliders, ", ") + " (induces bias)"
  }

  /** `[" ← ".join(path) for path in paths]`. */
  function PathStrings(paths: seq<seq<string>>): (r: seq<string>)
    ensures |r| == |paths|
    ensures forall k :: 0 <= k < |paths| ==> r[k] == Join(paths[k], PathArrow)
  {
    seq(|paths|, k requires 0 <= k < |paths| => Join(paths[k], PathArrow))
  }

  /** What `identify_adjustment_sets` returns for a graph, or for none. The ends are tested
      with `is None` here, so an end set to the empty name passes this test while the
      backdoor search still finds nothing. */
  function AdjustmentSets(g: Option<Graph>): (r: Result<seq<AdjustmentSet>>)
    ensures g.None? || g.value.exposure.None? || g.value.outcome.None? ==> r == Success([])
    ensures g.Some? && g.value.exposure.Some? && g.value.outcome.Some? ==>
      var cs, cols := NamesOfType(g.value.nodes, Confounder), NamesOfType(g.value.nodes, Collider);
      (r.Failure? <==> |cs| == 0 && |cols| > 0) &&
      (r.Failure? ==> r.error.IndexError?) &&
      (r.Success? ==> |r.value| == (if |cs| > 0 then 1 else 0)) &&
      (r.Success? && |cs| > 0 ==>
         r.value[0].variables == cs &&
         r.value[0].setType == "minimal_sufficient" &&
         r.value[0].blocksPaths == PathStrings(BackdoorPaths(g.value)) &&
         r.value[0].warnings == (if |cols| > 0 then [ColliderWarning(cols)] else []))
  {
    if g.None? || g.value.exposure.None? || g.value.outcome.None? then Success([])
    else
      var graph := g.value;
      var cs := NamesOfType(graph.nodes, Confounder);
      var sets := if |cs| > 0
        then [AdjustmentSet(cs, "minimal_sufficient", PathStrings(BackdoorPaths(graph)), [])]
        else [];
      var cols := NamesOfType(graph.nodes, Collider);
      if |cols| == 0 then Success(sets)
      else if |sets| == 0 then Failure(IndexError("list index out of range"))
      else Success([sets[0].(warnings := sets[0].warnings + [ColliderWarning(cols)])])
  }

  /** The names of each role in a constructed graph are exactly the ones the inputs list. */
  lemma {:induction false} BuiltNamesOfType(e: string, o: string, cs: seq<string>, ms: seq<string>, t: NodeType)
    ensures NamesOfType(BuiltGraph(e, o, cs, ms).nodes, t) ==
      (if t == Exposure then [e] else []) + (if t == Outcome then [o] else []) +
      (if t == Confounder then cs else []) + (if t == Mediator then ms else [])
  {
    var ends := [DAGNode(e, Exposure, true), DAGNode(o, Outcome, true)];
    var cn, mn := RoleNodes(cs, Confounder), RoleNodes(ms, Mediator);
    NamesOfTypeAppend(ends + cn, mn, t);
    NamesOfTypeAppend(ends, cn, t);
    NamesOfRoleNodes(cs, Confounder, t);
    NamesOfRoleNodes(ms, Mediator, t);
    NamesOfEnds(e, o, t);
  }

  lemma NamesOfEnds(e: string, o: string, t: NodeType)
    ensures NamesOfType([DAGNode(e, Exposure, true), DAGNode(o, Outcome, true)], t) ==
      (if t == Exposure then [e] else []) + (if t == Outcome then [o] else [])
  {
    var ends := [DAGNode(e, Exposure, true), DAGNode(o, Outcome, true)];
    assert ends[..1] == [ends[0]];
    assert [ends[0]][..0] == [];
  }

  lemma JoinThree(a: string, b: string, c: string, sep: string)
    ensures Join([a, b, c], sep) == a + sep + b + sep + c
  {
    assert [a, b, c][1..] == [b, c];
    assert [b, c][1..] == [c];
    assert Join([c], sep) == c;
    assert Join([b, c], sep) == b + sep + c;
    assert Join([a, b, c], sep) == a + sep + (b + sep + c);
  }

  /** For distinct names, the adjustment set of a constructed graph is the list of
      confounders, and it names one `exposure ← confounder ← outcome` path for each. */
  lemma {:induction false} BuiltAdjustmentSet(e: string, o: string, cs: seq<string>, ms: seq<string>)
    requires DistinctRoles(e, o, cs, ms) && |cs| > 0
    ensures var r := AdjustmentSets(Some(BuiltGraph(e, o, cs, ms)));
      && r.Success? && |r.value| == 1
      && r.value[0].variables == cs
      && r.value[0].warnings == []
      && |r.value[0].blocksPaths| == |cs|
      && forall k :: 0 <= k < |cs| ==> r.value[0].blocksPaths[k] == e + PathArrow + cs[k] + PathArrow + o
  {
    BuiltAdjustmentValue(e, o, cs, ms);
    BuiltPathStrings(e, o, cs, ms);
  }

  lemma BuiltAdjustmentValue(e: string, o: string, cs: seq<string>, ms: seq<string>)
    requires DistinctRoles(e, o, cs, ms) && |cs| > 0
    ensures var g := BuiltGraph(e, o, cs, ms);
      AdjustmentSets(Some(g)) == Success([AdjustmentSet(cs, "minimal_sufficient", PathStrings(BackdoorPaths(g)), [])])
  {
    var g := BuiltGraph(e, o, cs, ms);
    var none: seq<string> := [];
    BuiltNamesOfType(e, o, cs, ms, Confounder);
    assert none + none + cs + none == cs;
    BuiltNamesOfType(e, o, cs, ms, Collider);
    assert none + none + none + none == [];
    SetsWithoutColliders(g);
  }

  /** With both ends set, confounders present and no collider, the one set is returned as is. */
  lemma SetsWithoutColliders(g: Graph)
    requires g.exposure.Some? && g.outcome.Some?
    requires |NamesOfType(g.nodes, Confounder)| > 0 && NamesOfType(g.nodes, Collider) == []
    ensures AdjustmentSets(Some(g)) ==
      Success([AdjustmentSet(NamesOfType(g.nodes, Confounder), "minimal_sufficient", PathStrings(BackdoorPaths(g)), [])])
  {
  }

  lemma BuiltPathStrings(e: string, o: string, cs: seq<string>, ms: seq<string>)
    requires DistinctRoles(e, o, cs, ms)
    ensures var ps := PathStrings(BackdoorPaths(BuiltGraph(e, o, cs, ms)));
      |ps| == |cs| && forall k :: 0 <= k < |cs| ==> ps[k] == e + PathArrow + cs[k] + PathArrow + o
  {
    var bp := BackdoorPaths(BuiltGraph(e, o, cs, ms));
    BuiltBackdoorPaths(e, o, cs, ms);
    forall k | 0 <= k < |cs| ensures Join(bp[k], PathArrow) == e + PathArrow + cs[k] + PathArrow + o {
      assert bp[k] == [e, cs[k], o];
      JoinThree(e, cs[k], o, PathArrow);
    }
  }

  // ---------- identification strategy ----------

  datatype Strategy = NoDag | BackdoorAdjustment | InstrumentalVariable | FrontDoorAdjustment | StandardRegression

  function StrategyText(s: Strategy): string
  {
    match s
    case NoDag => "Cannot recommend without DAG"
    case BackdoorAdjustment => "Backdoor Adjustment: Control for all confounders in regression."
    case InstrumentalVariable => "Instrumental Variable: Use IV to address unmeasured confounding."
    case FrontDoorAdjustment => "Front-door Adjustment: Use mediator if it fully mediates the effect."
    case StandardRegression =>
      "Standard regression adjustment with available confounders, but be aware of potential unmeasured confounding."
  }

  /** Some node of this name is measured; the test is by name, not by node. */
  predicate HasMeasuredNamesake(nodes: seq<DAGNode>, c: string)
  {
    exists j :: 0 <= j < |nodes| && nodes[j].name == c && nodes[j].measured
  }

  /** `[c for c in cs if any(n.name == c and n.measured for n in nodes)]`. */
  function MeasuredOnly(cs: seq<string>, nodes: seq<DAGNode>): (r: seq<string>)
    ensures |r| <= |cs|
    ensures |r| == |cs| <==> forall k :: 0 <= k < |cs| ==> HasMeasuredNamesake(nodes, cs[k])
    decreases |cs|
  {
    if |cs| == 0 then []
    else
      var n := |cs| - 1;
      var prefix := MeasuredOnly(cs[..n], nodes);
      assert forall k :: 0 <= k < n ==> cs[..n][k] == cs[k];
      prefix + (if HasMeasuredNamesake(nodes, cs[n]) then [cs[n]] else [])
  }

  predicate HasRole(nodes: seq<DAGNode>, t: NodeType)
  {
    exists i :: 0 <= i < |nodes| && nodes[i].nodeType == t
  }

  /** Every confounder node has a measured node of the same name. */
  predicate ConfoundersMeasured(nodes: seq<DAGNode>)
  {
    forall i :: 0 <= i < |nodes| && nodes[i].nodeType == Confounder ==> HasMeasuredNamesake(nodes, nodes[i].name)
  }

  /** What `recommend_identification_strategy` answers: the first rule that applies wins.
      Backdoor adjustment when every confounder is measured (vacuously so when there is
      none), then an instrument, then a mediator; the front-door rule's second test, that
      some confounder is unmeasured, always holds once the first rule has failed. */
  function Recommend(g: Option<Graph>): (s: Strategy)
    ensures s == NoDag <==> g.None?
    ensures s == BackdoorAdjustment <==> g.Some? && ConfoundersMeasured(g.value.nodes)
    ensures s == InstrumentalVariable <==>
      g.Some? && !ConfoundersMeasured(g.value.nodes) && HasRole(g.value.nodes, Instrument)
    ensures s == FrontDoorAdjustment <==>
      g.Some? && !ConfoundersMeasured(g.value.nodes) && !HasRole(g.value.nodes, Instrument) &&
      HasRole(g.value.nodes, Mediator)
    ensures s == StandardRegression <==>
      g.Some? && !ConfoundersMeasured(g.value.nodes) && !HasRole(g.value.nodes, Instrument) &&
      !HasRole(g.value.nodes, Mediator)
  {
    if g.None? then NoDag
    else
      var nodes := g.value.nodes;
      var cs := NamesOfType(nodes, Confounder);
      var measured := MeasuredOnly(cs, nodes);
      assert |measured| == |cs| <==> ConfoundersMeasured(nodes) by {
        if ConfoundersMeasured(nodes) {
          forall k | 0 <= k < |cs| ensures HasMeasuredNamesake(nodes, cs[k]) {
            assert cs[k] in cs;
          }
        } else {
          var i :| 0 <= i < |nodes| && nodes[i].nodeType == Confounder &&
                   !HasMeasuredNamesake(nodes, nodes[i].name);
          assert nodes[i].name in cs;
        }
      }
      if |measured| == |cs| then BackdoorAdjustment
      else
        var instruments := NamesOfType(nodes, Instrument);
        assert |instruments| > 0 <==> HasRole(nodes, Instrument) by {
          if |instruments| > 0 {
            assert instruments[0] in instruments;
          }
          if HasRole(nodes, Instrument) {
            var i :| 0 <= i < |nodes| && nodes[i].nodeType == Instrument;
            assert nodes[i].name in instruments;
          }
        }
        if |instruments| > 0 then InstrumentalVariable
        else
          var mediators := NamesOfType(nodes, Mediator);
          assert |mediators| > 0 <==> HasRole(nodes, Mediator) by {
            if |mediators| > 0 {
              assert mediators[0] in mediators;
            }
            if HasRole(nodes, Mediator) {
              var i :| 0 <= i < |nodes| && nodes[i].nodeType == Mediator;
              assert nodes[i].name in mediators;
            }
          }
          if |mediators| > 0 && |measured| < |cs| then FrontDoorAdjustment
          else StandardRegression
  }

  /** Because the measured test goes by name, an unmeasured confounder is taken as measured
      when another node of the same name is measured. */
  lemma NamesakeMasksUnmeasuredConfounder()
    ensures Recommend(Some(Graph([DAGNode("Age", Confounder, false), DAGNode("Age", Exposure, true)],
                                 [], Some("Age"), None))) == BackdoorAdjustment
  {
    var nodes := [DAGNode("Age", Confounder, false), DAGNode("Age", Exposure, true)];
    assert HasMeasuredNamesake(nodes, "Age") by { assert nodes[1].name == "Age" && nodes[1].measured; }
  }

  /** A constructed graph has only measured nodes, so its recommendation is always backdoor
      adjustment. */
  lemma ConstructedRecommendsBackdoor(u: Option<UserInputs>)
    requires Constructed(u).Success?
    ensures Recommend(Some(Constructed(u).value)) == BackdoorAdjustment
  {
    var g := Constructed(u).value;
    forall i | 0 <= i < |g.nodes| && g.nodes[i].nodeType == Confounder
      ensures HasMeasuredNamesake(g.nodes, g.nodes[i].name)
    {
      assert g.nodes[i].measured;
    }
  }

  /** The error a lookup of the two ends raises, the exposure being looked up first. */
  function MissingEnd(exposure: Option<string>, outcome: Option<string>): Error
  {
    if exposure.None? then KeyError("exposure") else KeyError("outcome")
  }

  /** The confounder loop of `construct_dag_interactive`: each confounder becomes a measured
      node with edges into the exposure and the outcome, looked up in that order. With an end
      missing, the first confounder raises `KeyError`. */
  method AddConfounders(dag: CausalDAG, cs: seq<string>, exposure: Option<string>, outcome: Option<string>)
    returns (r: Result<()>)
    modifies dag
    ensures r.Failure? <==> |cs| > 0 && (exposure.None? || outcome.None?)
    ensures r.Failure? ==> r.error == MissingEnd(exposure, outcome)
    ensures exposure.Some? && outcome.Some? ==>
      dag.nodes == old(dag.nodes) + RoleNodes(cs, Confounder) &&
      dag.edges == old(dag.edges) + ConfounderEdges(cs, exposure.value, outcome.value) &&
      dag.exposure == old(dag.exposure) && dag.outcome == old(dag.outcome)
  {
    var i := 0;
    while i < |cs|
      invariant 0 <= i <= |cs|
      invariant i > 0 ==> exposure.Some? && outcome.Some?
      invariant exposure.Some? && outcome.Some? ==>
        dag.nodes == old(dag.nodes) + RoleNodes(cs[..i], Confounder) &&
        dag.edges == old(dag.edges) + ConfounderEdges(cs[..i], exposure.value, outcome.value) &&
        dag.exposure == old(dag.exposure) && dag.outcome == old(dag.outcome)
    {
      dag.AddNode(cs[i], Confounder, true);
      if exposure.None? {
        return Failure(KeyError("exposure"));
      }
      dag.AddEdge(cs[i], exposure.value, Causal);
      if outcome.None? {
        return Failure(KeyError("outcome"));
      }
      dag.AddEdge(cs[i], outcome.value, Causal);
      assert cs[..i + 1][..i] == cs[..i];
      assert RoleNodes(cs[..i + 1], Confounder) == RoleNodes(cs[..i], Confounder) + [DAGNode(cs[i], Confounder, true)];
      i := i + 1;
    }
    assert cs[..i] == cs;
    return Success(());
  }

  /** The mediator loop: each mediator becomes a measured node entered from the exposure and
      pointing into the outcome; with an end missing, the first mediator raises `KeyError`. */
  method AddMediators(dag: CausalDAG, ms: seq<string>, exposure: Option<string>, outcome: Option<string>)
    returns (r: Result<()>)
    modifies dag
    ensures r.Failure? <==> |ms| > 0 && (exposure.None? || outcome.None?)
    ensures r.Failure? ==> r.error == MissingEnd(exposure, outcome)
    ensures exposure.Some? && outcome.Some? ==>
      dag.nodes == old(dag.nodes) + RoleNodes(ms, Mediator) &&
      dag.edges == old(dag.edges) + MediatorEdges(ms, exposure.value, outcome.value) &&
      dag.exposure == old(dag.exposure) && dag.outcome == old(dag.outcome)
  {
    var j := 0;
    while j < |ms|
      invariant 0 <= j <= |ms|
      invariant j > 0 ==> exposure.Some? && outcome.Some?
      invariant exposure.Some? && outcome.Some? ==>
        dag.nodes == old(dag.nodes) + RoleNodes(ms[..j], Mediator) &&
        dag.edges == old(dag.edges) + MediatorEdges(ms[..j], exposure.value, outcome.value) &&
        dag.exposure == old(dag.exposure) && dag.outcome == old(dag.outcome)
    {
      dag.AddNode(ms[j], Mediator, true);
      if exposure.None? {
        return Failure(KeyError("exposure"));
      }
      dag.AddEdge(exposure.value, ms[j], Causal);
      if outcome.None? {
        return Failure(KeyError("outcome"));
      }
      dag.AddEdge(ms[j], outcome.value, Causal);
      assert ms[..j + 1][..j] == ms[..j];
      assert RoleNodes(ms[..j + 1], Mediator) == RoleNodes(ms[..j], Mediator) + [DAGNode(ms[j], Mediator, true)];
      j := j + 1;
    }
    assert ms[..j] == ms;
    return Success(());
  }

  /** The body of `construct_dag_interactive` once the inputs are truthy: the ends, then the
      confounders, then the mediators, then the exposure-outcome edge, into a new graph. */
  method BuildDag(dag: CausalDAG, u: UserInputs) returns (r: Result<CausalDAG>)
    requires dag.nodes == [] && dag.edges == [] && dag.exposure == None && dag.outcome == None
    modifies dag
    ensures r.Success? <==> u.exposure.Some? && u.outcome.Some?
    ensures r.Failure? ==> r.error == MissingEnd(u.exposure, u.outcome)
    ensures r.Success? ==>
      r.value == dag &&
      dag.Snapshot() == BuiltGraph(u.exposure.value, u.outcome.value, OrEmpty(u.confounders), OrEmpty(u.mediators))
  {
    if u.exposure.Some? {
      dag.AddNode(u.exposure.value, Exposure, true);
    }
    if u.outcome.Some? {
      dag.AddNode(u.outcome.value, Outcome, true);
    }
    var cs := OrEmpty(u.confounders);
    var added := AddConfounders(dag, cs, u.exposure, u.outcome);
    if added.Failure? {
      return Failure(added.error);
    }
    var ms := OrEmpty(u.mediators);
    added := AddMediators(dag, ms, u.exposure, u.outcome);
    if added.Failure? {
      return Failure(added.error);
    }
    if u.exposure.None? {
      return Failure(KeyError("exposure"));
    }
    if u.outcome.None? {
      return Failure(KeyError("outcome"));
    }
    var e, o := u.exposure.value, u.outcome.value;
    assert dag.nodes == [DAGNode(e, Exposure, true), DAGNode(o, Outcome, true)]
                        + RoleNodes(cs, Confounder) + RoleNodes(ms, Mediator);
    assert dag.edges == ConfounderEdges(cs, e, o) + MediatorEdges(ms, e, o);
    dag.AddEdge(e, o, Causal);
    return Success(dag);
  }

  // ---------- the advisor object ----------

  /** The graph a call uses: the one passed, else the advisor's current one. */
  function Chosen(dag: CausalDAG?, current: CausalDAG?): CausalDAG?
  {
    if dag != null then dag else current
  }

  function GraphOf(d: CausalDAG?): Option<Graph>
    reads d
  {
    if d == null then None else Some(d.Snapshot())
  }

  class DAGAdvisor {
    var currentDag: CausalDAG?

    constructor ()
      ensures currentDag == null
    {
      currentDag := null;
    }

    /** `construct_dag_interactive`: builds the graph node by node and edge by edge. A
        missing end raises `KeyError` part-way, and then the current graph stays as it was. */
    method ConstructDagInteractive(researchQuestion: string, userInputs: Option<UserInputs>)
      returns (r: Result<CausalDAG>)
      modifies this
      ensures r.Success? <==> Constructed(userInputs).Success?
      ensures r.Success? ==> fresh(r.value) && currentDag == r.value &&
                             r.value.Snapshot() == Constructed(userInputs).value
      ensures r.Failure? ==> currentDag == old(currentDag) &&
                             r.error == Constructed(userInputs).error
    {
      var dag := new CausalDAG();
      if !InputsTruthy(userInputs) {
        currentDag := dag;
        return Success(dag);
      }
      r := BuildDag(dag, userInputs.value);
      if r.Success? {
        currentDag := r.value;
      }
    }

    /** `identify_adjustment_sets`, on the graph passed or else the current one. */
    method IdentifyAdjustmentSets(dag: CausalDAG?) returns (r: Result<seq<AdjustmentSet>>)
      ensures r == AdjustmentSets(GraphOf(Chosen(dag, currentDag)))
    {
      var d := if dag != null then dag else currentDag;
      if d == null || d.exposure.None? || d.outcome.None? {
        return Success([]);
      }
      var paths := d.FindBackdoorPaths();
      var confounders := NamesOfType(d.nodes, Confounder);
      var sets: seq<AdjustmentSet> := [];
      if |confounders| > 0 {
        sets := [AdjustmentSet(confounders, "minimal_sufficient", PathStrings(paths), [])];
      }
      var colliders := NamesOfType(d.nodes, Collider);
      if |colliders| > 0 {
        if |sets| == 0 {
          return Failure(IndexError("list index out of range"));
        }
        sets := [sets[0].(warnings := sets[0].warnings + [ColliderWarning(colliders)])];
      }
      return Success(sets);
    }

    /** `recommend_identification_strategy`; the list of available data is accepted and
        not consulted, as in the implementation. */
    method RecommendIdentificationStrategy(dag: CausalDAG?, dataAvailable: Option<seq<string>>)
      returns (s: string)
      ensures s == StrategyText(Recommend(GraphOf(Chosen(dag, currentDag))))
    {
      var d := if dag != null then dag else currentDag;
      s := StrategyText(Recommend(GraphOf(d)));
    }
  }
}
