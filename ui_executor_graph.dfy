/**
 * The graph builder that build_ui_app drives, and build_ui_app itself.
 * The builder keeps what the calls declare: registered node names, the
 * entry point, unconditional edges and, per source node, the label map of
 * a conditional branch. build_ui_app is proved to declare exactly the
 * transition table of StepTable.
 */
module UiExecutorGraph {
  import opened Optional
  import opened StepTable

  /** An edge's destination as the builder sees it: a node name, or END. */
  datatype Dest = Node(name: string) | Finish

  /** Everything the builder calls have declared. */
  datatype Topology = Topology(
    nodes: seq<string>,
    entry: Option<string>,
    edges: set<(string, Dest)>,
    branches: map<string, map<string, Dest>>)

  /** The builder's view of a table target. */
  function Lift(t: Target): Dest
  {
    match t
    case At(s) => Node(Name(s))
    case End => Finish
  }

  /** `d` is END or the name of a registered node. */
  predicate Registered(t: Topology, d: Dest)
  {
    d == Finish || d.name in t.nodes
  }

  /** No node name is registered twice. */
  predicate Distinct(names: seq<string>)
  {
    forall i, j :: 0 <= i < j < |names| ==> names[i] != names[j]
  }

  /** Names are distinct, the entry point is registered, and every edge joins registered nodes or END. */
  ghost predicate WellFormed(t: Topology)
  {
    && Distinct(t.nodes)
    && t.entry.Some? && t.entry.value in t.nodes
    && (forall e :: e in t.edges ==> e.0 in t.nodes && Registered(t, e.1))
    && (forall n :: n in t.branches ==> n in t.nodes)
    && (forall n, l :: n in t.branches && l in t.branches[n] ==> Registered(t, t.branches[n][l]))
  }

  /** `d` follows node `n`: by an unconditional edge or through some label of n's branch. */
  ghost predicate Linked(t: Topology, n: string, d: Dest)
  {
    || (n, d) in t.edges
    || (n in t.branches && exists l :: l in t.branches[n] && t.branches[n][l] == d)
  }

  /** The graph builder (StateGraph before compile): its declarations, updated in place. */
  class Builder {
    var nodes: seq<string>
    var entry: Option<string>
    var edges: set<(string, Dest)>
    var branches: map<string, map<string, Dest>>

    /** What has been declared so far. */
    function Declared(): Topology
      reads this
    {
      Topology(nodes, entry, edges, branches)
    }

    constructor ()
      ensures nodes == [] && entry == None && edges == {} && branches == map[]
    {
      nodes, entry, edges, branches := [], None, {}, map[];
    }

    /** add_node: register a node under `name`. */
    method AddNode(name: string)
      modifies this
      ensures nodes == old(nodes) + [name]
      ensures entry == old(entry) && edges == old(edges) && branches == old(branches)
    {
      nodes := nodes + [name];
    }

    /** set_entry_point: the run starts at `name`. */
    method SetEntryPoint(name: string)
      modifies this
      ensures entry == Some(name)
      ensures nodes == old(nodes) && edges == old(edges) && branches == old(branches)
    {
      entry := Some(name);
    }

    /** add_edge: `to` always follows `from`. */
    method AddEdge(from: string, to: Dest)
      modifies this
      ensures edges == old(edges) + {(from, to)}
      ensures nodes == old(nodes) && entry == old(entry) && branches == old(branches)
    {
      edges := edges + {(from, to)};
    }

    /** add_conditional_edges: after `source`, the router's label picks the destination in `pathMap`. */
    method AddConditionalEdges(source: string, pathMap: map<string, Dest>)
      modifies this
      ensures branches == old(branches)[source := pathMap]
      ensures nodes == old(nodes) && entry == old(entry) && edges == old(edges)
    {
      branches := branches[source := pathMap];
    }
  }

  /** The label map handed to add_conditional_edges after "approve". */
  const ApprovePathMap: map<string, Dest> := map["retry" := Node("retry"), "end" := Finish]

  /**
   * `t` declares the step graph: it is well formed, registers the six steps
   * in order under distinct names, enters at `prepare`, gives `approve` a
   * branch holding exactly Route's labels, and links two names exactly when
   * the transition table relates the two steps.
   */
  ghost predicate DeclaresStepTable(t: Topology)
  {
    DeclaresSteps(t) && DeclaresTransitions(t)
  }

  /** The registered nodes, the entry point and the branch after `approve` are those of the step table. */
  ghost predicate DeclaresSteps(t: Topology)
  {
    && WellFormed(t)
    && |t.nodes| == |StepOrder| && (forall i :: 0 <= i < |t.nodes| ==> t.nodes[i] == Name(StepOrder[i]))
    && t.entry == Some(Name(Prepare))
    && t.branches.Keys == {Name(Approve)}
    && (forall l :: l in t.branches[Name(Approve)] <==> Route(l).Some?)
    && (forall l :: l in t.branches[Name(Approve)] ==> t.branches[Name(Approve)][l] == Lift(Route(l).value))
  }

  /**
   * `approve` has no unconditional edge, the declared links join registered
   * nodes, and two step names are linked exactly when the steps are related.
   */
  ghost predicate DeclaresTransitions(t: Topology)
  {
    && (forall d :: (Name(Approve), d) !in t.edges)
    && (forall a: Step, b: Target :: Linked(t, Name(a), Lift(b)) <==> Transition(a, b))
    && (forall n, d :: Linked(t, n, d) ==> n in t.nodes && Registered(t, d))
  }

  /** build_ui_app: the builder calls, in build_ui_app's order, declare the step graph. */
  method BuildUiApp() returns (t: Topology)
    ensures DeclaresStepTable(t)
  {
    var g := new Builder();

    g.AddNode("prepare");
    g.AddNode("run");
    g.AddNode("parse");
    g.AddNode("llm_triage");
    g.AddNode("approve");
    g.AddNode("retry");

    g.SetEntryPoint("prepare");
    g.AddEdge("prepare", Node("run"));
    g.AddEdge("run", Node("parse"));
    g.AddEdge("parse", Node("llm_triage"));
    g.AddEdge("llm_triage", Node("approve"));

    g.AddConditionalEdges("approve", ApprovePathMap);

    g.AddEdge("retry", Node("run"));

    t := g.Declared();
    DeclaredFacts(t);
  }

  /** The node list build_ui_app registers. */
  const UiNodes: seq<string> := ["prepare", "run", "parse", "llm_triage", "approve", "retry"]

  /** The unconditional edges build_ui_app declares. */
  const UiEdges: set<(string, Dest)> :=
    {("prepare", Node("run")), ("run", Node("parse")), ("parse", Node("llm_triage")),
     ("llm_triage", Node("approve")), ("retry", Node("run"))}

  /** What the declarations of build_ui_app amount to. */
  lemma DeclaredFacts(t: Topology)
    requires t.nodes == UiNodes && t.entry == Some("prepare")
    requires t.edges == UiEdges && t.branches == map["approve" := ApprovePathMap]
    ensures DeclaresStepTable(t)
  {
    DeclaredSteps(t);
    DeclaredTransitions(t);
  }

  /** The registrations, the entry point and the branch of build_ui_app. */
  lemma DeclaredSteps(t: Topology)
    requires t.nodes == UiNodes && t.entry == Some("prepare")
    requires t.edges == UiEdges && t.branches == map["approve" := ApprovePathMap]
    ensures DeclaresSteps(t)
  {
    DeclaredWellFormed(t);
    DeclaredNodes(t);
    DeclaredBranch(t);
  }

  /** build_ui_app's declarations are well formed. */
  lemma DeclaredWellFormed(t: Topology)
    requires t.nodes == UiNodes && t.entry == Some("prepare")
    requires t.edges == UiEdges && t.branches == map["approve" := ApprovePathMap]
    ensures WellFormed(t)
  {
    DeclaredNodes(t);
    DeclaredEdges(t);
    DeclaredBranch(t);
  }

  /** The links that the edges and the branch of build_ui_app declare. */
  lemma DeclaredTransitions(t: Topology)
    requires t.nodes == UiNodes
    requires t.edges == UiEdges && t.branches == map["approve" := ApprovePathMap]
    ensures DeclaresTransitions(t)
  {
    DeclaredEdges(t);
    forall a: Step
      ensures forall b: Target :: Linked(t, Name(a), Lift(b)) <==> Transition(a, b)
    {
      DeclaredLinks(t, a);
    }
    DeclaredLinksRegistered(t);
  }

  /** The registered names are the step names, in step order, and hold the entry point. */
  lemma DeclaredNodes(t: Topology)
    requires t.nodes == UiNodes && t.entry == Some("prepare")
    ensures Distinct(t.nodes) && t.entry.value in t.nodes
    ensures |t.nodes| == |StepOrder| && forall i :: 0 <= i < |t.nodes| ==> t.nodes[i] == Name(StepOrder[i])
  {
  }

  /** The unconditional edges join registered nodes, and none leaves `approve`. */
  lemma DeclaredEdges(t: Topology)
    requires t.nodes == UiNodes && t.edges == UiEdges
    ensures forall e :: e in t.edges ==> e.0 in t.nodes && Registered(t, e.1)
    ensures forall d :: (Name(Approve), d) !in t.edges
  {
  }

  /** The one branch leaves a registered node, and its labels are exactly Route's. */
  lemma DeclaredBranch(t: Topology)
    requires t.nodes == UiNodes && t.branches == map["approve" := ApprovePathMap]
    ensures t.branches.Keys == {Name(Approve)}
    ensures forall n :: n in t.branches ==> n in t.nodes
    ensures forall n, l :: n in t.branches && l in t.branches[n] ==> Registered(t, t.branches[n][l])
    ensures forall l :: l in t.branches[Name(Approve)] <==> Route(l).Some?
    ensures forall l :: l in t.branches[Name(Approve)] ==> t.branches[Name(Approve)][l] == Lift(Route(l).value)
  {
    forall l
      ensures l in t.branches[Name(Approve)] <==> Route(l).Some?
    {
      RouteLabels(l);
    }
  }

  /** Every declared link, edge or branch, joins registered nodes or END. */
  lemma DeclaredLinksRegistered(t: Topology)
    requires t.nodes == UiNodes && t.edges == UiEdges && t.branches == map["approve" := ApprovePathMap]
    ensures forall n, d :: Linked(t, n, d) ==> n in t.nodes && Registered(t, d)
  {
    forall n, d | Linked(t, n, d)
      ensures n in t.nodes && Registered(t, d)
    {
      if (n, d) !in t.edges {
        var l :| l in t.branches[n] && t.branches[n][l] == d;
      }
    }
  }

  /** The declared links out of step a's name are exactly a's transitions. */
  lemma DeclaredLinks(t: Topology, a: Step)
    requires t.edges == UiEdges && t.branches == map["approve" := ApprovePathMap]
    ensures forall b: Target :: Linked(t, Name(a), Lift(b)) <==> Transition(a, b)
  {
    forall b: Target
      ensures Linked(t, Name(a), Lift(b)) <==> Transition(a, b)
    {
      ApproveSuccessors(b);
      if a == Approve {
        if b == At(Retry) {
          assert t.branches[Name(a)]["retry"] == Lift(b);
        } else if b == End {
          assert t.branches[Name(a)]["end"] == Lift(b);
        }
      }
    }
  }
}
