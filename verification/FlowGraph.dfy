/** Authored flow graphs and the walks through them (rust/crates/zf-flows/src/schema.rs and
    rust/crates/zf-compiler/src/graph_compiler.rs). */
module FlowGraph {
  import opened Base
  import opened Reachability

  datatype Kind = StartNode | EndNode | ConditionNode | ModelNode | ContextNode | InputNode | InboxNode | AgentNode | SubgraphNode | OtherNode

  /** `partner` is the context of a model or the model of a context; `fanInAny` asks for alternative
      arrivals; `runtimeModel` leaves the choice of a model to the run. */
  datatype Node = Node(id: string, kind: Kind, partner: string, fanInAny: bool, runtimeModel: bool, child: Option<Flow>)

  datatype Arrow = Arrow(id: string, source: string, target: string, handle: Option<string>)

  datatype Flow = Flow(version: nat, nodes: seq<Node>, arrows: seq<Arrow>)

  predicate Has(flow: Flow, id: string) {
    exists i | 0 <= i < |flow.nodes| :: flow.nodes[i].id == id
  }

  /** A node of that identity and kind. */
  predicate HasKind(flow: Flow, id: string, kind: Kind) {
    exists i | 0 <= i < |flow.nodes| :: flow.nodes[i].id == id && flow.nodes[i].kind == kind
  }

  predicate DistinctNodes(flow: Flow) {
    forall i, j | 0 <= i < j < |flow.nodes| :: flow.nodes[i].id != flow.nodes[j].id
  }

  /** The arrows that leave a node, in document order. */
  function Outgoing(arrows: seq<Arrow>, id: string): seq<Arrow> {
    if arrows == [] then []
    else
      var n := |arrows| - 1;
      Outgoing(arrows[..n], id) + (if arrows[n].source == id then [arrows[n]] else [])
  }

  function Sources(arrows: seq<Arrow>): set<string> {
    set i | 0 <= i < |arrows| :: arrows[i].source
  }

  function Targets(arrows: seq<Arrow>, id: string): set<string> {
    set i | 0 <= i < |arrows| && arrows[i].source == id :: arrows[i].target
  }

  /** The graph that arrows draw. */
  function Drawn(arrows: seq<Arrow>): Graph {
    map s | s in Sources(arrows) :: Targets(arrows, s)
  }

  lemma DrawnEdge(arrows: seq<Arrow>, a: string, b: string)
    ensures Edge(Drawn(arrows), a, b) <==> exists i | 0 <= i < |arrows| :: arrows[i].source == a && arrows[i].target == b
  {
  }

  lemma {:induction false} OutgoingMembers(arrows: seq<Arrow>, id: string)
    ensures forall e :: e in Outgoing(arrows, id) <==> e in arrows && e.source == id
  {
    if arrows != [] {
      var n := |arrows| - 1;
      OutgoingMembers(arrows[..n], id);
      assert arrows == arrows[..n] + [arrows[n]];
    }
  }

  // ----- Validity -----

  predicate ArrowOk(flow: Flow, e: Arrow) {
    Has(flow, e.source) && Has(flow, e.target) && !HasKind(flow, e.target, StartNode)
  }

  const START := "__start__"
  const END := "__end__"

  predicate NodeOk(flow: Flow, n: Node) {
    var out := Outgoing(flow.arrows, n.id);
    && n.id != "" && '/' !in n.id && n.id != START && n.id != END
    && (if n.kind == EndNode then out == [] else out != [])
    && (n.kind == ConditionNode ==>
          |out| == 2 && ((out[0].handle == Some("true") && out[1].handle == Some("false"))
                         || (out[0].handle == Some("false") && out[1].handle == Some("true"))))
  }

  /** What validation establishes of the shape of a flow, apart from reachability and nested flows. */
  predicate Shaped(flow: Flow) {
    && DistinctNodes(flow)
    && (exists i | 0 <= i < |flow.nodes| :: flow.nodes[i].kind == StartNode)
    && (forall i, j | 0 <= i < j < |flow.nodes| :: flow.nodes[i].kind != StartNode || flow.nodes[j].kind != StartNode)
    && (forall i | 0 <= i < |flow.nodes| :: NodeOk(flow, flow.nodes[i]))
    && (forall i | 0 <= i < |flow.arrows| :: ArrowOk(flow, flow.arrows[i]))
  }

  /** Position of the first start node. */
  function StartAt(nodes: seq<Node>): (r: Option<nat>)
    ensures r.Some? ==> r.value < |nodes| && nodes[r.value].kind == StartNode
    ensures r.None? ==> forall i | 0 <= i < |nodes| :: nodes[i].kind != StartNode
  {
    if nodes == [] then None
    else if nodes[0].kind == StartNode then Some(0)
    else
      var r := StartAt(nodes[1..]);
      if r.None? then None else Some(r.value + 1)
  }

  // ----- Reachability by repeated passes over the arrows -----

  /** The fixed point computed by passing over all arrows until nothing is added. */
  method ReachableFrom(arrows: seq<Arrow>, start: string) returns (r: set<string>)
    ensures forall x :: x in r <==> Reach(Drawn(arrows), start, x)
  {
    ghost var g := Drawn(arrows);
    ghost var all := {start} + set i | 0 <= i < |arrows| :: arrows[i].target;
    r := {start};
    ReachSelf(g, start);
    var grew := true;
    while grew
      invariant start in r && r <= all && forall x | x in r :: Reach(g, start, x)
      invariant !grew ==> forall i | 0 <= i < |arrows| && arrows[i].source in r :: arrows[i].target in r
      decreases all - r, grew
    {
      ghost var before := r;
      grew := false;
      var i := 0;
      while i < |arrows|
        invariant i <= |arrows| && before <= r <= all && start in r
        invariant forall x | x in r :: Reach(g, start, x)
        invariant !grew ==> r == before
        invariant grew ==> before < r
        invariant !grew ==> forall k | 0 <= k < i && arrows[k].source in r :: arrows[k].target in r
      {
        if arrows[i].source in r && arrows[i].target !in r {
          DrawnEdge(arrows, arrows[i].source, arrows[i].target);
          ReachEdge(g, start, arrows[i].source, arrows[i].target);
          r := r + {arrows[i].target};
          grew := true;
        }
        i := i + 1;
      }
    }
    forall x | Reach(g, start, x) ensures x in r {
      forall a | a in r && a in g ensures g[a] <= r {
        forall b | b in g[a] ensures b in r { DrawnEdge(arrows, a, b); }
      }
      ReachStays(g, start, x, r);
    }
  }
}
