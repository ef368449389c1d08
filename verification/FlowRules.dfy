/** The rules of a valid flow, written out over its nodes and arrows (rust/crates/zf-compiler/src/graph_compiler.rs,
    `validate_depth`, `validate_context_model_pairs` and `pause_path`). */
module FlowRules {
  import opened Base
  import opened Reachability
  import opened FlowGraph
  import opened ModelPairs
  import opened ParallelWaits
  import opened FlowValidation

  predicate Leaves(flow: Flow, i: nat, id: string) { i < |flow.arrows| && flow.arrows[i].source == id }
  predicate Enters(flow: Flow, i: nat, id: string) { i < |flow.arrows| && flow.arrows[i].target == id }
  predicate Stands(flow: Flow, i: nat, id: string) { i < |flow.nodes| && flow.nodes[i].id == id }

  // ----- Arrows of a node -----

  function End(e: Arrow, out: bool): string { if out then e.source else e.target }

  /** The arrows that leave (`out`) or enter a node. */
  function Ending(arrows: seq<Arrow>, id: string, out: bool): seq<Arrow> {
    if out then Outgoing(arrows, id) else Incoming(arrows, id)
  }

  /** Their positions. */
  function Positions(arrows: seq<Arrow>, id: string, out: bool): seq<nat> {
    if arrows == [] then []
    else
      var n := |arrows| - 1;
      Positions(arrows[..n], id, out) + if End(arrows[n], out) == id then [n] else []
  }

  lemma {:induction false} PositionsLength(arrows: seq<Arrow>, id: string, out: bool)
    ensures |Positions(arrows, id, out)| == |Ending(arrows, id, out)|
  {
    if arrows != [] { PositionsLength(arrows[..|arrows| - 1], id, out); }
  }

  lemma {:induction false} PositionsPlace(arrows: seq<Arrow>, id: string, out: bool, m: nat)
    requires m < |Positions(arrows, id, out)|
    ensures |Positions(arrows, id, out)| == |Ending(arrows, id, out)|
    ensures Positions(arrows, id, out)[m] < |arrows|
    ensures arrows[Positions(arrows, id, out)[m]] == Ending(arrows, id, out)[m]
  {
    var n := |arrows| - 1;
    PositionsLength(arrows, id, out);
    PositionsLength(arrows[..n], id, out);
    if m < |Positions(arrows[..n], id, out)| {
      PositionsPlace(arrows[..n], id, out, m);
      assert arrows[..n][Positions(arrows[..n], id, out)[m]] == arrows[Positions(arrows[..n], id, out)[m]];
    }
  }

  lemma {:induction false} PositionsAscend(arrows: seq<Arrow>, id: string, out: bool, l: nat, m: nat)
    requires l < m < |Positions(arrows, id, out)|
    ensures Positions(arrows, id, out)[l] < Positions(arrows, id, out)[m]
  {
    var n := |arrows| - 1;
    if m < |Positions(arrows[..n], id, out)| {
      PositionsAscend(arrows[..n], id, out, l, m);
    } else {
      PositionsPlace(arrows[..n], id, out, l);
    }
  }

  lemma {:induction false} PositionsHold(arrows: seq<Arrow>, id: string, out: bool, k: nat)
    ensures k in Positions(arrows, id, out) <==> k < |arrows| && End(arrows[k], out) == id
  {
    if arrows != [] { PositionsHold(arrows[..|arrows| - 1], id, out, k); }
  }

  /** A position is listed at an index, and the arrow there is the one drawn. */
  lemma At(arrows: seq<Arrow>, id: string, out: bool, m: nat)
    requires m < |Positions(arrows, id, out)|
    ensures |Positions(arrows, id, out)| == |Ending(arrows, id, out)|
    ensures var k := Positions(arrows, id, out)[m]; k < |arrows| && arrows[k] == Ending(arrows, id, out)[m] && End(arrows[k], out) == id
  {
    PositionsPlace(arrows, id, out, m);
    PositionsHold(arrows, id, out, Positions(arrows, id, out)[m]);
  }

  /** A single arrow is listed exactly if one position holds every arrow of that end. */
  lemma One(arrows: seq<Arrow>, id: string, out: bool, k: nat)
    requires k < |arrows| && End(arrows[k], out) == id
    requires forall l: nat | l < |arrows| && End(arrows[l], out) == id :: l == k
    ensures Ending(arrows, id, out) == [arrows[k]]
  {
    var at := Positions(arrows, id, out);
    PositionsHold(arrows, id, out, k);
    At(arrows, id, out, 0);
    if |at| > 1 {
      At(arrows, id, out, 1);
      PositionsAscend(arrows, id, out, 0, 1);
    }
  }

  lemma OnlyOne(arrows: seq<Arrow>, id: string, out: bool) returns (k: nat)
    requires |Ending(arrows, id, out)| == 1
    ensures k < |arrows| && End(arrows[k], out) == id && arrows[k] == Ending(arrows, id, out)[0]
    ensures forall l: nat | l < |arrows| && End(arrows[l], out) == id :: l == k
  {
    PositionsLength(arrows, id, out);
    At(arrows, id, out, 0);
    k := Positions(arrows, id, out)[0];
    forall l: nat | l < |arrows| && End(arrows[l], out) == id ensures l == k { PositionsHold(arrows, id, out, l); }
  }

  /** One arrow leaves for the true and one for the false outcome, and no other. */
  ghost predicate LeavesBothWays(flow: Flow, id: string) {
    exists i: nat, j: nat :: Leaves(flow, i, id) && Leaves(flow, j, id) && BothWays(flow, i, j, id)
  }

  ghost predicate BothWays(flow: Flow, i: nat, j: nat, id: string)
    requires Leaves(flow, i, id) && Leaves(flow, j, id)
  {
    && flow.arrows[i].handle == Some("true") && flow.arrows[j].handle == Some("false")
    && forall k: nat | Leaves(flow, k, id) :: k == i || k == j
  }

  ghost predicate LeavesNothing(flow: Flow, id: string) {
    forall i: nat :: !Leaves(flow, i, id)
  }

  /** Exactly one arrow leaves `id`, and it leads to `to`. */
  ghost predicate LeavesOnlyTo(flow: Flow, id: string, to: string) {
    exists i: nat :: Leaves(flow, i, id) && flow.arrows[i].target == to && forall k: nat | Leaves(flow, k, id) :: k == i
  }

  /** Exactly one arrow enters `id`, and it comes from `from`. */
  ghost predicate EnteredOnlyFrom(flow: Flow, id: string, from: string) {
    exists i: nat :: Enters(flow, i, id) && flow.arrows[i].source == from && forall k: nat | Enters(flow, k, id) :: k == i
  }

  lemma NothingLeaves(flow: Flow, id: string)
    ensures Outgoing(flow.arrows, id) == [] <==> LeavesNothing(flow, id)
  {
    PositionsLength(flow.arrows, id, true);
    if Outgoing(flow.arrows, id) != [] {
      At(flow.arrows, id, true, 0);
      assert Leaves(flow, Positions(flow.arrows, id, true)[0], id);
    }
    if !LeavesNothing(flow, id) {
      var i: nat :| Leaves(flow, i, id);
      PositionsHold(flow.arrows, id, true, i);
    }
  }

  predicate TrueAndFalse(out: seq<Arrow>) {
    && |out| == 2
    && ((out[0].handle == Some("true") && out[1].handle == Some("false")) || (out[0].handle == Some("false") && out[1].handle == Some("true")))
  }

  lemma TwoListed(flow: Flow, id: string)
    requires TrueAndFalse(Outgoing(flow.arrows, id))
    ensures LeavesBothWays(flow, id)
  {
    var at := Positions(flow.arrows, id, true);
    PositionsLength(flow.arrows, id, true);
    At(flow.arrows, id, true, 0);
    At(flow.arrows, id, true, 1);
    forall k: nat | Leaves(flow, k, id) ensures k == at[0] || k == at[1] { PositionsHold(flow.arrows, id, true, k); }
    assert Leaves(flow, at[0], id) && Leaves(flow, at[1], id);
    if flow.arrows[at[0]].handle == Some("true") {
      assert BothWays(flow, at[0], at[1], id);
    } else {
      assert BothWays(flow, at[1], at[0], id);
    }
  }

  lemma TwoDrawn(flow: Flow, id: string, i: nat, j: nat)
    requires Leaves(flow, i, id) && Leaves(flow, j, id) && BothWays(flow, i, j, id)
    ensures TrueAndFalse(Outgoing(flow.arrows, id))
  {
    var at := Positions(flow.arrows, id, true);
    PositionsHold(flow.arrows, id, true, i);
    PositionsHold(flow.arrows, id, true, j);
    var x :| 0 <= x < |at| && at[x] == i;
    var y :| 0 <= y < |at| && at[y] == j;
    At(flow.arrows, id, true, 0);
    At(flow.arrows, id, true, 1);
    assert Leaves(flow, at[0], id) && Leaves(flow, at[1], id);
    PositionsAscend(flow.arrows, id, true, 0, 1);
    if |at| > 2 {
      At(flow.arrows, id, true, 2);
      assert Leaves(flow, at[2], id);
      PositionsAscend(flow.arrows, id, true, 1, 2);
    }
  }

  lemma TwoLeave(flow: Flow, id: string)
    ensures TrueAndFalse(Outgoing(flow.arrows, id)) <==> LeavesBothWays(flow, id)
  {
    if TrueAndFalse(Outgoing(flow.arrows, id)) { TwoListed(flow, id); }
    if LeavesBothWays(flow, id) {
      var i: nat, j: nat :| Leaves(flow, i, id) && Leaves(flow, j, id) && BothWays(flow, i, j, id);
      TwoDrawn(flow, id, i, j);
    }
  }

  lemma OneLeaves(flow: Flow, id: string, to: string)
    ensures (|Outgoing(flow.arrows, id)| == 1 && Outgoing(flow.arrows, id)[0].target == to) <==> LeavesOnlyTo(flow, id, to)
  {
    if |Outgoing(flow.arrows, id)| == 1 && Outgoing(flow.arrows, id)[0].target == to {
      var k := OnlyOne(flow.arrows, id, true);
      assert Leaves(flow, k, id);
    }
    if LeavesOnlyTo(flow, id, to) {
      var k: nat :| Leaves(flow, k, id) && flow.arrows[k].target == to && forall l: nat | Leaves(flow, l, id) :: l == k;
      forall l: nat | l < |flow.arrows| && flow.arrows[l].source == id ensures l == k { assert Leaves(flow, l, id); }
      One(flow.arrows, id, true, k);
    }
  }

  lemma OneEnters(flow: Flow, id: string, from: string)
    ensures (|Incoming(flow.arrows, id)| == 1 && Incoming(flow.arrows, id)[0].source == from) <==> EnteredOnlyFrom(flow, id, from)
  {
    if |Incoming(flow.arrows, id)| == 1 && Incoming(flow.arrows, id)[0].source == from {
      var k := OnlyOne(flow.arrows, id, false);
      assert Enters(flow, k, id);
    }
    if EnteredOnlyFrom(flow, id, from) {
      var k: nat :| Enters(flow, k, id) && flow.arrows[k].source == from && forall l: nat | Enters(flow, l, id) :: l == k;
      forall l: nat | l < |flow.arrows| && flow.arrows[l].target == id ensures l == k { assert Enters(flow, l, id); }
      One(flow.arrows, id, false, k);
    }
  }

  // ----- The rules -----

  ghost predicate NodeRules(flow: Flow, n: Node) {
    && n.id != "" && '/' !in n.id && n.id != "__start__" && n.id != "__end__"
    && (n.kind == EndNode <==> LeavesNothing(flow, n.id))
    && (n.kind == ConditionNode ==> LeavesBothWays(flow, n.id))
    && (n.kind == ModelNode ==>
          (exists i: nat :: Stands(flow, i, n.partner) && flow.nodes[i].kind == ContextNode && flow.nodes[i].partner == n.id)
          && EnteredOnlyFrom(flow, n.id, n.partner))
    && (n.kind == ContextNode && flow.version >= 3 ==>
          (exists i: nat :: Stands(flow, i, n.partner) && flow.nodes[i].kind == ModelNode && flow.nodes[i].partner == n.id)
          && LeavesOnlyTo(flow, n.id, n.partner))
    && (n.kind == AgentNode ==> flow.version < 4)
  }

  ghost predicate ArrowRules(flow: Flow, e: Arrow) {
    && (exists i: nat :: Stands(flow, i, e.source)) && (exists i: nat :: Stands(flow, i, e.target))
    && forall i: nat | Stands(flow, i, e.target) :: flow.nodes[i].kind != StartNode
  }

  /** The single node of kind start, from which every node is reached along the arrows. */
  ghost predicate StartsAt(flow: Flow, s: nat) {
    && s < |flow.nodes| && flow.nodes[s].kind == StartNode
    && (forall i: nat | i < |flow.nodes| && flow.nodes[i].kind == StartNode :: i == s)
    && forall i: nat | i < |flow.nodes| :: Reach(Drawn(flow.arrows), flow.nodes[s].id, flow.nodes[i].id)
  }

  /** The rules of one flow, apart from the flows nested in it. */
  ghost predicate OwnRules(flow: Flow, depth: nat, rest: Rest) {
    && 1 <= flow.version <= 4 && depth <= 8 && |flow.nodes| <= 250 && rest(flow, depth)
    && (forall i, j | 0 <= i < j < |flow.nodes| :: flow.nodes[i].id != flow.nodes[j].id)
    && (forall i, j | 0 <= i < j < |flow.arrows| :: flow.arrows[i].id != flow.arrows[j].id)
    && (exists s: nat :: StartsAt(flow, s))
    && (forall i | 0 <= i < |flow.nodes| :: NodeRules(flow, flow.nodes[i]))
    && (forall i | 0 <= i < |flow.arrows| :: ArrowRules(flow, flow.arrows[i]))
    && ParallelOk(flow)
  }

  ghost predicate Rules(flow: Flow, depth: nat, rest: Rest)
    decreases flow
  {
    && OwnRules(flow, depth, rest)
    && forall i | 0 <= i < |flow.nodes| && flow.nodes[i].kind == SubgraphNode ::
         flow.nodes[i].child.Some? && flow.nodes[i].child.value.version == flow.version && Rules(flow.nodes[i].child.value, depth + 1, rest)
  }

  // ----- They are the rules of the validator -----

  lemma HasStands(flow: Flow, id: string)
    ensures Has(flow, id) <==> exists i: nat :: Stands(flow, i, id)
  {
    if Has(flow, id) {
      var i :| 0 <= i < |flow.nodes| && flow.nodes[i].id == id;
      assert Stands(flow, i, id);
    }
  }

  lemma ArrowMeans(flow: Flow, e: Arrow)
    ensures ArrowOk(flow, e) <==> ArrowRules(flow, e)
  {
    HasStands(flow, e.source);
    HasStands(flow, e.target);
    if HasKind(flow, e.target, StartNode) {
      var i :| 0 <= i < |flow.nodes| && flow.nodes[i].id == e.target && flow.nodes[i].kind == StartNode;
      assert Stands(flow, i, e.target);
    }
  }

  lemma PartnerStands(flow: Flow, id: string, kind: Kind, of: string)
    ensures Partner(flow, id, kind, of) <==> exists i: nat :: Stands(flow, i, id) && flow.nodes[i].kind == kind && flow.nodes[i].partner == of
  {
    if Partner(flow, id, kind, of) {
      var i :| 0 <= i < |flow.nodes| && flow.nodes[i].id == id && flow.nodes[i].kind == kind && flow.nodes[i].partner == of;
      assert Stands(flow, i, id);
    }
  }

  lemma NodeMeans(flow: Flow, n: Node)
    ensures NodeOk(flow, n) && PairOk(flow, n) && (flow.version < 4 || n.kind != AgentNode) <==> NodeRules(flow, n)
  {
    NothingLeaves(flow, n.id);
    TwoLeave(flow, n.id);
    OneLeaves(flow, n.id, n.partner);
    OneEnters(flow, n.id, n.partner);
    PartnerStands(flow, n.partner, ContextNode, n.id);
    PartnerStands(flow, n.partner, ModelNode, n.id);
  }

  lemma StartMeans(flow: Flow)
    ensures OneStart(flow) && AllReached(flow) <==> exists s: nat :: StartsAt(flow, s)
  {
    if OneStart(flow) && AllReached(flow) { assert StartsAt(flow, StartAt(flow.nodes).value); }
    if exists s: nat :: StartsAt(flow, s) {
      var s: nat :| StartsAt(flow, s);
      assert StartAt(flow.nodes) == Some(s);
    }
  }

  /** What the rules and the validator ask of the nodes of one flow alone. */
  lemma NodesMean(flow: Flow)
    ensures (forall i | 0 <= i < |flow.nodes| :: NodeOk(flow, flow.nodes[i]) && (flow.version < 4 || flow.nodes[i].kind != AgentNode))
              && PairsOk(flow)
            <==> forall i | 0 <= i < |flow.nodes| :: NodeRules(flow, flow.nodes[i])
  {
    forall i | 0 <= i < |flow.nodes|
      ensures NodeOk(flow, flow.nodes[i]) && PairOk(flow, flow.nodes[i]) && (flow.version < 4 || flow.nodes[i].kind != AgentNode)
        <==> NodeRules(flow, flow.nodes[i])
    {
      NodeMeans(flow, flow.nodes[i]);
    }
  }

  lemma ArrowsMean(flow: Flow)
    ensures (forall i | 0 <= i < |flow.arrows| :: ArrowOk(flow, flow.arrows[i]))
            <==> forall i | 0 <= i < |flow.arrows| :: ArrowRules(flow, flow.arrows[i])
  {
    forall i | 0 <= i < |flow.arrows| ensures ArrowOk(flow, flow.arrows[i]) <==> ArrowRules(flow, flow.arrows[i]) {
      ArrowMeans(flow, flow.arrows[i]);
    }
  }

  ghost predicate NestedValid(flow: Flow, depth: nat, rest: Rest) {
    forall i | 0 <= i < |flow.nodes| && flow.nodes[i].kind == SubgraphNode ::
      flow.nodes[i].child.Some? && flow.nodes[i].child.value.version == flow.version && Valid(flow.nodes[i].child.value, depth + 1, rest)
  }

  lemma ValidMeans(flow: Flow, depth: nat, rest: Rest)
    requires Valid(flow, depth, rest)
    ensures OwnRules(flow, depth, rest) && NestedValid(flow, depth, rest)
  {
    StartMeans(flow);
    NodesMean(flow);
    ArrowsMean(flow);
    assert forall i | 0 <= i < |flow.nodes| :: NodeFine(flow, flow.nodes[i], depth, rest);
  }

  lemma RulesMean(flow: Flow, depth: nat, rest: Rest)
    requires OwnRules(flow, depth, rest) && NestedValid(flow, depth, rest)
    ensures Valid(flow, depth, rest)
  {
    StartMeans(flow);
    NodesMean(flow);
    ArrowsMean(flow);
    assert forall i | 0 <= i < |flow.nodes| :: NodeFine(flow, flow.nodes[i], depth, rest);
  }

  /** A flow is valid exactly if these rules hold of it and of every flow nested in it. */
  lemma {:induction false} ValidExactly(flow: Flow, depth: nat, rest: Rest)
    ensures Valid(flow, depth, rest) <==> Rules(flow, depth, rest)
    decreases flow
  {
    forall i | 0 <= i < |flow.nodes| && flow.nodes[i].kind == SubgraphNode && flow.nodes[i].child.Some?
      ensures Valid(flow.nodes[i].child.value, depth + 1, rest) <==> Rules(flow.nodes[i].child.value, depth + 1, rest)
    {
      ValidExactly(flow.nodes[i].child.value, depth + 1, rest);
    }
    if Valid(flow, depth, rest) { ValidMeans(flow, depth, rest); }
    if Rules(flow, depth, rest) { RulesMean(flow, depth, rest); }
  }

  // ----- Waiting -----

  /** `m` is `n` itself or stands in a flow nested in it, at whatever depth. */
  ghost predicate Within(m: Node, n: Node)
    decreases n
  {
    m == n || (n.kind == SubgraphNode && n.child.Some? && exists i | 0 <= i < |n.child.value.nodes| :: Within(m, n.child.value.nodes[i]))
  }

  /** A question, an inbox, or a model or agent whose model is chosen by the run. */
  predicate Asks(m: Node) {
    m.kind == InputNode || m.kind == InboxNode || (m.runtimeModel && (m.kind == ModelNode || m.kind == AgentNode))
  }

  ghost predicate AsksWithin(n: Node) { exists m :: Within(m, n) && Asks(m) }

  lemma {:induction false} PausesExactly(n: Node)
    ensures Pauses(n) <==> AsksWithin(n)
    decreases n
  {
    if Asks(n) { assert Within(n, n); }
    if n.kind == SubgraphNode && n.child.Some? {
      var nodes := n.child.value.nodes;
      forall i | 0 <= i < |nodes| ensures Pauses(nodes[i]) <==> AsksWithin(nodes[i]) { PausesExactly(nodes[i]); }
      if i :| 0 <= i < |nodes| && Pauses(nodes[i]) {
        var m :| Within(m, nodes[i]) && Asks(m);
        assert Within(m, n);
      }
    }
  }

  /** At an accepted fork that is not a condition, at most one branch reaches a node in which something
      asks before the branches have been joined; and none does if a branch can return to the fork. */
  lemma OneBranchAsks(flow: Flow, depth: nat, rest: Rest, f: nat, a: string, b: string, i: nat, j: nat)
    requires Valid(flow, depth, rest) && f < |flow.nodes| && flow.nodes[f].kind != ConditionNode
    requires i < |flow.nodes| && AsksWithin(flow.nodes[i]) && j < |flow.nodes| && AsksWithin(flow.nodes[j])
    requires var fork := flow.nodes[f].id; var stop := Barriers(flow, fork) + {fork};
      && Edge(Drawn(flow.arrows), fork, a) && FreeReach(Drawn(flow.arrows), a, flow.nodes[i].id, stop)
      && Edge(Drawn(flow.arrows), fork, b) && FreeReach(Drawn(flow.arrows), b, flow.nodes[j].id, stop)
    ensures a == b
    ensures |Roots(flow, flow.nodes[f].id)| >= 2 ==> forall c | c in Roots(flow, flow.nodes[f].id) ::
      !Reenters(Drawn(flow.arrows), c, flow.nodes[f].id, Barriers(flow, flow.nodes[f].id) + {flow.nodes[f].id})
  {
    var fork := flow.nodes[f].id;
    PausesExactly(flow.nodes[i]);
    PausesExactly(flow.nodes[j]);
    assert flow.nodes[i].id in Pausing(flow) && flow.nodes[j].id in Pausing(flow);
    assert Waits(flow, fork, a) && Waits(flow, fork, b);
    assert a in Roots(flow, fork) && b in Roots(flow, fork);
    TwoRoots(Roots(flow, fork), a, b);
    assert |Roots(flow, fork)| >= 2 ==> ForkOk(flow, fork);
  }

  lemma TwoRoots(roots: set<string>, a: string, b: string)
    requires a in roots && b in roots
    ensures a != b ==> |roots| >= 2
  {
    assert roots == {a, b} + (roots - {a, b});
  }
}
