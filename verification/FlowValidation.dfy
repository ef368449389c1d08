/** Validation of a flow and its nested flows (rust/crates/zf-compiler/src/graph_compiler.rs,
    `validate_depth`): it establishes the shape that projection and lowering rely on. Settings of flows
    and nodes, field analysis and public contracts are one parameter. */
module FlowValidation {
  import opened Base
  import opened Reachability
  import opened FlowGraph
  import opened Lowering
  import opened ModelPairs
  import opened ParallelWaits

  const MAX_FLOWS := 8
  const MAX_NODES := 250

  /** What this model does not look into: a flow at a nesting depth. */
  type Rest = (Flow, nat) -> bool

  ghost predicate NodeFine(flow: Flow, n: Node, depth: nat, rest: Rest)
    decreases n, 1
  {
    && NodeOk(flow, n) && (flow.version < 4 || n.kind != AgentNode)
    && (n.kind == SubgraphNode ==>
          n.child.Some? && n.child.value.version == flow.version && Valid(n.child.value, depth + 1, rest))
  }

  predicate ArrowsDistinct(flow: Flow) {
    forall i, j | 0 <= i < j < |flow.arrows| :: flow.arrows[i].id != flow.arrows[j].id
  }

  predicate OneStart(flow: Flow) {
    && (exists i | 0 <= i < |flow.nodes| :: flow.nodes[i].kind == StartNode)
    && forall i, j | 0 <= i < j < |flow.nodes| :: flow.nodes[i].kind != StartNode || flow.nodes[j].kind != StartNode
  }

  /** Every node is reached from the start. */
  ghost predicate AllReached(flow: Flow) {
    StartAt(flow.nodes).Some? &&
    forall i | 0 <= i < |flow.nodes| :: Reach(Drawn(flow.arrows), flow.nodes[StartAt(flow.nodes).value].id, flow.nodes[i].id)
  }

  ghost predicate Valid(flow: Flow, depth: nat, rest: Rest)
    decreases flow
  {
    && 1 <= flow.version <= 4 && depth <= MAX_FLOWS && |flow.nodes| <= MAX_NODES && rest(flow, depth)
    && DistinctNodes(flow) && OneStart(flow)
    && (forall i | 0 <= i < |flow.nodes| :: NodeFine(flow, flow.nodes[i], depth, rest))
    && ArrowsDistinct(flow) && (forall i | 0 <= i < |flow.arrows| :: ArrowOk(flow, flow.arrows[i]))
    && AllReached(flow) && PairsOk(flow) && ParallelOk(flow)
  }

  // ----- The validator -----

  method CheckNodes(flow: Flow) returns (ok: bool)
    ensures ok <==> DistinctNodes(flow) && OneStart(flow)
  {
    var ids: set<string>, starts := {}, 0;
    ok := true;
    var i := 0;
    while i < |flow.nodes|
      invariant i <= |flow.nodes| && ids == set k | 0 <= k < i :: flow.nodes[k].id
      invariant ok <==> forall j, k | 0 <= j < k < i :: flow.nodes[j].id != flow.nodes[k].id
      invariant starts == StartCount(flow, i)
    {
      if flow.nodes[i].id in ids { ok := false; }
      ids := ids + {flow.nodes[i].id};
      if flow.nodes[i].kind == StartNode { starts := starts + 1; }
      i := i + 1;
    }
    OneCounted(flow, i);
    ok := ok && starts == 1;
  }

  function StartCount(flow: Flow, n: nat): nat
    requires n <= |flow.nodes|
  {
    if n == 0 then 0 else StartCount(flow, n - 1) + (if flow.nodes[n - 1].kind == StartNode then 1 else 0)
  }

  /** None, one, or at least two starts among the first `n` nodes. */
  lemma {:induction false} OneCounted(flow: Flow, n: nat)
    requires n <= |flow.nodes|
    ensures StartCount(flow, n) == 0 <==> forall i | 0 <= i < n :: flow.nodes[i].kind != StartNode
    ensures StartCount(flow, n) <= 1 <==>
      forall i, j | 0 <= i < j < n :: flow.nodes[i].kind != StartNode || flow.nodes[j].kind != StartNode
  {
    if n > 0 { OneCounted(flow, n - 1); }
  }

  method CheckArrows(flow: Flow) returns (ok: bool)
    ensures ok <==> ArrowsDistinct(flow) && forall i | 0 <= i < |flow.arrows| :: ArrowOk(flow, flow.arrows[i])
  {
    var ids: set<string> := {};
    ok := true;
    var i := 0;
    while i < |flow.arrows|
      invariant i <= |flow.arrows| && ids == set k | 0 <= k < i :: flow.arrows[k].id
      invariant ok <==>
        (forall j, k | 0 <= j < k < i :: flow.arrows[j].id != flow.arrows[k].id)
        && forall k | 0 <= k < i :: ArrowOk(flow, flow.arrows[k])
    {
      if flow.arrows[i].id in ids || !ArrowOk(flow, flow.arrows[i]) { ok := false; }
      ids := ids + {flow.arrows[i].id};
      i := i + 1;
    }
  }

  method CheckReached(flow: Flow) returns (ok: bool)
    ensures ok <==> AllReached(flow)
  {
    var start := StartAt(flow.nodes);
    if start.None? { return false; }
    var reachable := ReachableFrom(flow.arrows, flow.nodes[start.value].id);
    var i := 0;
    while i < |flow.nodes|
      invariant i <= |flow.nodes|
      invariant forall k | 0 <= k < i :: flow.nodes[k].id in reachable
    {
      if flow.nodes[i].id !in reachable { return false; }
      i := i + 1;
    }
    ok := true;
  }

  method ValidateNode(flow: Flow, n: Node, depth: nat, rest: Rest) returns (ok: bool)
    ensures ok <==> NodeFine(flow, n, depth, rest)
    decreases n, 1
  {
    if flow.version >= 4 && n.kind == AgentNode { return false; }
    if !NodeOk(flow, n) { return false; }
    ok := true;
    if n.kind == SubgraphNode {
      if n.child.None? || n.child.value.version != flow.version { return false; }
      ok := ValidateDepth(n.child.value, depth + 1, rest);
    }
  }

  /** `validate_depth`: a flow, and the flows nested in it one level deeper. */
  method ValidateDepth(flow: Flow, depth: nat, rest: Rest) returns (ok: bool)
    ensures ok <==> Valid(flow, depth, rest)
    decreases flow, 0
  {
    if !(1 <= flow.version <= 4) || depth > MAX_FLOWS || |flow.nodes| > MAX_NODES || !rest(flow, depth) { return false; }
    ok := CheckNodes(flow);
    if !ok { return; }
    var i := 0;
    while i < |flow.nodes|
      invariant i <= |flow.nodes| && forall k | 0 <= k < i :: NodeFine(flow, flow.nodes[k], depth, rest)
    {
      ok := ValidateNode(flow, flow.nodes[i], depth, rest);
      if !ok { return; }
      i := i + 1;
    }
    ok := CheckArrows(flow);
    if !ok { return; }
    ok := CheckReached(flow);
    if !ok { return; }
    ok := ValidatePairs(flow);
    if !ok { return; }
    ok := ValidateParallelWaits(flow);
  }

  // ----- What a valid flow is good for -----

  /** A valid flow has the assumed shape at every level. */
  lemma {:induction false} ValidIsShaped(flow: Flow, depth: nat, rest: Rest)
    requires Valid(flow, depth, rest)
    ensures DeeplyShaped(flow)
    decreases flow
  {
    forall i | 0 <= i < |flow.nodes| ensures NodeOk(flow, flow.nodes[i]) { assert NodeFine(flow, flow.nodes[i], depth, rest); }
    assert Shaped(flow);
    forall i | 0 <= i < |flow.nodes| && flow.nodes[i].kind == SubgraphNode
      ensures flow.nodes[i].child.Some? && DeeplyShaped(flow.nodes[i].child.value)
    {
      assert NodeFine(flow, flow.nodes[i], depth, rest);
      ValidIsShaped(flow.nodes[i].child.value, depth + 1, rest);
    }
  }

  /** The greatest number of flows nested in one another below `flow`. */
  function Nesting(flow: Flow): nat
    decreases flow, 0
  {
    NestingBelow(flow, |flow.nodes|)
  }

  function NestingBelow(flow: Flow, k: nat): nat
    requires k <= |flow.nodes|
    decreases flow, 0, k
  {
    if k == 0 then 0
    else
      var n, before := flow.nodes[k - 1], NestingBelow(flow, k - 1);
      var here := if n.kind == SubgraphNode && n.child.Some? then 1 + Nesting(n.child.value) else 0;
      if before < here then here else before
  }

  /** What is nested in the node at `i` keeps to the limit. */
  predicate ChildFits(flow: Flow, i: nat, depth: nat)
    requires i < |flow.nodes|
  {
    var n := flow.nodes[i];
    n.kind == SubgraphNode && n.child.Some? ==> depth + 1 + Nesting(n.child.value) <= MAX_FLOWS
  }

  lemma {:induction false} NestingFits(flow: Flow, k: nat, depth: nat)
    requires k <= |flow.nodes| && depth <= MAX_FLOWS && forall i | 0 <= i < k :: ChildFits(flow, i, depth)
    ensures depth + NestingBelow(flow, k) <= MAX_FLOWS
    decreases k
  {
    if k > 0 {
      NestingFits(flow, k - 1, depth);
      assert ChildFits(flow, k - 1, depth);
    }
  }

  lemma {:induction false} NestingIsBounded(flow: Flow, depth: nat, rest: Rest)
    requires Valid(flow, depth, rest)
    ensures depth + Nesting(flow) <= MAX_FLOWS
    decreases flow
  {
    forall i | 0 <= i < |flow.nodes| ensures ChildFits(flow, i, depth) {
      if flow.nodes[i].kind == SubgraphNode {
        var child := ValidChild(flow, i, depth, rest);
        NestingIsBounded(child, depth + 1, rest);
      }
    }
    NestingFits(flow, |flow.nodes|, depth);
  }

  lemma ValidChild(flow: Flow, i: nat, depth: nat, rest: Rest) returns (child: Flow)
    requires Valid(flow, depth, rest) && i < |flow.nodes| && flow.nodes[i].kind == SubgraphNode
    ensures flow.nodes[i].child == Some(child) && child < flow && Valid(child, depth + 1, rest)
  {
    assert NodeFine(flow, flow.nodes[i], depth, rest);
    child := flow.nodes[i].child.value;
  }

  /** What the compiler gets from a validated document: its lowering succeeds and lists every step of
      every arrow exactly as often as it is drawn, every node can be reached, no flow is nested more
      than eight levels deep, models are entered from their contexts only, and no fork has two branches
      that may wait. */
  lemma ValidFlowsCompile(flow: Flow, rest: Rest, a: Arc)
    requires Valid(flow, 0, rest)
    ensures LowerFlow(flow).Some? && Nesting(flow) <= MAX_FLOWS
    ensures Times(LowerFlow(flow).value.edges, a) == ArrowTimes(flow, flow.arrows, a)
    ensures AllReached(flow) && PairsOk(flow) && ParallelOk(flow)
  {
    ValidIsShaped(flow, 0, rest);
    LoweringSucceeds(flow);
    LoweringKeepsArcs(flow, a);
    NestingIsBounded(flow, 0, rest);
  }
}
