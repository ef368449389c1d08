/** Lowering of a validated flow into an execution plan (rust/crates/zf-compiler/src/plan.rs,
    `lower_validated`), and that it keeps the successor relation. */
module Lowering {
  import opened Base
  import opened FlowGraph

  datatype PlannedEdge =
    | Direct(source: string, target: string)
    | Alternative(source: string, target: string)
    | Conditional(source: string, yes: string, no: string)

  datatype PlannedNode = PlannedNode(id: string, kind: Kind, child: Option<Plan>)

  datatype Plan = Plan(version: nat, nodes: seq<PlannedNode>, edges: seq<PlannedEdge>)

  /** Every end is the one end of the plan. */
  function TargetOf(flow: Flow, id: string): string {
    if HasKind(flow, id, EndNode) then END else id
  }

  predicate AlternativeArrival(flow: Flow, target: string) {
    exists i | 0 <= i < |flow.nodes| :: flow.nodes[i].id == target && flow.nodes[i].fanInAny
  }

  /** Position of the first arrow with that handle. */
  function Handle(arrows: seq<Arrow>, handle: string): (r: Option<nat>)
    ensures r.Some? ==> r.value < |arrows| && arrows[r.value].handle == Some(handle)
    ensures r.None? ==> forall i | 0 <= i < |arrows| :: arrows[i].handle != Some(handle)
  {
    if arrows == [] then None
    else if arrows[0].handle == Some(handle) then Some(0)
    else
      var r := Handle(arrows[1..], handle);
      if r.None? then None else Some(r.value + 1)
  }

  function LowerArrow(flow: Flow, n: Node, e: Arrow): PlannedEdge {
    var target := TargetOf(flow, e.target);
    if n.kind != StartNode && AlternativeArrival(flow, e.target) then Alternative(n.id, target)
    else Direct(if n.kind == StartNode then START else n.id, target)
  }

  function LowerArrows(flow: Flow, n: Node, arrows: seq<Arrow>): seq<PlannedEdge> {
    seq(|arrows|, i requires 0 <= i < |arrows| => LowerArrow(flow, n, arrows[i]))
  }

  /** The planned edges that leave one node. */
  function LowerNode(flow: Flow, n: Node): Option<seq<PlannedEdge>> {
    var out := Outgoing(flow.arrows, n.id);
    if n.kind == ConditionNode then
      var yes, no := Handle(out, "true"), Handle(out, "false");
      if yes.None? || no.None? then None
      else Some([Conditional(n.id, TargetOf(flow, out[yes.value].target), TargetOf(flow, out[no.value].target))])
    else Some(LowerArrows(flow, n, out))
  }

  /** The planned edges of the first `k` nodes. */
  function LowerEdges(flow: Flow, k: nat): Option<seq<PlannedEdge>>
    requires k <= |flow.nodes|
  {
    if k == 0 then Some([])
    else
      var before, last := LowerEdges(flow, k - 1), LowerNode(flow, flow.nodes[k - 1]);
      if before.None? || last.None? then None else Some(before.value + last.value)
  }

  function LowerNodes(flow: Flow, k: nat): Option<seq<PlannedNode>>
    requires k <= |flow.nodes|
    decreases flow, 0, k
  {
    if k == 0 then Some([])
    else
      var before := LowerNodes(flow, k - 1);
      var n := flow.nodes[k - 1];
      if before.None? then None
      else if n.kind == StartNode || n.kind == EndNode then before
      else
        var child := if n.kind == SubgraphNode && n.child.Some? then LowerFlow(n.child.value) else None;
        if n.kind == SubgraphNode && child.None? then None
        else Some(before.value + [PlannedNode(n.id, n.kind, child)])
  }

  function LowerFlow(flow: Flow): Option<Plan>
    decreases flow, 1, 0
  {
    var nodes, edges := LowerNodes(flow, |flow.nodes|), LowerEdges(flow, |flow.nodes|);
    if nodes.None? || edges.None? then None else Some(Plan(flow.version, nodes.value, edges.value))
  }

  /** `lower_validated`. */
  method Lower(flow: Flow) returns (plan: Option<Plan>)
    ensures plan == LowerFlow(flow)
    decreases flow
  {
    var nodes: seq<PlannedNode> := [];
    var k := 0;
    while k < |flow.nodes|
      invariant k <= |flow.nodes| && LowerNodes(flow, k) == Some(nodes)
    {
      var n := flow.nodes[k];
      if n.kind != StartNode && n.kind != EndNode {
        var child: Option<Plan> := None;
        if n.kind == SubgraphNode {
          if n.child.Some? { child := Lower(n.child.value); }
          if child.None? {
            NodesStop(flow, k + 1);
            return None;
          }
        }
        nodes := nodes + [PlannedNode(n.id, n.kind, child)];
      }
      k := k + 1;
    }
    var edges: seq<PlannedEdge> := [];
    k := 0;
    while k < |flow.nodes|
      invariant k <= |flow.nodes| && LowerEdges(flow, k) == Some(edges)
    {
      var more := LowerFrom(flow, flow.nodes[k]);
      if more.None? {
        EdgesStop(flow, k + 1);
        return None;
      }
      edges := edges + more.value;
      k := k + 1;
    }
    plan := Some(Plan(flow.version, nodes, edges));
  }

  method LowerFrom(flow: Flow, n: Node) returns (edges: Option<seq<PlannedEdge>>)
    ensures edges == LowerNode(flow, n)
  {
    var out := Outgoing(flow.arrows, n.id);
    if n.kind == ConditionNode {
      var yes, no := Handle(out, "true"), Handle(out, "false");
      if yes.None? || no.None? { return None; }
      return Some([Conditional(n.id, TargetOf(flow, out[yes.value].target), TargetOf(flow, out[no.value].target))]);
    }
    var all: seq<PlannedEdge> := [];
    var i := 0;
    while i < |out|
      invariant i <= |out| && all == LowerArrows(flow, n, out[..i])
    {
      assert out[..i + 1] == out[..i] + [out[i]];
      all := all + [LowerArrow(flow, n, out[i])];
      i := i + 1;
    }
    assert out[..i] == out;
    edges := Some(all);
  }

  lemma {:induction false} NodesStop(flow: Flow, k: nat)
    requires k <= |flow.nodes| && LowerNodes(flow, k).None?
    ensures LowerNodes(flow, |flow.nodes|).None?
    decreases |flow.nodes| - k
  {
    if k < |flow.nodes| { NodesStop(flow, k + 1); }
  }

  lemma {:induction false} EdgesStop(flow: Flow, k: nat)
    requires k <= |flow.nodes| && LowerEdges(flow, k).None?
    ensures LowerEdges(flow, |flow.nodes|).None?
    decreases |flow.nodes| - k
  {
    if k < |flow.nodes| { EdgesStop(flow, k + 1); }
  }

  // ----- Arcs: one possible step of control -----

  /** A step from `source` to `target`, taken always or only for one outcome of a condition. An
      alternative step lets its target run by itself; the other unconditional steps into a target are
      joined, and it waits for all of them. */
  datatype Arc = Arc(source: string, target: string, outcome: Option<bool>, alternative: bool)

  function One(b: bool): nat { if b then 1 else 0 }

  /** How often a planned edge takes that step. */
  function EdgeTimes(e: PlannedEdge, a: Arc): nat {
    match e
    case Direct(s, t) => One(a == Arc(s, t, None, false))
    case Alternative(s, t) => One(a == Arc(s, t, None, true))
    case Conditional(s, yes, no) => One(a == Arc(s, yes, Some(true), false)) + One(a == Arc(s, no, Some(false), false))
  }

  /** How often a plan lists that step. */
  function Times(edges: seq<PlannedEdge>, a: Arc): nat {
    if edges == [] then 0 else Times(edges[..|edges| - 1], a) + EdgeTimes(edges[|edges| - 1], a)
  }

  /** The name of a node in the plan. */
  function NameOf(flow: Flow, id: string): string {
    if HasKind(flow, id, StartNode) then START else id
  }

  /** The arrow leaves neither the start nor a condition, and the node it names asks for any arrival. */
  predicate ArrivesAlone(flow: Flow, e: Arrow) {
    && !HasKind(flow, e.source, StartNode) && !HasKind(flow, e.source, ConditionNode)
    && exists n | n in flow.nodes :: n.id == e.target && n.fanInAny
  }

  /** The step that an authored arrow stands for. */
  function ArcOf(flow: Flow, e: Arrow): Arc {
    Arc(NameOf(flow, e.source), TargetOf(flow, e.target),
      if HasKind(flow, e.source, ConditionNode) then Some(e.handle == Some("true")) else None, ArrivesAlone(flow, e))
  }

  lemma ArrivalMeans(flow: Flow, target: string)
    ensures AlternativeArrival(flow, target) <==> exists n | n in flow.nodes :: n.id == target && n.fanInAny
  {
    if AlternativeArrival(flow, target) {
      var i :| 0 <= i < |flow.nodes| && flow.nodes[i].id == target && flow.nodes[i].fanInAny;
      assert flow.nodes[i] in flow.nodes;
    }
  }

  /** How often arrows stand for that step. */
  function ArrowTimes(flow: Flow, arrows: seq<Arrow>, a: Arc): nat {
    if arrows == [] then 0 else ArrowTimes(flow, arrows[..|arrows| - 1], a) + One(a == ArcOf(flow, arrows[|arrows| - 1]))
  }

  lemma {:induction false} TimesAdd(x: seq<PlannedEdge>, y: seq<PlannedEdge>, a: Arc)
    ensures Times(x + y, a) == Times(x, a) + Times(y, a)
  {
    if y == [] {
      assert x + y == x;
    } else {
      var n := |y| - 1;
      TimesAdd(x, y[..n], a);
      assert (x + y)[..|x + y| - 1] == x + y[..n];
    }
  }

  lemma KindIsUnique(flow: Flow, i: nat, kind: Kind)
    requires DistinctNodes(flow) && i < |flow.nodes|
    ensures HasKind(flow, flow.nodes[i].id, kind) <==> flow.nodes[i].kind == kind
  {
    assert forall j | 0 <= j < |flow.nodes| && flow.nodes[j].id == flow.nodes[i].id :: j == i;
  }

  /** A node's planned edges are exactly the steps of its arrows. */
  lemma NodeTimes(flow: Flow, k: nat, a: Arc)
    requires Shaped(flow) && k < |flow.nodes|
    ensures LowerNode(flow, flow.nodes[k]).Some?
    ensures Times(LowerNode(flow, flow.nodes[k]).value, a) == ArrowTimes(flow, Outgoing(flow.arrows, flow.nodes[k].id), a)
  {
    var n := flow.nodes[k];
    var out := Outgoing(flow.arrows, n.id);
    assert NodeOk(flow, n);
    OutgoingMembers(flow.arrows, n.id);
    KindIsUnique(flow, k, ConditionNode);
    KindIsUnique(flow, k, StartNode);
    if n.kind == ConditionNode {
      ConditionTimes(flow, n, out, a);
    } else {
      PlainTimes(flow, n, out, a);
    }
  }

  lemma ConditionTimes(flow: Flow, n: Node, out: seq<Arrow>, a: Arc)
    requires n.kind == ConditionNode && NodeOk(flow, n) && out == Outgoing(flow.arrows, n.id)
    requires HasKind(flow, n.id, ConditionNode) && !HasKind(flow, n.id, StartNode) && forall e | e in out :: e.source == n.id
    ensures LowerNode(flow, n).Some? && Times(LowerNode(flow, n).value, a) == ArrowTimes(flow, out, a)
  {
    assert out[0] in out && out[1] in out;
    PairTimes(flow, out, a);
    var edges := LowerNode(flow, n).value;
    assert edges[..0] == [];
    assert Times(edges, a) == EdgeTimes(edges[0], a);
  }

  lemma PairTimes(flow: Flow, out: seq<Arrow>, a: Arc)
    requires |out| == 2
    ensures ArrowTimes(flow, out, a) == One(a == ArcOf(flow, out[0])) + One(a == ArcOf(flow, out[1]))
  {
    assert out[..1][..0] == [];
    assert ArrowTimes(flow, out[..1], a) == One(a == ArcOf(flow, out[0]));
  }

  lemma {:induction false} PlainTimes(flow: Flow, n: Node, arrows: seq<Arrow>, a: Arc)
    requires n.kind != ConditionNode && !HasKind(flow, n.id, ConditionNode) && (HasKind(flow, n.id, StartNode) <==> n.kind == StartNode)
    requires forall e | e in arrows :: e.source == n.id
    ensures Times(LowerArrows(flow, n, arrows), a) == ArrowTimes(flow, arrows, a)
  {
    if arrows != [] {
      var k := |arrows| - 1;
      PlainTimes(flow, n, arrows[..k], a);
      var edges := LowerArrows(flow, n, arrows);
      assert edges[..k] == LowerArrows(flow, n, arrows[..k]);
      assert arrows[k] in arrows;
      ArrivalMeans(flow, arrows[k].target);
    }
  }

  // ----- Every arrow belongs to exactly one node -----

  /** How often the arrows that leave `ids` stand for that step. */
  function TimesFrom(flow: Flow, arrows: seq<Arrow>, ids: set<string>, a: Arc): nat {
    if arrows == [] then 0
    else
      var n := |arrows| - 1;
      TimesFrom(flow, arrows[..n], ids, a) + One(arrows[n].source in ids && a == ArcOf(flow, arrows[n]))
  }

  lemma {:induction false} OutgoingTimes(flow: Flow, arrows: seq<Arrow>, id: string, a: Arc)
    ensures ArrowTimes(flow, Outgoing(arrows, id), a) == TimesFrom(flow, arrows, {id}, a)
  {
    if arrows != [] {
      var n := |arrows| - 1;
      var before, after := Outgoing(arrows[..n], id), Outgoing(arrows, id);
      OutgoingTimes(flow, arrows[..n], id, a);
      if arrows[n].source == id {
        assert after[..|after| - 1] == before;
      } else {
        assert after == before;
      }
    }
  }

  lemma {:induction false} TimesSplit(flow: Flow, arrows: seq<Arrow>, ids: set<string>, id: string, a: Arc)
    requires id !in ids
    ensures TimesFrom(flow, arrows, ids + {id}, a) == TimesFrom(flow, arrows, ids, a) + TimesFrom(flow, arrows, {id}, a)
  {
    if arrows != [] { TimesSplit(flow, arrows[..|arrows| - 1], ids, id, a); }
  }

  lemma {:induction false} TimesFromAll(flow: Flow, arrows: seq<Arrow>, ids: set<string>, a: Arc)
    requires forall i | 0 <= i < |arrows| :: arrows[i].source in ids
    ensures TimesFrom(flow, arrows, ids, a) == ArrowTimes(flow, arrows, a)
  {
    if arrows != [] { TimesFromAll(flow, arrows[..|arrows| - 1], ids, a); }
  }

  lemma {:induction false} TimesFromNone(flow: Flow, arrows: seq<Arrow>, a: Arc)
    ensures TimesFrom(flow, arrows, {}, a) == 0
  {
    if arrows != [] { TimesFromNone(flow, arrows[..|arrows| - 1], a); }
  }

  function FirstIds(flow: Flow, k: nat): set<string>
    requires k <= |flow.nodes|
  {
    set i | 0 <= i < k :: flow.nodes[i].id
  }

  lemma NextIsNew(flow: Flow, k: nat)
    requires DistinctNodes(flow) && k < |flow.nodes|
    ensures flow.nodes[k].id !in FirstIds(flow, k) && FirstIds(flow, k + 1) == FirstIds(flow, k) + {flow.nodes[k].id}
  {
    forall i | 0 <= i < k ensures flow.nodes[i].id != flow.nodes[k].id { }
  }

  /** Adding the edges of one more node. */
  lemma AddNode(flow: Flow, k: nat, a: Arc, before: seq<PlannedEdge>, last: seq<PlannedEdge>)
    requires k < |flow.nodes| && LowerEdges(flow, k) == Some(before) && LowerNode(flow, flow.nodes[k]) == Some(last)
    requires Times(before, a) == TimesFrom(flow, flow.arrows, FirstIds(flow, k), a) && DistinctNodes(flow)
    requires Times(last, a) == TimesFrom(flow, flow.arrows, {flow.nodes[k].id}, a)
    ensures LowerEdges(flow, k + 1) == Some(before + last)
    ensures Times(before + last, a) == TimesFrom(flow, flow.arrows, FirstIds(flow, k + 1), a)
  {
    TimesAdd(before, last, a);
    NextIsNew(flow, k);
    TimesSplit(flow, flow.arrows, FirstIds(flow, k), flow.nodes[k].id, a);
  }

  /** The edges of the first `k` nodes take the steps of exactly their arrows. */
  ghost predicate Accounted(flow: Flow, k: nat, a: Arc)
    requires k <= |flow.nodes|
  {
    var edges := LowerEdges(flow, k);
    edges.Some? && Times(edges.value, a) == TimesFrom(flow, flow.arrows, FirstIds(flow, k), a)
  }

  lemma NoneAccounted(flow: Flow, a: Arc)
    ensures Accounted(flow, 0, a)
  {
    assert FirstIds(flow, 0) == {};
    TimesFromNone(flow, flow.arrows, a);
  }

  lemma OneMoreAccounted(flow: Flow, k: nat, a: Arc)
    requires Shaped(flow) && k < |flow.nodes| && Accounted(flow, k, a)
    ensures Accounted(flow, k + 1, a)
  {
    NodeTimes(flow, k, a);
    OutgoingTimes(flow, flow.arrows, flow.nodes[k].id, a);
    AddNode(flow, k, a, LowerEdges(flow, k).value, LowerNode(flow, flow.nodes[k]).value);
  }

  lemma FirstTimes(flow: Flow, k: nat, a: Arc)
    requires Shaped(flow) && k <= |flow.nodes|
    ensures Accounted(flow, k, a)
  {
    NoneAccounted(flow, a);
    var i := 0;
    while i < k
      invariant i <= k && Accounted(flow, i, a)
    {
      OneMoreAccounted(flow, i, a);
      i := i + 1;
    }
  }

  /** Lowering a validated flow succeeds and lowers every arrow exactly once: the plan lists each step
      as often as authored arrows stand for it, as an alternative exactly if the arrow leaves neither the
      start nor a condition and its target asks for any arrival. */
  lemma LoweringKeepsArcs(flow: Flow, a: Arc)
    requires Shaped(flow)
    ensures LowerEdges(flow, |flow.nodes|).Some?
    ensures Times(LowerEdges(flow, |flow.nodes|).value, a) == ArrowTimes(flow, flow.arrows, a)
  {
    FirstTimes(flow, |flow.nodes|, a);
    forall i | 0 <= i < |flow.arrows| ensures flow.arrows[i].source in FirstIds(flow, |flow.nodes|) {
      assert ArrowOk(flow, flow.arrows[i]);
    }
    TimesFromAll(flow, flow.arrows, FirstIds(flow, |flow.nodes|), a);
  }

  // ----- Successors -----

  /** Whether a flow can go from `id` to `target`, for one outcome of its condition if it has one, and
      arrive there alone or not. */
  predicate FlowGoes(flow: Flow, id: string, outcome: bool, target: string, alone: bool) {
    exists i | 0 <= i < |flow.arrows| :: flow.arrows[i].source == id && TargetOf(flow, flow.arrows[i].target) == target
      && (HasKind(flow, id, ConditionNode) ==> (flow.arrows[i].handle == Some("true")) == outcome)
      && ArrivesAlone(flow, flow.arrows[i]) == alone
  }

  /** Whether a plan can go from `source` to `target`. */
  predicate PlanGoes(edges: seq<PlannedEdge>, source: string, outcome: bool, target: string, alternative: bool) {
    Times(edges, Arc(source, target, None, alternative)) > 0 || Times(edges, Arc(source, target, Some(outcome), alternative)) > 0
  }

  lemma {:induction false} CountedArrow(flow: Flow, arrows: seq<Arrow>, a: Arc) returns (i: nat)
    requires ArrowTimes(flow, arrows, a) > 0
    ensures i < |arrows| && ArcOf(flow, arrows[i]) == a
  {
    var n := |arrows| - 1;
    if a == ArcOf(flow, arrows[n]) {
      i := n;
    } else {
      i := CountedArrow(flow, arrows[..n], a);
      assert arrows[..n][i] == arrows[i];
    }
  }

  lemma {:induction false} ArrowCounts(flow: Flow, arrows: seq<Arrow>, i: nat)
    requires i < |arrows|
    ensures ArrowTimes(flow, arrows, ArcOf(flow, arrows[i])) > 0
  {
    var n := |arrows| - 1;
    if i < n {
      assert arrows[..n][i] == arrows[i];
      ArrowCounts(flow, arrows[..n], i);
    }
  }

  lemma OneStart(flow: Flow, i: nat, j: nat)
    requires Shaped(flow) && i < |flow.nodes| && j < |flow.nodes| && flow.nodes[i].kind == StartNode && flow.nodes[j].kind == StartNode
    ensures i == j
  {
  }

  /** Only the start is called by its plan name, so names identify nodes. */
  lemma NamesIdentify(flow: Flow, k: nat, i: nat)
    requires Shaped(flow) && k < |flow.nodes| && i < |flow.arrows|
    ensures NameOf(flow, flow.arrows[i].source) == NameOf(flow, flow.nodes[k].id) <==> flow.arrows[i].source == flow.nodes[k].id
  {
    assert ArrowOk(flow, flow.arrows[i]);
    var j :| 0 <= j < |flow.nodes| && flow.nodes[j].id == flow.arrows[i].source;
    assert NodeOk(flow, flow.nodes[j]) && NodeOk(flow, flow.nodes[k]);
    KindIsUnique(flow, j, StartNode);
    KindIsUnique(flow, k, StartNode);
    if flow.nodes[j].kind == StartNode && flow.nodes[k].kind == StartNode { OneStart(flow, j, k); }
  }

  /** Lowering keeps every node's successors, for both outcomes of a condition, with all ends
      collapsed into one, and keeps which of them wait for their other predecessors. */
  lemma LoweringKeepsSuccessors(flow: Flow, k: nat, outcome: bool, target: string, alone: bool)
    requires Shaped(flow) && k < |flow.nodes|
    ensures LowerEdges(flow, |flow.nodes|).Some?
    ensures PlanGoes(LowerEdges(flow, |flow.nodes|).value, NameOf(flow, flow.nodes[k].id), outcome, target, alone)
      <==> FlowGoes(flow, flow.nodes[k].id, outcome, target, alone)
  {
    var id := flow.nodes[k].id;
    var plain, chosen := Arc(NameOf(flow, id), target, None, alone), Arc(NameOf(flow, id), target, Some(outcome), alone);
    LoweringKeepsArcs(flow, plain);
    LoweringKeepsArcs(flow, chosen);
    if ArrowTimes(flow, flow.arrows, plain) > 0 || ArrowTimes(flow, flow.arrows, chosen) > 0 {
      var i;
      if ArrowTimes(flow, flow.arrows, plain) > 0 {
        i := CountedArrow(flow, flow.arrows, plain);
      } else {
        i := CountedArrow(flow, flow.arrows, chosen);
      }
      NamesIdentify(flow, k, i);
      assert FlowGoes(flow, id, outcome, target, alone);
    }
    if FlowGoes(flow, id, outcome, target, alone) {
      var i :| 0 <= i < |flow.arrows| && flow.arrows[i].source == id && TargetOf(flow, flow.arrows[i].target) == target
        && (HasKind(flow, id, ConditionNode) ==> (flow.arrows[i].handle == Some("true")) == outcome)
        && ArrivesAlone(flow, flow.arrows[i]) == alone;
      ArrowCounts(flow, flow.arrows, i);
    }
  }

  // ----- Nested flows -----

  /** Shaped, with every nested flow present and shaped in turn. */
  predicate DeeplyShaped(flow: Flow) {
    Shaped(flow) && forall i | 0 <= i < |flow.nodes| && flow.nodes[i].kind == SubgraphNode ::
      flow.nodes[i].child.Some? && DeeplyShaped(flow.nodes[i].child.value)
  }

  function ChildOf(n: Node): Option<Plan> {
    if n.kind == SubgraphNode && n.child.Some? then LowerFlow(n.child.value) else None
  }

  /** The nodes that are neither start nor end. */
  function Inner(flow: Flow, k: nat): seq<Node>
    requires k <= |flow.nodes|
  {
    if k == 0 then []
    else
      var n := flow.nodes[k - 1];
      Inner(flow, k - 1) + (if n.kind == StartNode || n.kind == EndNode then [] else [n])
  }

  function PlannedFor(nodes: seq<Node>): seq<PlannedNode> {
    seq(|nodes|, i requires 0 <= i < |nodes| => PlannedNode(nodes[i].id, nodes[i].kind, ChildOf(nodes[i])))
  }

  lemma PlannedOneMore(nodes: seq<Node>, n: Node)
    ensures PlannedFor(nodes + [n]) == PlannedFor(nodes) + [PlannedNode(n.id, n.kind, ChildOf(n))]
  {
  }

  /** A plan has one node for every node but start and ends, in order, with nested flows lowered. */
  lemma {:induction false} NodesAreFaithful(flow: Flow, k: nat)
    requires k <= |flow.nodes| && LowerNodes(flow, k).Some?
    ensures LowerNodes(flow, k).value == PlannedFor(Inner(flow, k))
  {
    if k > 0 {
      NodesAreFaithful(flow, k - 1);
      var n := flow.nodes[k - 1];
      if n.kind != StartNode && n.kind != EndNode {
        assert LowerNodes(flow, k).value == LowerNodes(flow, k - 1).value + [PlannedNode(n.id, n.kind, ChildOf(n))];
        PlannedOneMore(Inner(flow, k - 1), n);
      }
    }
  }

  lemma ChildrenShaped(flow: Flow, i: nat)
    requires DeeplyShaped(flow) && i < |flow.nodes| && flow.nodes[i].kind == SubgraphNode
    ensures flow.nodes[i].child.Some? && DeeplyShaped(flow.nodes[i].child.value)
  {
  }

  lemma OneMoreLowered(flow: Flow, k: nat)
    requires 0 < k <= |flow.nodes| && LowerNodes(flow, k - 1).Some?
    requires var n := flow.nodes[k - 1]; n.kind == SubgraphNode ==> n.child.Some? && LowerFlow(n.child.value).Some?
    ensures LowerNodes(flow, k).Some?
  {
  }

  lemma {:induction false} NodesLowered(flow: Flow, k: nat)
    requires DeeplyShaped(flow) && k <= |flow.nodes|
    ensures LowerNodes(flow, k).Some?
    decreases flow, 0, k
  {
    if k > 0 {
      NodesLowered(flow, k - 1);
      if flow.nodes[k - 1].kind == SubgraphNode {
        ChildrenShaped(flow, k - 1);
        LoweringSucceeds(flow.nodes[k - 1].child.value);
      }
      OneMoreLowered(flow, k);
    }
  }

  /** Lowering a flow that is shaped at every level always succeeds. */
  lemma {:induction false} LoweringSucceeds(flow: Flow)
    requires DeeplyShaped(flow)
    ensures LowerFlow(flow).Some?
    decreases flow, 1, 0
  {
    NodesLowered(flow, |flow.nodes|);
    LoweringKeepsArcs(flow, Arc("", "", None, false));
  }
}
