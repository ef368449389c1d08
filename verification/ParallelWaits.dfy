/** The check that at most one wait can be open at a time (rust/crates/zf-compiler/src/graph_compiler.rs,
    `branch_region`, `pause_path` and `validate_parallel_waits`). */
module ParallelWaits {
  import opened Base
  import opened Reachability
  import opened FlowGraph
  import opened Lowering

  // ----- Regions -----

  /** A walk that meets no blocked node. */
  predicate FreeWalk(g: Graph, p: seq<string>, blocked: set<string>) {
    Walk(g, p) && forall i | 0 <= i < |p| :: p[i] !in blocked
  }

  ghost predicate FreeReach(g: Graph, a: string, b: string, blocked: set<string>) {
    exists p :: FreeWalk(g, p, blocked) && p[0] == a && p[|p| - 1] == b
  }

  /** The fork itself can be reached again without passing a barrier. */
  ghost predicate Reenters(g: Graph, root: string, fork: string, blocked: set<string>) {
    root == fork || exists x :: FreeReach(g, root, x, blocked) && Edge(g, x, fork)
  }

  lemma FreeSelf(g: Graph, a: string, blocked: set<string>)
    requires a !in blocked
    ensures FreeReach(g, a, a, blocked)
  {
    assert FreeWalk(g, [a], blocked);
  }

  lemma FreeStep(g: Graph, a: string, b: string, c: string, blocked: set<string>)
    requires FreeReach(g, a, b, blocked) && Edge(g, b, c) && c !in blocked
    ensures FreeReach(g, a, c, blocked)
  {
    var p :| FreeWalk(g, p, blocked) && p[0] == a && p[|p| - 1] == b;
    assert FreeWalk(g, p + [c], blocked);
  }

  /** A free walk stays in a set that is closed but for blocked nodes. */
  lemma {:induction false} FreeWalkStays(g: Graph, p: seq<string>, blocked: set<string>, s: set<string>)
    requires FreeWalk(g, p, blocked) && p[0] in s
    requires forall a, b | a in s && Edge(g, a, b) :: b in s || b in blocked
    ensures p[|p| - 1] in s
  {
    if |p| > 1 {
      var n := |p| - 1;
      FreeWalkStays(g, p[..n], blocked, s);
      assert Edge(g, p[n - 1], p[n]);
    }
  }

  /** `y` is the root or a successor of something freely reached. */
  ghost predicate Arrived(g: Graph, root: string, blocked: set<string>, y: string) {
    y == root || exists x :: FreeReach(g, root, x, blocked) && Edge(g, x, y)
  }

  lemma ArrivedFree(g: Graph, root: string, blocked: set<string>, y: string)
    requires Arrived(g, root, blocked, y) && y !in blocked
    ensures FreeReach(g, root, y, blocked)
  {
    if y == root {
      FreeSelf(g, y, blocked);
    } else {
      var x :| FreeReach(g, root, x, blocked) && Edge(g, x, y);
      FreeStep(g, root, x, y, blocked);
    }
  }

  function TargetList(arrows: seq<Arrow>, id: string): seq<string> {
    var out := Outgoing(arrows, id);
    seq(|out|, i requires 0 <= i < |out| => out[i].target)
  }

  lemma TargetListEdges(arrows: seq<Arrow>, id: string)
    ensures forall y :: y in TargetList(arrows, id) <==> Edge(Drawn(arrows), id, y)
  {
    OutgoingMembers(arrows, id);
    var out := Outgoing(arrows, id);
    forall y ensures y in TargetList(arrows, id) <==> Edge(Drawn(arrows), id, y) {
      DrawnEdge(arrows, id, y);
      if y in TargetList(arrows, id) {
        var i :| 0 <= i < |out| && out[i].target == y;
        assert out[i] in arrows;
      }
      if Edge(Drawn(arrows), id, y) {
        var i :| 0 <= i < |arrows| && arrows[i].source == id && arrows[i].target == y;
        assert arrows[i] in out;
        var j :| 0 <= j < |out| && out[j] == arrows[i];
        assert TargetList(arrows, id)[j] == y;
      }
    }
  }

  /** What a search has covered: successors of the region are in it, blocked, or still pending. */
  ghost predicate Covered(g: Graph, region: set<string>, blocked: set<string>, pending: seq<string>) {
    forall a, b | a in region && Edge(g, a, b) :: b in region || b in blocked || b in pending
  }

  /** The fork has been noticed if it was met. */
  ghost predicate Noticed(g: Graph, root: string, fork: string, region: set<string>, pending: seq<string>, reentry: bool) {
    reentry || fork in pending || (root != fork && forall a | a in region :: !Edge(g, a, fork))
  }

  ghost predicate Sound(g: Graph, root: string, blocked: set<string>, region: set<string>, pending: seq<string>) {
    (forall x | x in region :: FreeReach(g, root, x, blocked)) && (forall y | y in pending :: Arrived(g, root, blocked, y))
  }

  lemma PopBlocked(g: Graph, region: set<string>, blocked: set<string>, pending: seq<string>)
    requires pending != [] && Covered(g, region, blocked, pending)
    requires pending[|pending| - 1] in blocked || pending[|pending| - 1] in region
    ensures Covered(g, region, blocked, pending[..|pending| - 1])
  {
    var n := |pending| - 1;
    assert pending == pending[..n] + [pending[n]];
  }

  lemma PopNew(g: Graph, root: string, region: set<string>, blocked: set<string>, pending: seq<string>, more: seq<string>)
    requires pending != [] && Covered(g, region, blocked, pending) && Sound(g, root, blocked, region, pending)
    requires pending[|pending| - 1] !in blocked && forall y :: y in more <==> Edge(g, pending[|pending| - 1], y)
    ensures var node, rest := pending[|pending| - 1], pending[..|pending| - 1];
      Covered(g, region + {node}, blocked, rest + more) && Sound(g, root, blocked, region + {node}, rest + more)
  {
    var n := |pending| - 1;
    assert pending == pending[..n] + [pending[n]];
    ArrivedFree(g, root, blocked, pending[n]);
  }

  /** The worklist search: the region is exactly what the root reaches without meeting the fork or a
      barrier, and re-entry is reported exactly when the fork is so reached. */
  method BranchRegion(arrows: seq<Arrow>, root: string, fork: string, barriers: set<string>) returns (region: set<string>, reentry: bool)
    ensures forall x :: x in region <==> FreeReach(Drawn(arrows), root, x, barriers + {fork})
    ensures reentry <==> Reenters(Drawn(arrows), root, fork, barriers + {fork})
  {
    ghost var g, blocked := Drawn(arrows), barriers + {fork};
    ghost var all := {root} + set i | 0 <= i < |arrows| :: arrows[i].target;
    region, reentry := {}, false;
    var pending := [root];
    while pending != []
      invariant Covered(g, region, blocked, pending) && Sound(g, root, blocked, region, pending)
      invariant root in region || root in blocked || root in pending
      invariant reentry ==> Reenters(g, root, fork, blocked)
      invariant Noticed(g, root, fork, region, pending, reentry)
      invariant region <= all && forall y | y in pending :: y in all
      decreases all - region, |pending|
    {
      var n := |pending| - 1;
      var node := pending[n];
      assert pending == pending[..n] + [node];
      if node == fork {
        assert Arrived(g, root, blocked, fork);
        PopBlocked(g, region, blocked, pending);
        reentry := true;
        pending := pending[..n];
      } else if node in barriers || node in region {
        PopBlocked(g, region, blocked, pending);
        pending := pending[..n];
      } else {
        var more := TargetList(arrows, node);
        TargetListEdges(arrows, node);
        PopNew(g, root, region, blocked, pending, more);
        forall y | y in more ensures y in all { DrawnEdge(arrows, node, y); }
        region := region + {node};
        pending := pending[..n] + more;
      }
    }
    forall x | FreeReach(g, root, x, blocked) ensures x in region { FreeStays(g, root, x, blocked, region); }
    Decided(g, root, fork, blocked, region, reentry);
  }

  lemma FreeStays(g: Graph, root: string, x: string, blocked: set<string>, region: set<string>)
    requires FreeReach(g, root, x, blocked) && Covered(g, region, blocked, []) && (root in region || root in blocked)
    ensures x in region
  {
    var p :| FreeWalk(g, p, blocked) && p[0] == root && p[|p| - 1] == x;
    FreeWalkStays(g, p, blocked, region);
  }

  lemma Decided(g: Graph, root: string, fork: string, blocked: set<string>, region: set<string>, reentry: bool)
    requires Covered(g, region, blocked, []) && (root in region || root in blocked)
    requires Noticed(g, root, fork, region, [], reentry) && (reentry ==> Reenters(g, root, fork, blocked))
    ensures reentry <==> Reenters(g, root, fork, blocked)
  {
    if Reenters(g, root, fork, blocked) && !reentry {
      var x :| FreeReach(g, root, x, blocked) && Edge(g, x, fork);
      FreeStays(g, root, x, blocked, region);
      assert false;
    }
  }

  // ----- Waiting nodes -----

  /** The node, or some node nested in it, can wait for the user. */
  predicate Pauses(n: Node) {
    || n.kind == InputNode || n.kind == InboxNode
    || ((n.kind == AgentNode || n.kind == ModelNode) && n.runtimeModel)
    || (n.kind == SubgraphNode && n.child.Some? && exists i | 0 <= i < |n.child.value.nodes| :: Pauses(n.child.value.nodes[i]))
  }

  function Pausing(flow: Flow): set<string> {
    set i | 0 <= i < |flow.nodes| && Pauses(flow.nodes[i]) :: flow.nodes[i].id
  }

  // ----- Barriers -----

  function Roots(flow: Flow, fork: string): set<string> {
    Targets(flow.arrows, fork)
  }

  /** Among the branches of the fork, only the one at `r` leads to `s`. */
  ghost predicate OnlyFrom(flow: Flow, fork: string, s: string, r: string) {
    var g := Drawn(flow.arrows);
    FreeReach(g, r, s, {fork}) && forall q | q in Roots(flow, fork) && q != r :: !FreeReach(g, q, s, {fork})
  }

  /** The join has a required predecessor that only the branch at `r` supplies. */
  ghost predicate Requires_(flow: Flow, fork: string, join: string, r: string) {
    exists i :: 0 <= i < |flow.arrows| && Supplies(flow, fork, join, r, flow.arrows[i])
  }

  ghost predicate Supplies(flow: Flow, fork: string, join: string, r: string, e: Arrow) {
    e.target == join && !HasKind(flow, e.source, ConditionNode)
    && if e.source == fork then join == r else OnlyFrom(flow, fork, e.source, r)
  }

  /** A native all-predecessor join that waits for every branch of the fork. */
  ghost predicate IsBarrier(flow: Flow, fork: string, join: string) {
    !AlternativeArrival(flow, join) && forall r | r in Roots(flow, fork) :: Requires_(flow, fork, join, r)
  }

  ghost function Barriers(flow: Flow, fork: string): set<string> {
    set i | 0 <= i < |flow.nodes| && IsBarrier(flow, fork, flow.nodes[i].id) :: flow.nodes[i].id
  }

  /** A waiting node can be reached from `r` before the branches have been joined. */
  ghost predicate Waits(flow: Flow, fork: string, r: string) {
    exists x :: x in Pausing(flow) && FreeReach(Drawn(flow.arrows), r, x, Barriers(flow, fork) + {fork})
  }

  /** At most one branch can wait, and none if a branch can return to the fork. */
  ghost predicate ForkOk(flow: Flow, fork: string) {
    && (forall r, s | r in Roots(flow, fork) && s in Roots(flow, fork) && Waits(flow, fork, r) && Waits(flow, fork, s) :: r == s)
    && (forall r, s | r in Roots(flow, fork) && s in Roots(flow, fork)
          && Reenters(Drawn(flow.arrows), r, fork, Barriers(flow, fork) + {fork}) :: !Waits(flow, fork, s))
  }

  /** Every fan-out that is not a condition is in order. */
  ghost predicate ParallelOk(flow: Flow) {
    forall i | 0 <= i < |flow.nodes| && flow.nodes[i].kind != ConditionNode && |Roots(flow, flow.nodes[i].id)| >= 2 ::
      ForkOk(flow, flow.nodes[i].id)
  }

  // ----- The check -----

  /** `regions` are the regions of the fork's branches, stopped at `barriers`. */
  ghost predicate Regions(flow: Flow, fork: string, barriers: set<string>, regions: map<string, set<string>>) {
    regions.Keys == Roots(flow, fork)
    && forall r, x :: r in regions ==> (x in regions[r] <==> FreeReach(Drawn(flow.arrows), r, x, barriers + {fork}))
  }

  method AllRegions(flow: Flow, fork: string, barriers: set<string>) returns (regions: map<string, set<string>>, reenters: bool)
    ensures Regions(flow, fork, barriers, regions)
    ensures reenters <==> exists r :: r in Roots(flow, fork) && Reenters(Drawn(flow.arrows), r, fork, barriers + {fork})
  {
    var todo := Roots(flow, fork);
    regions, reenters := map[], false;
    while todo != {}
      invariant todo <= Roots(flow, fork) && regions.Keys == Roots(flow, fork) - todo
      invariant forall r, x :: r in regions ==> (x in regions[r] <==> FreeReach(Drawn(flow.arrows), r, x, barriers + {fork}))
      invariant reenters <==> exists r :: r in regions && Reenters(Drawn(flow.arrows), r, fork, barriers + {fork})
    {
      var r :| r in todo;
      var region, reentry := BranchRegion(flow.arrows, r, fork, barriers);
      ghost var before := regions;
      regions := regions[r := region];
      assert forall q | q in before :: q in regions;
      reenters := reenters || reentry;
      assert r in regions;
      todo := todo - {r};
    }
  }

  /** The branches that a join requires. */
  method RequiredBranches(flow: Flow, fork: string, join: string, regions: map<string, set<string>>) returns (required: set<string>)
    requires Regions(flow, fork, {}, regions)
    ensures forall r :: r in required <==> r in Roots(flow, fork) && Requires_(flow, fork, join, r)
  {
    required := {};
    var i := 0;
    while i < |flow.arrows|
      invariant i <= |flow.arrows|
      invariant forall r :: r in required <==>
        r in Roots(flow, fork) && exists k :: 0 <= k < i && Supplies(flow, fork, join, r, flow.arrows[k])
    {
      var e := flow.arrows[i];
      ghost var before := required;
      if e.target == join && !HasKind(flow, e.source, ConditionNode) {
        if e.source == fork {
          assert join in Roots(flow, fork);
          required := required + {join};
        } else {
          var origins := set r | r in regions && e.source in regions[r];
          OneOrigin(flow, fork, e.source, regions, origins);
          if |origins| == 1 { required := required + origins; }
        }
      }
      assert forall r | r in Roots(flow, fork) :: r in required <==> r in before || Supplies(flow, fork, join, r, e);
      i := i + 1;
    }
  }

  /** A single origin is the only branch that leads to the source. */
  lemma OneOrigin(flow: Flow, fork: string, s: string, regions: map<string, set<string>>, origins: set<string>)
    requires Regions(flow, fork, {}, regions) && origins == set r | r in regions && s in regions[r]
    ensures forall r | r in Roots(flow, fork) :: OnlyFrom(flow, fork, s, r) <==> |origins| == 1 && r in origins
  {
    var none: set<string> := {};
    assert none + {fork} == {fork};
    forall r | r in Roots(flow, fork) ensures OnlyFrom(flow, fork, s, r) <==> |origins| == 1 && r in origins {
      if OnlyFrom(flow, fork, s, r) {
        assert origins == {r};
      }
      if |origins| == 1 && r in origins {
        forall q | q in Roots(flow, fork) && q != r ensures !FreeReach(Drawn(flow.arrows), q, s, {fork}) {
          SingleElement(origins, r, q);
        }
      }
    }
  }

  lemma SingleElement(a: set<string>, x: string, y: string)
    requires |a| == 1 && x in a && x != y
    ensures y !in a
  {
    assert |a - {x}| == 0;
    assert a - {x} == {};
  }

  lemma FullSubset(a: set<string>, b: set<string>)
    requires a <= b
    ensures |a| == |b| <==> a == b
  {
    assert b == a + (b - a);
    if a != b {
      var x :| x in b - a;
      assert |b - a| > 0;
    }
  }

  method FindBarriers(flow: Flow, fork: string, regions: map<string, set<string>>) returns (barriers: set<string>)
    requires Regions(flow, fork, {}, regions)
    ensures barriers == Barriers(flow, fork)
  {
    barriers := {};
    var i := 0;
    while i < |flow.nodes|
      invariant i <= |flow.nodes| && barriers == BarriersBelow(flow, fork, i)
    {
      var waits := WaitsForAll(flow, fork, flow.nodes[i].id, regions);
      if waits { barriers := barriers + {flow.nodes[i].id}; }
      MoreBarriers(flow, fork, i);
      i := i + 1;
    }
  }

  method WaitsForAll(flow: Flow, fork: string, join: string, regions: map<string, set<string>>) returns (all: bool)
    requires Regions(flow, fork, {}, regions)
    ensures all <==> IsBarrier(flow, fork, join)
  {
    if AlternativeArrival(flow, join) { return false; }
    var required := RequiredBranches(flow, fork, join, regions);
    FullSubset(required, Roots(flow, fork));
    all := |required| == |Roots(flow, fork)|;
  }

  /** The barriers among the first `n` nodes. */
  ghost function BarriersBelow(flow: Flow, fork: string, n: nat): set<string>
    requires n <= |flow.nodes|
  {
    set k | 0 <= k < n && IsBarrier(flow, fork, flow.nodes[k].id) :: flow.nodes[k].id
  }

  lemma MoreBarriers(flow: Flow, fork: string, n: nat)
    requires n < |flow.nodes|
    ensures BarriersBelow(flow, fork, n + 1)
         == BarriersBelow(flow, fork, n) + if IsBarrier(flow, fork, flow.nodes[n].id) then {flow.nodes[n].id} else {}
  {
  }

  method CheckFork(flow: Flow, fork: string, pausing: set<string>) returns (ok: bool)
    requires pausing == Pausing(flow)
    ensures ok <==> ForkOk(flow, fork)
  {
    var open, _ := AllRegions(flow, fork, {});
    var barriers := FindBarriers(flow, fork, open);
    var regions, reenters := AllRegions(flow, fork, barriers);
    var waiting := set r | r in regions && regions[r] * pausing != {};
    forall r | r in Roots(flow, fork) ensures r in waiting <==> Waits(flow, fork, r) {
      if r in waiting {
        var x :| x in regions[r] * pausing;
        assert x in Pausing(flow) && FreeReach(Drawn(flow.arrows), r, x, Barriers(flow, fork) + {fork});
      }
      if Waits(flow, fork, r) {
        var x :| x in Pausing(flow) && FreeReach(Drawn(flow.arrows), r, x, Barriers(flow, fork) + {fork});
        assert x in regions[r] * pausing;
      }
    }
    AtMostOne(waiting);
    ok := |waiting| < 2 && (!reenters || waiting == {});
  }

  lemma AtMostOne(a: set<string>)
    ensures |a| < 2 <==> forall x, y | x in a && y in a :: x == y
  {
    if |a| >= 2 {
      var x :| x in a;
      assert |a - {x}| > 0;
      var y :| y in a - {x};
      assert x != y;
    } else if a != {} {
      var x :| x in a;
      assert |a - {x}| == 0;
      assert a - {x} == {};
    }
  }

  method ValidateParallelWaits(flow: Flow) returns (ok: bool)
    ensures ok <==> ParallelOk(flow)
  {
    var pausing := Pausing(flow);
    if pausing == {} { return true; }
    var i := 0;
    while i < |flow.nodes|
      invariant i <= |flow.nodes|
      invariant forall k | 0 <= k < i && flow.nodes[k].kind != ConditionNode && |Roots(flow, flow.nodes[k].id)| >= 2 ::
        ForkOk(flow, flow.nodes[k].id)
    {
      var fork := flow.nodes[i];
      if fork.kind != ConditionNode && |Roots(flow, fork.id)| >= 2 {
        var fine := CheckFork(flow, fork.id, pausing);
        if !fine { return false; }
      }
      i := i + 1;
    }
    ok := true;
  }

  /** Acceptance in terms of walks: from two different successors of a fan-out, there are no two
      barrier-free walks to waiting nodes; and if some successor has a barrier-free walk back to the
      fork, no successor has one to a waiting node. */
  lemma AcceptedWaitsAreSerial(flow: Flow, i: nat, p: seq<string>, q: seq<string>)
    requires ParallelOk(flow) && i < |flow.nodes| && flow.nodes[i].kind != ConditionNode
    requires var fork := flow.nodes[i].id; var blocked := Barriers(flow, fork) + {fork};
      && |Roots(flow, fork)| >= 2 && FreeWalk(Drawn(flow.arrows), p, blocked) && p[0] in Roots(flow, fork)
      && p[|p| - 1] in Pausing(flow) && Walk(Drawn(flow.arrows), q) && q[0] in Roots(flow, fork)
    ensures var fork := flow.nodes[i].id; var blocked := Barriers(flow, fork) + {fork};
      && (FreeWalk(Drawn(flow.arrows), q, blocked) && q[|q| - 1] in Pausing(flow) ==> p[0] == q[0])
      && !(q[|q| - 1] == fork && forall k | 0 <= k < |q| - 1 :: q[k] !in blocked)
  {
    var fork := flow.nodes[i].id;
    var g, blocked := Drawn(flow.arrows), Barriers(flow, fork) + {fork};
    assert FreeReach(g, p[0], p[|p| - 1], blocked);
    assert Waits(flow, fork, p[0]) && ForkOk(flow, fork);
    if FreeWalk(g, q, blocked) && q[|q| - 1] in Pausing(flow) {
      assert FreeReach(g, q[0], q[|q| - 1], blocked);
      assert Waits(flow, fork, q[0]);
    }
    if q[|q| - 1] == fork && forall k | 0 <= k < |q| - 1 :: q[k] !in blocked {
      ReturnReenters(g, q, fork, blocked);
      assert false;
    }
  }

  lemma ReturnReenters(g: Graph, q: seq<string>, fork: string, blocked: set<string>)
    requires Walk(g, q) && q[|q| - 1] == fork && forall k | 0 <= k < |q| - 1 :: q[k] !in blocked
    ensures Reenters(g, q[0], fork, blocked)
  {
    if |q| > 1 {
      var n := |q| - 1;
      assert FreeWalk(g, q[..n], blocked) by {
        forall k | 0 <= k < n - 1 ensures Edge(g, q[..n][k], q[..n][k + 1]) { assert Edge(g, q[k], q[k + 1]); }
      }
      assert q[..n][0] == q[0] && q[..n][n - 1] == q[n - 1];
      assert FreeReach(g, q[0], q[n - 1], blocked);
      assert Edge(g, q[n - 1], q[n - 1 + 1]);
    }
  }
}
