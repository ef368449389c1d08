/** The projection of a flow on one of its public entries
    (rust/crates/zf-flows/src/flow_contract.rs, `at_entry`). */
module Projection {
  import opened Base
  import opened Reachability
  import opened FlowGraph

  function Without(arrows: seq<Arrow>, source: string): seq<Arrow> {
    if arrows == [] then []
    else
      var n := |arrows| - 1;
      Without(arrows[..n], source) + (if arrows[n].source != source then [arrows[n]] else [])
  }

  function Kept(arrows: seq<Arrow>, r: set<string>): seq<Arrow> {
    if arrows == [] then []
    else
      var n := |arrows| - 1;
      Kept(arrows[..n], r) + (if arrows[n].source in r && arrows[n].target in r then [arrows[n]] else [])
  }

  function KeptNodes(nodes: seq<Node>, r: set<string>): seq<Node> {
    if nodes == [] then []
    else
      var n := |nodes| - 1;
      KeptNodes(nodes[..n], r) + (if nodes[n].id in r then [nodes[n]] else [])
  }

  /** The start leads to the entry's node and nowhere else, unless it is that node. */
  function Redirected(arrows: seq<Arrow>, start: string, entry: string, node: string): seq<Arrow> {
    if node == start then arrows else Without(arrows, start) + [Arrow("__entry_" + entry, start, node, None)]
  }

  /** `r` is what the arrows reach from the start. */
  ghost predicate Reached(arrows: seq<Arrow>, start: string, r: set<string>) {
    forall x :: x in r <==> Reach(Drawn(arrows), start, x)
  }

  /** `proj` is what remains reachable from the start. */
  ghost predicate Projects(flow: Flow, start: string, entry: string, node: string, proj: Flow) {
    var arrows := Redirected(flow.arrows, start, entry, node);
    exists r: set<string> ::
      Reached(arrows, start, r) && proj == Flow(flow.version, KeptNodes(flow.nodes, r), Kept(arrows, r))
  }

  method AtEntry(flow: Flow, entry: string, node: string) returns (proj: Option<Flow>)
    ensures proj.Some? <==> StartAt(flow.nodes).Some?
    ensures proj.Some? ==> Projects(flow, flow.nodes[StartAt(flow.nodes).value].id, entry, node, proj.value)
  {
    var at := StartAt(flow.nodes);
    if at.None? { return None; }
    var start := flow.nodes[at.value].id;
    var arrows := flow.arrows;
    if node != start {
      arrows := Retain(arrows, start);
      arrows := arrows + [Arrow("__entry_" + entry, start, node, None)];
    }
    var r := ReachableFrom(arrows, start);
    assert Reached(arrows, start, r);
    var nodes: seq<Node> := [];
    var i := 0;
    while i < |flow.nodes|
      invariant i <= |flow.nodes| && nodes == KeptNodes(flow.nodes[..i], r)
    {
      assert flow.nodes[..i + 1][..i] == flow.nodes[..i];
      if flow.nodes[i].id in r { nodes := nodes + [flow.nodes[i]]; }
      i := i + 1;
    }
    assert flow.nodes[..i] == flow.nodes;
    var kept := RetainReached(arrows, r);
    proj := Some(Flow(flow.version, nodes, kept));
  }

  method Retain(arrows: seq<Arrow>, source: string) returns (kept: seq<Arrow>)
    ensures kept == Without(arrows, source)
  {
    kept := [];
    var i := 0;
    while i < |arrows|
      invariant i <= |arrows| && kept == Without(arrows[..i], source)
    {
      assert arrows[..i + 1][..i] == arrows[..i];
      if arrows[i].source != source { kept := kept + [arrows[i]]; }
      i := i + 1;
    }
    assert arrows[..i] == arrows;
  }

  method RetainReached(arrows: seq<Arrow>, r: set<string>) returns (kept: seq<Arrow>)
    ensures kept == Kept(arrows, r)
  {
    kept := [];
    var i := 0;
    while i < |arrows|
      invariant i <= |arrows| && kept == Kept(arrows[..i], r)
    {
      assert arrows[..i + 1][..i] == arrows[..i];
      if arrows[i].source in r && arrows[i].target in r { kept := kept + [arrows[i]]; }
      i := i + 1;
    }
    assert arrows[..i] == arrows;
  }

  // ----- Outgoing arrows through the edits -----

  lemma {:induction false} WithoutOthers(arrows: seq<Arrow>, source: string, id: string)
    requires id != source
    ensures Outgoing(Without(arrows, source), id) == Outgoing(arrows, id)
  {
    if arrows != [] {
      var n := |arrows| - 1;
      WithoutOthers(arrows[..n], source, id);
      if arrows[n].source != source {
        OutgoingLast(Without(arrows[..n], source), arrows[n], id);
      } else {
        assert Without(arrows, source) == Without(arrows[..n], source);
      }
    }
  }

  lemma OutgoingLast(arrows: seq<Arrow>, e: Arrow, id: string)
    ensures Outgoing(arrows + [e], id) == Outgoing(arrows, id) + (if e.source == id then [e] else [])
  {
    assert (arrows + [e])[..|arrows|] == arrows;
  }

  lemma {:induction false} KeptOutgoing(arrows: seq<Arrow>, r: set<string>, id: string)
    requires id in r && forall i | 0 <= i < |arrows| && arrows[i].source == id :: arrows[i].target in r
    ensures Outgoing(Kept(arrows, r), id) == Outgoing(arrows, id)
  {
    if arrows != [] {
      var n := |arrows| - 1;
      assert forall i | 0 <= i < n :: arrows[..n][i] == arrows[i];
      KeptOutgoing(arrows[..n], r, id);
      if arrows[n].source in r && arrows[n].target in r {
        OutgoingLast(Kept(arrows[..n], r), arrows[n], id);
      } else {
        assert Kept(arrows, r) == Kept(arrows[..n], r);
      }
    }
  }

  lemma {:induction false} KeptNode(nodes: seq<Node>, r: set<string>, n: Node)
    ensures n in KeptNodes(nodes, r) <==> n in nodes && n.id in r
  {
    if nodes != [] {
      var k := |nodes| - 1;
      KeptNode(nodes[..k], r, n);
      assert nodes == nodes[..k] + [nodes[k]];
    }
  }

  /** Equal outgoing lists draw equal edges. */
  lemma SameEdges(a: seq<Arrow>, b: seq<Arrow>, x: string)
    requires Outgoing(a, x) == Outgoing(b, x)
    ensures forall y :: Edge(Drawn(a), x, y) <==> Edge(Drawn(b), x, y)
  {
    OutgoingMembers(a, x);
    OutgoingMembers(b, x);
    forall y ensures Edge(Drawn(a), x, y) <==> Edge(Drawn(b), x, y) {
      DrawnEdge(a, x, y);
      DrawnEdge(b, x, y);
      if Edge(Drawn(a), x, y) {
        var i :| 0 <= i < |a| && a[i].source == x && a[i].target == y;
        assert a[i] in Outgoing(a, x);
        assert a[i] in b;
      }
      if Edge(Drawn(b), x, y) {
        var i :| 0 <= i < |b| && b[i].source == x && b[i].target == y;
        assert b[i] in Outgoing(b, x);
        assert b[i] in a;
      }
    }
  }

  // ----- The theorem -----

  /** Nothing leads to the start of a shaped flow. */
  lemma StartIsSource(flow: Flow, at: nat, x: string)
    requires Shaped(flow) && at < |flow.nodes| && flow.nodes[at].kind == StartNode
    ensures !Edge(Drawn(flow.arrows), x, flow.nodes[at].id)
  {
    var start := flow.nodes[at].id;
    DrawnEdge(flow.arrows, x, start);
    if Edge(Drawn(flow.arrows), x, start) {
      var i :| 0 <= i < |flow.arrows| && flow.arrows[i].source == x && flow.arrows[i].target == start;
      assert ArrowOk(flow, flow.arrows[i]);
      assert HasKind(flow, start, StartNode);
      assert false;
    }
  }

  lemma {:induction false} EntryAvoidsStart(flow: Flow, at: nat, p: seq<string>)
    requires Shaped(flow) && at < |flow.nodes| && flow.nodes[at].kind == StartNode
    requires Walk(Drawn(flow.arrows), p) && p[0] != flow.nodes[at].id
    ensures flow.nodes[at].id !in p
  {
    if |p| > 1 {
      var n := |p| - 1;
      EntryAvoidsStart(flow, at, p[..n]);
      assert Edge(Drawn(flow.arrows), p[n - 1], p[n]);
      StartIsSource(flow, at, p[n - 1]);
      assert p == p[..n] + [p[n]];
    }
  }

  /** A node reached from the entry keeps its outgoing arrows, in order and with their handles. */
  lemma NodeKeepsArrows(flow: Flow, at: nat, entry: string, node: string, r: set<string>, m: string)
    requires Shaped(flow) && at < |flow.nodes| && flow.nodes[at].kind == StartNode
    requires Reached(Redirected(flow.arrows, flow.nodes[at].id, entry, node), flow.nodes[at].id, r)
    requires m in r && (node != flow.nodes[at].id ==> m != flow.nodes[at].id)
    ensures Outgoing(Kept(Redirected(flow.arrows, flow.nodes[at].id, entry, node), r), m) == Outgoing(flow.arrows, m)
  {
    var start := flow.nodes[at].id;
    var arrows := Redirected(flow.arrows, start, entry, node);
    forall i | 0 <= i < |arrows| && arrows[i].source == m ensures arrows[i].target in r {
      DrawnEdge(arrows, m, arrows[i].target);
      ReachEdge(Drawn(arrows), start, m, arrows[i].target);
    }
    KeptOutgoing(arrows, r, m);
    if node != start {
      OutgoingLast(Without(flow.arrows, start), Arrow("__entry_" + entry, start, node, None), m);
      WithoutOthers(flow.arrows, start, m);
    }
  }

  lemma EntryIsKept(arrows: seq<Arrow>, start: string, entry: string, node: string, r: set<string>)
    requires Reached(Redirected(arrows, start, entry, node), start, r)
    ensures node in r
  {
    var to := Redirected(arrows, start, entry, node);
    ReachSelf(Drawn(to), start);
    if node != start {
      assert to[|to| - 1].source == start && to[|to| - 1].target == node;
      DrawnEdge(to, start, node);
      ReachEdge(Drawn(to), start, start, node);
    }
  }

  /** The successors of a kept node that can be met are kept. */
  lemma StepIsKept(flow: Flow, at: nat, entry: string, node: string, r: set<string>, m: string, x: string)
    requires Shaped(flow) && at < |flow.nodes| && flow.nodes[at].kind == StartNode
    requires Reached(Redirected(flow.arrows, flow.nodes[at].id, entry, node), flow.nodes[at].id, r)
    requires m in r && (node != flow.nodes[at].id ==> m != flow.nodes[at].id) && Edge(Drawn(flow.arrows), m, x)
    ensures x in r
  {
    var arrows := Redirected(flow.arrows, flow.nodes[at].id, entry, node);
    NodeKeepsArrows(flow, at, entry, node, r, m);
    SameEdges(flow.arrows, Kept(arrows, r), m);
    KeptEdge(arrows, r, m, x);
  }

  /** The nodes that walks from the entry can meet are all kept. */
  lemma {:induction false} WalkIsKept(flow: Flow, at: nat, entry: string, node: string, r: set<string>, p: seq<string>, i: nat)
    requires Shaped(flow) && at < |flow.nodes| && flow.nodes[at].kind == StartNode
    requires Reached(Redirected(flow.arrows, flow.nodes[at].id, entry, node), flow.nodes[at].id, r)
    requires Walk(Drawn(flow.arrows), p) && p[0] == node && i < |p|
    requires node != flow.nodes[at].id ==> flow.nodes[at].id !in p
    ensures p[i] in r
    decreases i
  {
    if i == 0 {
      EntryIsKept(flow.arrows, flow.nodes[at].id, entry, node, r);
    } else {
      WalkIsKept(flow, at, entry, node, r, p, i - 1);
      assert p[i - 1] in p;
      assert Edge(Drawn(flow.arrows), p[i - 1], p[i - 1 + 1]);
      StepIsKept(flow, at, entry, node, r, p[i - 1], p[i]);
    }
  }

  lemma {:induction false} KeptMembers(arrows: seq<Arrow>, r: set<string>)
    ensures forall e | e in Kept(arrows, r) :: e in arrows && e.source in r && e.target in r
  {
    if arrows != [] {
      KeptMembers(arrows[..|arrows| - 1], r);
      assert arrows == arrows[..|arrows| - 1] + [arrows[|arrows| - 1]];
    }
  }

  lemma KeptEdge(arrows: seq<Arrow>, r: set<string>, a: string, b: string)
    requires Edge(Drawn(Kept(arrows, r)), a, b)
    ensures a in r && b in r
  {
    var kept := Kept(arrows, r);
    KeptMembers(arrows, r);
    DrawnEdge(kept, a, b);
    var i :| 0 <= i < |kept| && kept[i].source == a && kept[i].target == b;
    assert kept[i] in kept;
  }

  /** For a validated flow, the walks from a public entry's node are the same in the flow and in its
      projection, and every node on them keeps its data and its outgoing arrows. */
  lemma ProjectionKeepsWalks(flow: Flow, entry: string, node: string, proj: Flow, p: seq<string>)
    requires Shaped(flow) && StartAt(flow.nodes).Some?
    requires Projects(flow, flow.nodes[StartAt(flow.nodes).value].id, entry, node, proj)
    requires p != [] && p[0] == node
    ensures Walk(Drawn(flow.arrows), p) <==> Walk(Drawn(proj.arrows), p)
    ensures Walk(Drawn(flow.arrows), p) ==> forall i | 0 <= i < |p| ::
      && Outgoing(proj.arrows, p[i]) == Outgoing(flow.arrows, p[i])
      && forall n | n in flow.nodes && n.id == p[i] :: n in proj.nodes
  {
    var at := StartAt(flow.nodes).value;
    var start := flow.nodes[at].id;
    var arrows := Redirected(flow.arrows, start, entry, node);
    var r: set<string> :| Reached(arrows, start, r) && proj == Flow(flow.version, KeptNodes(flow.nodes, r), Kept(arrows, r));
    if Walk(Drawn(flow.arrows), p) {
      if node != start { EntryAvoidsStart(flow, at, p); }
      forall i | 0 <= i < |p|
        ensures Outgoing(proj.arrows, p[i]) == Outgoing(flow.arrows, p[i])
          && (forall n | n in flow.nodes && n.id == p[i] :: n in proj.nodes)
      {
        WalkIsKept(flow, at, entry, node, r, p, i);
        assert p[i] in p;
        NodeKeepsArrows(flow, at, entry, node, r, p[i]);
        forall n | n in flow.nodes && n.id == p[i] ensures n in proj.nodes { KeptNode(flow.nodes, r, n); }
      }
      forall i | 0 <= i < |p| - 1 ensures Edge(Drawn(proj.arrows), p[i], p[i + 1]) {
        SameEdges(flow.arrows, proj.arrows, p[i]);
        assert Edge(Drawn(flow.arrows), p[i], p[i + 1]);
      }
    }
    if Walk(Drawn(proj.arrows), p) { ProjectedWalk(flow, at, entry, node, r, p); }
  }

  /** A walk in the projection whose beginning is a walk in the flow takes its last step there too. */
  lemma ProjectedStep(flow: Flow, at: nat, entry: string, node: string, r: set<string>, p: seq<string>)
    requires Shaped(flow) && at < |flow.nodes| && flow.nodes[at].kind == StartNode
    requires Reached(Redirected(flow.arrows, flow.nodes[at].id, entry, node), flow.nodes[at].id, r)
    requires |p| > 1 && p[0] == node && Walk(Drawn(flow.arrows), p[..|p| - 1])
    requires Edge(Drawn(Kept(Redirected(flow.arrows, flow.nodes[at].id, entry, node), r)), p[|p| - 2], p[|p| - 1])
    ensures Edge(Drawn(flow.arrows), p[|p| - 2], p[|p| - 1])
  {
    var q := p[..|p| - 1];
    var m := q[|q| - 1];
    if node != flow.nodes[at].id { EntryAvoidsStart(flow, at, q); }
    WalkIsKept(flow, at, entry, node, r, q, |q| - 1);
    assert m in q;
    NodeKeepsArrows(flow, at, entry, node, r, m);
    SameEdges(flow.arrows, Kept(Redirected(flow.arrows, flow.nodes[at].id, entry, node), r), m);
  }

  lemma WalkGoesOn(g: Graph, p: seq<string>)
    requires |p| > 1 && Walk(g, p[..|p| - 1]) && Edge(g, p[|p| - 2], p[|p| - 1])
    ensures Walk(g, p)
  {
    var q := p[..|p| - 1];
    forall i | 0 <= i < |p| - 1 ensures Edge(g, p[i], p[i + 1]) {
      if i < |q| - 1 { assert Edge(g, q[i], q[i + 1]); }
    }
  }

  lemma {:induction false} ProjectedWalk(flow: Flow, at: nat, entry: string, node: string, r: set<string>, p: seq<string>)
    requires Shaped(flow) && at < |flow.nodes| && flow.nodes[at].kind == StartNode
    requires Reached(Redirected(flow.arrows, flow.nodes[at].id, entry, node), flow.nodes[at].id, r)
    requires Walk(Drawn(Kept(Redirected(flow.arrows, flow.nodes[at].id, entry, node), r)), p)
    requires p[0] == node
    ensures Walk(Drawn(flow.arrows), p)
  {
    if |p| > 1 {
      var n := |p| - 1;
      ProjectedWalk(flow, at, entry, node, r, p[..n]);
      assert Edge(Drawn(Kept(Redirected(flow.arrows, flow.nodes[at].id, entry, node), r)), p[n - 1], p[n - 1 + 1]);
      ProjectedStep(flow, at, entry, node, r, p);
      WalkGoesOn(Drawn(flow.arrows), p);
    }
  }
}
