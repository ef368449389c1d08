/** Models and their contexts (rust/crates/zf-compiler/src/graph_compiler.rs,
    `validate_context_model_pairs`). */
module ModelPairs {
  import opened Reachability
  import opened FlowGraph

  function Incoming(arrows: seq<Arrow>, id: string): seq<Arrow> {
    if arrows == [] then []
    else
      var n := |arrows| - 1;
      Incoming(arrows[..n], id) + (if arrows[n].target == id then [arrows[n]] else [])
  }

  /** A node of that identity and kind whose partner is `of`. */
  predicate Partner(flow: Flow, id: string, kind: Kind, of: string) {
    exists i | 0 <= i < |flow.nodes| :: flow.nodes[i].id == id && flow.nodes[i].kind == kind && flow.nodes[i].partner == of
  }

  predicate PairOk(flow: Flow, n: Node) {
    && (n.kind == ModelNode ==>
          Partner(flow, n.partner, ContextNode, n.id)
          && var into := Incoming(flow.arrows, n.id); |into| == 1 && into[0].source == n.partner)
    && (n.kind == ContextNode && flow.version >= 3 ==>
          Partner(flow, n.partner, ModelNode, n.id)
          && var out := Outgoing(flow.arrows, n.id); |out| == 1 && out[0].target == n.partner)
  }

  predicate PairsOk(flow: Flow) {
    forall i | 0 <= i < |flow.nodes| :: PairOk(flow, flow.nodes[i])
  }

  /** The loop over all nodes. With distinct identities the first node found by identity is the only
      one, so the search for a partner and the check of its kind are one question. */
  method ValidatePairs(flow: Flow) returns (ok: bool)
    ensures ok <==> PairsOk(flow)
  {
    var i := 0;
    while i < |flow.nodes|
      invariant i <= |flow.nodes| && forall k | 0 <= k < i :: PairOk(flow, flow.nodes[k])
    {
      var n := flow.nodes[i];
      if n.kind == ModelNode {
        if !Partner(flow, n.partner, ContextNode, n.id) { return false; }
        var into := Incoming(flow.arrows, n.id);
        if |into| != 1 || into[0].source != n.partner { return false; }
      } else if n.kind == ContextNode && flow.version >= 3 {
        if !Partner(flow, n.partner, ModelNode, n.id) { return false; }
        var out := Outgoing(flow.arrows, n.id);
        if |out| != 1 || out[0].target != n.partner { return false; }
      }
      i := i + 1;
    }
    ok := true;
  }

  lemma {:induction false} IncomingMembers(arrows: seq<Arrow>, id: string)
    ensures forall e :: e in Incoming(arrows, id) <==> e in arrows && e.target == id
  {
    if arrows != [] {
      var n := |arrows| - 1;
      IncomingMembers(arrows[..n], id);
      assert arrows == arrows[..n] + [arrows[n]];
    }
  }

  /** A step into a model comes from its context; from format 3 on, a step out of a context goes to
      its model, and the two are partners of each other. */
  lemma StepsArePaired(flow: Flow, a: string, b: string)
    requires PairsOk(flow) && DistinctNodes(flow) && Edge(Drawn(flow.arrows), a, b)
    ensures HasKind(flow, b, ModelNode) ==> Partner(flow, b, ModelNode, a) && Partner(flow, a, ContextNode, b)
    ensures HasKind(flow, a, ContextNode) && flow.version >= 3 ==> Partner(flow, a, ContextNode, b) && Partner(flow, b, ModelNode, a)
  {
    DrawnEdge(flow.arrows, a, b);
    var e :| e in flow.arrows && e.source == a && e.target == b;
    if HasKind(flow, b, ModelNode) {
      var i :| 0 <= i < |flow.nodes| && flow.nodes[i].id == b && flow.nodes[i].kind == ModelNode;
      assert PairOk(flow, flow.nodes[i]);
      IncomingMembers(flow.arrows, b);
      assert e in Incoming(flow.arrows, b);
    }
    if HasKind(flow, a, ContextNode) && flow.version >= 3 {
      var i :| 0 <= i < |flow.nodes| && flow.nodes[i].id == a && flow.nodes[i].kind == ContextNode;
      assert PairOk(flow, flow.nodes[i]);
      OutgoingMembers(flow.arrows, a);
      assert e in Outgoing(flow.arrows, a);
    }
  }

  /** Every walk that does not begin at a model enters each model directly from that model's own
      context, also through back edges; and from format 3 on it leaves each context for its own model. */
  lemma WalksPassContexts(flow: Flow, p: seq<string>, i: nat)
    requires PairsOk(flow) && DistinctNodes(flow) && Walk(Drawn(flow.arrows), p) && i < |p|
    requires !HasKind(flow, p[0], ModelNode)
    ensures HasKind(flow, p[i], ModelNode) ==>
      i > 0 && Partner(flow, p[i - 1], ContextNode, p[i]) && Partner(flow, p[i], ModelNode, p[i - 1])
    ensures HasKind(flow, p[i], ContextNode) && flow.version >= 3 && i + 1 < |p| ==>
      Partner(flow, p[i], ContextNode, p[i + 1]) && HasKind(flow, p[i + 1], ModelNode)
  {
    if i > 0 {
      assert Edge(Drawn(flow.arrows), p[i - 1], p[i - 1 + 1]);
      StepsArePaired(flow, p[i - 1], p[i]);
    }
    if i + 1 < |p| {
      assert Edge(Drawn(flow.arrows), p[i], p[i + 1]);
      StepsArePaired(flow, p[i], p[i + 1]);
    }
  }
}
