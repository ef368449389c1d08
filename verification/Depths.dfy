/** How deep the walk of `dependencies` gets (rust/crates/zf-compiler/src/resolve.rs): a tour without
    any limit measures it, and on closed bridges without cycles the limit is the only thing that the
    walk can report. */
module Depths {
  import opened Composition
  import opened Dependencies
  import opened Reachability

  /** Bridges fully toured, and the greatest number of ancestors with which one was entered. */
  datatype Tour = Tour(active: set<string>, deepest: nat)

  function Max(a: nat, b: nat): nat { if a < b then b else a }

  /** Entering `id` below the bridges of `above`: its requirements first, in order of names, whatever
      the depth. */
  function Enter(bridges: map<string, Bridge>, ord: Order, id: string, above: set<string>, t: Tour): (r: Tour)
    ensures t.deepest <= r.deepest
    decreases bridges.Keys - above, 0, 0
  {
    if id in t.active || id in above || id !in bridges then t
    else
      assert id in bridges.Keys - above;
      var u := EnterAll(bridges, ord, ord.names(bridges[id].required), 0, above + {id}, t.(deepest := Max(t.deepest, |above|)));
      u.(active := u.active + {id})
  }

  function EnterAll(bridges: map<string, Bridge>, ord: Order, list: seq<string>, i: nat, above: set<string>, t: Tour): (r: Tour)
    requires i <= |list|
    ensures t.deepest <= r.deepest
    decreases bridges.Keys - above, 1, |list| - i
  {
    if i == |list| then t
    else EnterAll(bridges, ord, list, i + 1, above, Enter(bridges, ord, list[i], above, t))
  }

  /** The greatest number of ancestors under visit when a bridge is entered, over the whole request. */
  function DeepestEntry(bridges: map<string, Bridge>, ord: Order, request: set<string>): nat {
    EnterAll(bridges, ord, ord.names(request), 0, {}, Tour({}, 0)).deepest
  }

  /** Well named, closed under requirements, and without cycles. */
  ghost predicate Tidy(bridges: map<string, Bridge>) {
    AllNamed(bridges) && forall b | b in bridges :: bridges[b].required <= bridges.Keys && !Below(Requires(bridges), b, b)
  }

  /** The limited walk has kept up with the tour, or has reported the depth. */
  predicate KeepsUp(q: Progress, u: Tour) {
    if u.deepest < MAX_DEPTH then q == Progress(u.active, false) else q.bad
  }

  lemma {:induction false} VisitKeepsUp(bridges: map<string, Bridge>, ord: Order, id: string, above: set<string>, t: Tour)
    requires Tidy(bridges) && Lists(ord) && id in bridges && Ancestors(bridges, above, id)
    requires |above| <= MAX_DEPTH && t.deepest < MAX_DEPTH
    ensures KeepsUp(Visit(bridges, ord, id, above, Progress(t.active, false)), Enter(bridges, ord, id, above, t))
    decreases MAX_DEPTH + 1 - |above|, 0, 0
  {
    assert id !in above;
    if id !in t.active && |above| < MAX_DEPTH {
      var list := ord.names(bridges[id].required);
      RequirementsBelow(bridges, ord, id, above);
      assert |above + {id}| == |above| + 1;
      VisitAllKeepsUp(bridges, ord, list, 0, above + {id}, t.(deepest := Max(t.deepest, |above|)));
    }
  }

  lemma RequirementsBelow(bridges: map<string, Bridge>, ord: Order, id: string, above: set<string>)
    requires Tidy(bridges) && Lists(ord) && id in bridges && Ancestors(bridges, above, id)
    ensures forall x | x in ord.names(bridges[id].required) :: x in bridges && Ancestors(bridges, above + {id}, x)
  {
    var g := Requires(bridges);
    forall v, x | v in above + {id} && x in ord.names(bridges[id].required) ensures Below(g, v, x) {
      assert Edge(g, id, x);
      if v == id { ReachSelf(g, id); } else { BelowReach(g, v, id); }
      ReachEdge(g, v, id, x);
    }
  }

  lemma {:induction false} VisitAllKeepsUp(bridges: map<string, Bridge>, ord: Order, list: seq<string>, i: nat, above: set<string>, t: Tour)
    requires Tidy(bridges) && Lists(ord) && i <= |list| && |above| <= MAX_DEPTH && t.deepest < MAX_DEPTH
    requires forall x | x in list :: x in bridges && Ancestors(bridges, above, x)
    ensures KeepsUp(VisitAll(bridges, ord, list, i, above, Progress(t.active, false)), EnterAll(bridges, ord, list, i, above, t))
    decreases MAX_DEPTH + 1 - |above|, 1, |list| - i
  {
    if i < |list| {
      VisitKeepsUp(bridges, ord, list[i], above, t);
      var u := Enter(bridges, ord, list[i], above, t);
      if u.deepest < MAX_DEPTH {
        VisitAllKeepsUp(bridges, ord, list, i + 1, above, u);
      } else {
        VisitAllKeepsReports(bridges, ord, list, i + 1, above, Visit(bridges, ord, list[i], above, Progress(t.active, false)));
      }
    }
  }

  /** On closed, acyclic and well-named bridges the walk reports something exactly when some bridge is
      entered below 128 ancestors or more. */
  lemma ReportedMeansDeep(bridges: map<string, Bridge>, ord: Order, request: set<string>)
    requires Tidy(bridges) && Lists(ord) && request <= bridges.Keys
    ensures Activated(bridges, ord, request).bad <==> DeepestEntry(bridges, ord, request) >= MAX_DEPTH
  {
    var list := ord.names(request);
    assert forall x | x in list :: x in bridges && Ancestors(bridges, {}, x);
    VisitAllKeepsUp(bridges, ord, list, 0, {}, Tour({}, 0));
  }
}
