/** Walks in finite directed graphs, and the worklist search that several passes of the compiler share. */
module Reachability {

  /** The successors of every node that has any. */
  type Graph = map<string, set<string>>

  predicate Edge(g: Graph, a: string, b: string) {
    a in g && b in g[a]
  }

  /** Consecutive nodes are joined by edges. */
  predicate Walk(g: Graph, p: seq<string>) {
    p != [] && forall i | 0 <= i < |p| - 1 :: Edge(g, p[i], p[i + 1])
  }

  ghost predicate WalkFrom(g: Graph, p: seq<string>, a: string, b: string) {
    Walk(g, p) && p[0] == a && p[|p| - 1] == b
  }

  /** `b` can be reached from `a`, possibly without any step. */
  ghost predicate Reach(g: Graph, a: string, b: string) {
    exists p :: WalkFrom(g, p, a, b)
  }

  /** `b` can be reached from `a` in at least one step. */
  ghost predicate Below(g: Graph, a: string, b: string) {
    exists p :: WalkFrom(g, p, a, b) && |p| > 1
  }

  lemma ReachSelf(g: Graph, a: string)
    ensures Reach(g, a, a)
  {
    assert WalkFrom(g, [a], a, a);
  }

  lemma ReachEdge(g: Graph, a: string, b: string, c: string)
    requires Reach(g, a, b) && Edge(g, b, c)
    ensures Reach(g, a, c) && Below(g, a, c)
  {
    var p :| WalkFrom(g, p, a, b);
    assert WalkFrom(g, p + [c], a, c) && |p + [c]| > 1;
  }

  lemma BelowReach(g: Graph, a: string, b: string)
    requires Below(g, a, b)
    ensures Reach(g, a, b)
  {
    var p :| WalkFrom(g, p, a, b) && |p| > 1;
  }

  /** A walk that starts in a set closed under edges stays in it. */
  lemma {:induction false} WalkStays(g: Graph, p: seq<string>, s: set<string>)
    requires Walk(g, p) && p[0] in s && forall a | a in s && a in g :: g[a] <= s
    ensures forall i | 0 <= i < |p| :: p[i] in s
  {
    if |p| > 1 {
      var n := |p| - 1;
      WalkStays(g, p[..n], s);
      assert Edge(g, p[n - 1], p[n]);
    }
  }

  lemma ReachStays(g: Graph, a: string, b: string, s: set<string>)
    requires Reach(g, a, b) && a in s && forall x | x in s && x in g :: g[x] <= s
    ensures b in s
  {
    var p :| WalkFrom(g, p, a, b);
    WalkStays(g, p, s);
  }

  /** Graphs that agree on a closed set have the same walks from it. */
  lemma {:induction false} WalksAgree(g: Graph, h: Graph, p: seq<string>, s: set<string>)
    requires Walk(g, p) && p[0] in s
    requires forall a | a in s :: (a in g <==> a in h) && (a in g ==> g[a] == h[a] && g[a] <= s)
    ensures Walk(h, p) && forall i | 0 <= i < |p| :: p[i] in s
  {
    WalkStays(g, p, s);
    forall i | 0 <= i < |p| - 1 ensures Edge(h, p[i], p[i + 1]) { assert Edge(g, p[i], p[i + 1]); }
  }

  lemma ReachAgrees(g: Graph, h: Graph, a: string, b: string, s: set<string>)
    requires a in s
    requires forall x | x in s :: (x in g <==> x in h) && (x in g ==> g[x] == h[x] && g[x] <= s)
    ensures Reach(g, a, b) <==> Reach(h, a, b)
  {
    if Reach(g, a, b) {
      var p :| WalkFrom(g, p, a, b);
      WalksAgree(g, h, p, s);
      assert WalkFrom(h, p, a, b);
    }
    if Reach(h, a, b) {
      var p :| WalkFrom(h, p, a, b);
      WalksAgree(h, g, p, s);
      assert WalkFrom(g, p, a, b);
    }
  }

  // ----- Finite chains -----

  /** Every walk from `a` has at most `n` nodes, all of them known. */
  predicate ChainsWithin(g: Graph, a: string, n: nat)
    decreases n
  {
    n > 0 && a in g && forall b | b in g[a] :: ChainsWithin(g, b, n - 1)
  }

  lemma {:induction false} ChainsWiden(g: Graph, a: string, n: nat, m: nat)
    requires ChainsWithin(g, a, n) && n <= m
    ensures ChainsWithin(g, a, m)
    decreases n
  {
    forall b | b in g[a] ensures ChainsWithin(g, b, m - 1) { ChainsWiden(g, b, n - 1, m - 1); }
  }

  lemma {:induction false} ChainsBound(g: Graph, p: seq<string>, n: nat)
    requires Walk(g, p) && ChainsWithin(g, p[0], n)
    ensures |p| <= n && ChainsWithin(g, p[|p| - 1], n - |p| + 1)
    decreases n
  {
    if |p| > 1 {
      assert Edge(g, p[0], p[1]);
      forall i | 0 <= i < |p[1..]| - 1 ensures Edge(g, p[1..][i], p[1..][i + 1]) { assert Edge(g, p[i + 1], p[i + 2]); }
      ChainsBound(g, p[1..], n - 1);
    }
  }

  /** Bounded chains exclude cycles. */
  lemma {:induction false} BoundedIsAcyclic(g: Graph, a: string, n: nat)
    requires ChainsWithin(g, a, n)
    ensures !Below(g, a, a)
    decreases n
  {
    if Below(g, a, a) {
      var p :| WalkFrom(g, p, a, a) && |p| > 1;
      ChainsBound(g, p, n);
      BoundedIsAcyclic(g, a, n - |p| + 1);
      assert false;
    }
  }

  /** Bounded chains still bound every walk when the graph is cut to a closed part. */
  lemma {:induction false} ChainsAgree(g: Graph, h: Graph, a: string, n: nat, s: set<string>)
    requires ChainsWithin(g, a, n) && a in s
    requires forall x | x in s :: (x in g <==> x in h) && (x in g ==> g[x] == h[x] && g[x] <= s)
    ensures ChainsWithin(h, a, n)
    decreases n
  {
    forall b | b in h[a] ensures ChainsWithin(h, b, n - 1) { ChainsAgree(g, h, b, n - 1, s); }
  }
}
