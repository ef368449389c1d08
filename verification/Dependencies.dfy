/** The bridges that a request activates (rust/crates/zf-compiler/src/resolve.rs, `dependencies` and
    `can_reuse`): a depth-first walk with cycle and depth detection, and a worklist search. */
module Dependencies {
  import opened Base
  import opened Composition
  import opened Reachability

  const MAX_DEPTH := 128

  function Requires(bridges: map<string, Bridge>): Graph {
    map b | b in bridges :: bridges[b].required
  }

  /** Bridges fully visited, and whether anything was reported. */
  datatype Progress = Progress(active: set<string>, bad: bool) {
    function Report(b: bool): Progress { if b then this.(bad := true) else this }
  }

  function Visit(bridges: map<string, Bridge>, ord: Order, id: string, visiting: set<string>, p: Progress): Progress
    requires |visiting| <= MAX_DEPTH
    decreases MAX_DEPTH + 1 - |visiting|, 0, 0
  {
    if id in p.active then p
    else if id in visiting then p.Report(true)
    else if |visiting| == MAX_DEPTH then p.Report(true)
    else if id in bridges then
      var q := VisitAll(bridges, ord, ord.names(bridges[id].required), 0, visiting + {id}, p.Report(!ValidName(id)));
      q.(active := q.active + {id})
    else p.Report(true)
  }

  function VisitAll(bridges: map<string, Bridge>, ord: Order, list: seq<string>, i: nat, visiting: set<string>, p: Progress): Progress
    requires |visiting| <= MAX_DEPTH && i <= |list|
    decreases MAX_DEPTH + 1 - |visiting|, 1, |list| - i
  {
    if i == |list| then p
    else VisitAll(bridges, ord, list, i + 1, visiting, Visit(bridges, ord, list[i], visiting, p))
  }

  /** The walk from every requested bridge, each with a fresh set of ancestors. */
  function Activated(bridges: map<string, Bridge>, ord: Order, request: set<string>): Progress {
    VisitAll(bridges, ord, ord.names(request), 0, {}, Progress({}, false))
  }

  class Walker {
    const bridges: map<string, Bridge>
    const ord: Order
    var visiting: set<string>
    var active: set<string>
    var bad: bool

    constructor (bridges: map<string, Bridge>, ord: Order)
      ensures this.bridges == bridges && this.ord == ord && visiting == {} && active == {} && !bad
    {
      this.bridges, this.ord := bridges, ord;
      visiting, active, bad := {}, {}, false;
    }

    ghost function Progress_(): Progress
      reads this
    {
      Progress(active, bad)
    }

    method Dependencies(id: string)
      requires |visiting| <= MAX_DEPTH
      modifies this
      ensures visiting == old(visiting)
      ensures Progress_() == Visit(bridges, ord, id, old(visiting), old(Progress_()))
      decreases MAX_DEPTH + 1 - |visiting|
    {
      if id in active { return; }
      if id in visiting {
        bad := true;
        return;
      }
      visiting := visiting + {id};
      if |visiting| > MAX_DEPTH {
        bad := true;
      } else if id in bridges {
        if !ValidName(id) { bad := true; }
        var list := ord.names(bridges[id].required);
        ghost var inner := visiting;
        ghost var start := Progress_();
        var i := 0;
        while i < |list|
          invariant i <= |list| && visiting == inner
          invariant VisitAll(bridges, ord, list, i, inner, Progress_()) == VisitAll(bridges, ord, list, 0, inner, start)
        {
          Dependencies(list[i]);
          i := i + 1;
        }
        active := active + {id};
      } else {
        bad := true;
      }
      visiting := visiting - {id};
      assert visiting == old(visiting);
    }
  }

  method Activate(bridges: map<string, Bridge>, ord: Order, request: set<string>) returns (active: set<string>, bad: bool)
    ensures Progress(active, bad) == Activated(bridges, ord, request)
  {
    var walker := new Walker(bridges, ord);
    var list := ord.names(request);
    var i := 0;
    while i < |list|
      invariant i <= |list| && walker.visiting == {} && fresh(walker) && walker.bridges == bridges && walker.ord == ord
      invariant VisitAll(bridges, ord, list, i, {}, walker.Progress_()) == Activated(bridges, ord, request)
    {
      walker.Dependencies(list[i]);
      i := i + 1;
    }
    active, bad := walker.active, walker.bad;
  }

  // ----- What a walk without reports found -----

  /** Known, well named, and closed under requirements, with all chains inside the set. */
  ghost predicate Settled(bridges: map<string, Bridge>, a: set<string>) {
    forall b | b in a :: b in bridges && ValidName(b) && bridges[b].required <= a && ChainsWithin(Requires(bridges), b, |a|)
  }

  /** Everything new is required, directly or not, by something in `from`. */
  ghost predicate Caused(bridges: map<string, Bridge>, from: set<string>, old_: set<string>, new_: set<string>) {
    old_ <= new_ && forall b | b in new_ && b !in old_ :: exists a :: a in from && Reach(Requires(bridges), a, b)
  }

  lemma {:induction false} VisitKeepsReports(bridges: map<string, Bridge>, ord: Order, id: string, visiting: set<string>, p: Progress)
    requires |visiting| <= MAX_DEPTH
    ensures p.bad ==> Visit(bridges, ord, id, visiting, p).bad
    decreases MAX_DEPTH + 1 - |visiting|, 0, 0
  {
    if id !in p.active && id !in visiting && |visiting| < MAX_DEPTH && id in bridges {
      VisitAllKeepsReports(bridges, ord, ord.names(bridges[id].required), 0, visiting + {id}, p.Report(!ValidName(id)));
    }
  }

  lemma {:induction false} VisitAllKeepsReports(bridges: map<string, Bridge>, ord: Order, list: seq<string>, i: nat, visiting: set<string>, p: Progress)
    requires |visiting| <= MAX_DEPTH && i <= |list|
    ensures p.bad ==> VisitAll(bridges, ord, list, i, visiting, p).bad
    decreases MAX_DEPTH + 1 - |visiting|, 1, |list| - i
  {
    if i < |list| {
      VisitKeepsReports(bridges, ord, list[i], visiting, p);
      VisitAllKeepsReports(bridges, ord, list, i + 1, visiting, Visit(bridges, ord, list[i], visiting, p));
    }
  }

  lemma SettledAdd(bridges: map<string, Bridge>, a: set<string>, id: string)
    requires Settled(bridges, a) && id !in a && id in bridges && ValidName(id) && bridges[id].required <= a
    ensures Settled(bridges, a + {id})
  {
    var g := Requires(bridges);
    forall b | b in a + {id} ensures ChainsWithin(g, b, |a + {id}|) {
      if b in a { ChainsWiden(g, b, |a|, |a| + 1); }
    }
  }

  lemma CausedTwice(bridges: map<string, Bridge>, from: set<string>, a: set<string>, b: set<string>, c: set<string>)
    requires Caused(bridges, from, a, b) && Caused(bridges, from, b, c)
    ensures Caused(bridges, from, a, c)
  {
  }

  lemma CausedWider(bridges: map<string, Bridge>, x: string, from: set<string>, a: set<string>, b: set<string>)
    requires Caused(bridges, {x}, a, b) && x in from
    ensures Caused(bridges, from, a, b)
  {
    forall y | y in b && y !in a ensures exists z :: z in from && Reach(Requires(bridges), z, y) {
      var z :| z in {x} && Reach(Requires(bridges), z, y);
      assert z == x;
    }
  }

  /** What is caused by the requirements of `id` is caused by `id`. */
  lemma CausedBy(bridges: map<string, Bridge>, id: string, a: set<string>, b: set<string>)
    requires id in bridges && Caused(bridges, bridges[id].required, a, b)
    ensures Caused(bridges, {id}, a, b + {id})
  {
    var g := Requires(bridges);
    forall x | x in b + {id} && x !in a ensures exists y :: y in {id} && Reach(g, y, x) {
      if x == id {
        ReachSelf(g, id);
      } else {
        var d :| d in bridges[id].required && Reach(g, d, x);
        ReachFirst(g, id, d, x);
      }
      assert id in {id};
    }
  }

  lemma ReachFirst(g: Graph, a: string, b: string, c: string)
    requires Edge(g, a, b) && Reach(g, b, c)
    ensures Reach(g, a, c)
  {
    var p :| WalkFrom(g, p, b, c);
    var q := [a] + p;
    forall i | 0 <= i < |q| - 1 ensures Edge(g, q[i], q[i + 1]) {
      if i > 0 { assert Edge(g, p[i - 1], p[i]); }
    }
    assert WalkFrom(g, q, a, c);
  }

  lemma {:induction false} VisitCovers(bridges: map<string, Bridge>, ord: Order, id: string, visiting: set<string>, p: Progress)
    requires |visiting| <= MAX_DEPTH
    ensures var q := Visit(bridges, ord, id, visiting, p); p.active <= q.active && (q.bad || id in q.active)
    decreases MAX_DEPTH + 1 - |visiting|, 0, 0
  {
    if id !in p.active && id !in visiting && |visiting| < MAX_DEPTH && id in bridges {
      VisitAllCovers(bridges, ord, ord.names(bridges[id].required), 0, visiting + {id}, p.Report(!ValidName(id)));
    }
  }

  lemma {:induction false} VisitAllCovers(bridges: map<string, Bridge>, ord: Order, list: seq<string>, i: nat, visiting: set<string>, p: Progress)
    requires |visiting| <= MAX_DEPTH && i <= |list|
    ensures var q := VisitAll(bridges, ord, list, i, visiting, p);
      p.active <= q.active && (q.bad || forall k | i <= k < |list| :: list[k] in q.active)
    decreases MAX_DEPTH + 1 - |visiting|, 1, |list| - i
  {
    if i < |list| {
      VisitCovers(bridges, ord, list[i], visiting, p);
      var q := Visit(bridges, ord, list[i], visiting, p);
      VisitAllCovers(bridges, ord, list, i + 1, visiting, q);
      VisitAllKeepsReports(bridges, ord, list, i + 1, visiting, q);
    }
  }

  /** What a walk from `from` that reported nothing has made of the active set. */
  ghost predicate Found(bridges: map<string, Bridge>, from: set<string>, visiting: set<string>, a: set<string>, b: set<string>) {
    Settled(bridges, b) && Caused(bridges, from, a, b) && b !! visiting
  }

  lemma {:induction false} VisitFinds(bridges: map<string, Bridge>, ord: Order, id: string, visiting: set<string>, p: Progress)
    requires |visiting| <= MAX_DEPTH && Lists(ord) && Settled(bridges, p.active) && p.active !! visiting
    requires !Visit(bridges, ord, id, visiting, p).bad
    ensures Found(bridges, {id}, visiting, p.active, Visit(bridges, ord, id, visiting, p).active)
    decreases MAX_DEPTH + 1 - |visiting|, 0, 0
  {
    if id !in p.active {
      var list := ord.names(bridges[id].required);
      VisitAllKeepsReports(bridges, ord, list, 0, visiting + {id}, p.Report(!ValidName(id)));
      VisitAllFinds(bridges, ord, list, 0, visiting + {id}, p, bridges[id].required);
      VisitAllCovers(bridges, ord, list, 0, visiting + {id}, p);
      var q := VisitAll(bridges, ord, list, 0, visiting + {id}, p);
      assert id !in q.active;
      SettledAdd(bridges, q.active, id);
      CausedBy(bridges, id, p.active, q.active);
    }
  }

  lemma {:induction false} VisitAllFinds(bridges: map<string, Bridge>, ord: Order, list: seq<string>, i: nat, visiting: set<string>, p: Progress, from: set<string>)
    requires |visiting| <= MAX_DEPTH && i <= |list| && Lists(ord) && Settled(bridges, p.active) && p.active !! visiting
    requires !VisitAll(bridges, ord, list, i, visiting, p).bad && forall x | x in list :: x in from
    ensures Found(bridges, from, visiting, p.active, VisitAll(bridges, ord, list, i, visiting, p).active)
    decreases MAX_DEPTH + 1 - |visiting|, 1, |list| - i
  {
    if i < |list| {
      var q := Visit(bridges, ord, list[i], visiting, p);
      VisitAllKeepsReports(bridges, ord, list, i + 1, visiting, q);
      VisitFinds(bridges, ord, list[i], visiting, p);
      VisitAllFinds(bridges, ord, list, i + 1, visiting, q, from);
      FoundTwice(bridges, list[i], from, visiting, p.active, q.active, VisitAll(bridges, ord, list, i + 1, visiting, q).active);
    }
  }

  lemma FoundTwice(bridges: map<string, Bridge>, x: string, from: set<string>, visiting: set<string>, a: set<string>, b: set<string>, c: set<string>)
    requires x in from && Found(bridges, {x}, visiting, a, b) && Found(bridges, from, visiting, b, c)
    ensures Found(bridges, from, visiting, a, c)
  {
    CausedWider(bridges, x, from, a, b);
    CausedTwice(bridges, from, a, b, c);
  }

  /** Without reports, the active bridges are exactly those that the request reaches, all known and
      well named, and their requirements have no cycle. */
  lemma ActiveIsClosure(bridges: map<string, Bridge>, ord: Order, request: set<string>)
    requires Lists(ord) && !Activated(bridges, ord, request).bad
    ensures var active := Activated(bridges, ord, request).active;
      && Settled(bridges, active)
      && (forall b :: b in active <==> exists a :: a in request && Reach(Requires(bridges), a, b))
      && (forall b | b in active :: !Below(Requires(bridges), b, b))
  {
    var g, active := Requires(bridges), Activated(bridges, ord, request).active;
    VisitAllFinds(bridges, ord, ord.names(request), 0, {}, Progress({}, false), request);
    VisitAllCovers(bridges, ord, ord.names(request), 0, {}, Progress({}, false));
    forall b ensures b in active <==> exists a :: a in request && Reach(g, a, b) {
      if a :| a in request && Reach(g, a, b) {
        assert a in ord.names(request);
        ReachStays(g, a, b, active);
      }
    }
    forall b | b in active ensures !Below(g, b, b) { BoundedIsAcyclic(g, b, |active|); }
  }

  // ----- When the walk reports nothing -----

  /** Every ancestor under visit requires `id`, directly or not. */
  ghost predicate Ancestors(bridges: map<string, Bridge>, visiting: set<string>, id: string) {
    forall v | v in visiting :: Below(Requires(bridges), v, id)
  }

  ghost predicate AllNamed(bridges: map<string, Bridge>) {
    forall b | b in bridges :: ValidName(b)
  }

  lemma {:induction false} VisitAccepts(bridges: map<string, Bridge>, ord: Order, id: string, visiting: set<string>, p: Progress, n: nat)
    requires |visiting| + n <= MAX_DEPTH && Lists(ord) && AllNamed(bridges)
    requires ChainsWithin(Requires(bridges), id, n) && Ancestors(bridges, visiting, id)
    ensures Visit(bridges, ord, id, visiting, p).bad == p.bad
    decreases n, 0, 0
  {
    var g := Requires(bridges);
    if id !in p.active {
      if id in visiting { BoundedIsAcyclic(g, id, n); }
      var list := ord.names(bridges[id].required);
      assert forall x | x in list :: Edge(g, id, x);
      forall v, x | v in visiting + {id} && x in list ensures Below(g, v, x) {
        if v == id { ReachSelf(g, id); } else { BelowReach(g, v, id); }
        ReachEdge(g, v, id, x);
      }
      VisitAllAccepts(bridges, ord, list, 0, visiting + {id}, p, n - 1);
    }
  }

  lemma {:induction false} VisitAllAccepts(bridges: map<string, Bridge>, ord: Order, list: seq<string>, i: nat, visiting: set<string>, p: Progress, n: nat)
    requires |visiting| + n <= MAX_DEPTH && i <= |list| && Lists(ord) && AllNamed(bridges)
    requires forall x | x in list :: ChainsWithin(Requires(bridges), x, n) && Ancestors(bridges, visiting, x)
    ensures VisitAll(bridges, ord, list, i, visiting, p).bad == p.bad
    decreases n, 1, |list| - i
  {
    if i < |list| {
      VisitAccepts(bridges, ord, list[i], visiting, p, n);
      VisitAllAccepts(bridges, ord, list, i + 1, visiting, Visit(bridges, ord, list[i], visiting, p), n);
    }
  }

  /** If no chain of requirements is longer than the limit, and all names are fine, nothing is reported
      whatever is requested. */
  lemma ShortChainsActivate(bridges: map<string, Bridge>, ord: Order, request: set<string>)
    requires Lists(ord) && AllNamed(bridges)
    requires forall b | b in request :: ChainsWithin(Requires(bridges), b, MAX_DEPTH)
    ensures !Activated(bridges, ord, request).bad
  {
    VisitAllAccepts(bridges, ord, ord.names(request), 0, {}, Progress({}, false), MAX_DEPTH);
  }

  // ----- Reuse -----

  /** `can_reuse`: the target is the root, or belongs to the importing bridge or one it requires. */
  ghost predicate CanReuse(owner: string, target: string, bridges: map<string, Bridge>) {
    target == "root" || (SplitOnce(target).Some? && Reach(Requires(bridges), owner, SplitOnce(target).value.0))
  }

  /** Everything reached so far is seen or still pending. */
  ghost predicate Explored(g: Graph, seen: set<string>, pending: seq<string>) {
    forall a, b | a in seen && Edge(g, a, b) :: b in seen || b in pending
  }

  lemma ExploredFurther(g: Graph, seen: set<string>, pending: seq<string>, next: string, more: seq<string>)
    requires pending != [] && pending[|pending| - 1] == next && Explored(g, seen, pending)
    requires forall b :: Edge(g, next, b) ==> b in more
    ensures Explored(g, seen + {next}, pending[..|pending| - 1] + more)
  {
    var n := |pending| - 1;
    assert pending == pending[..n] + [next];
  }

  /** The worklist search behind `can_reuse`. */
  method ReuseAllowed(owner: string, target: string, bridges: map<string, Bridge>, ord: Order) returns (ok: bool)
    requires Lists(ord)
    ensures ok <==> CanReuse(owner, target, bridges)
  {
    if target == "root" { return true; }
    var split := SplitOnce(target);
    if split.None? { return false; }
    var scope := split.value.0;
    ghost var g := Requires(bridges);
    var pending := [owner];
    var seen: set<string> := {};
    ReachSelf(g, owner);
    while pending != []
      invariant scope !in seen && Explored(g, seen, pending) && (owner in seen || owner in pending)
      invariant forall x | x in pending || x in seen :: Reach(g, owner, x)
      decreases Universe(bridges, owner) - seen, |pending|
    {
      var n := |pending| - 1;
      var next := pending[n];
      assert pending == pending[..n] + [next];
      if next == scope { return true; }
      pending := pending[..n];
      if next !in seen {
        var more := if next in bridges then ord.names(bridges[next].required) else [];
        ExploredFurther(g, seen, pending + [next], next, more);
        assert (pending + [next])[..n] == pending;
        forall x | x in more ensures Reach(g, owner, x) { ReachEdge(g, owner, next, x); }
        UniverseReaches(bridges, owner, next);
        seen := seen + {next};
        pending := pending + more;
      }
    }
    if Reach(g, owner, scope) { ReachStays(g, owner, scope, seen); }
    ok := false;
  }

  /** Every name the search can meet. */
  function Universe(bridges: map<string, Bridge>, owner: string): set<string> {
    {owner} + set b, d | b in bridges && d in bridges[b].required :: d
  }

  lemma UniverseReaches(bridges: map<string, Bridge>, owner: string, x: string)
    requires Reach(Requires(bridges), owner, x)
    ensures x in Universe(bridges, owner)
  {
    var p :| WalkFrom(Requires(bridges), p, owner, x);
    if |p| > 1 { assert Edge(Requires(bridges), p[|p| - 2], p[|p| - 1]); }
  }

  // ----- Why the length of chains matters -----

  /** Distinct, well-named bridges that require one another in a single line. */
  ghost predicate Line(bridges: map<string, Bridge>, p: seq<string>) {
    && (forall i, j | 0 <= i < j < |p| :: p[i] != p[j])
    && (forall i | 0 <= i < |p| :: p[i] in bridges && ValidName(p[i])
          && bridges[p[i]].required == if i == |p| - 1 then {} else {p[i + 1]})
  }

  function Span(p: seq<string>, i: nat, j: nat): set<string>
    requires i <= j <= |p|
  {
    set k | i <= k < j :: p[k]
  }

  /** Visiting a line at `i`, when it is active from `j` on, activates the rest, if that is short enough. */
  lemma {:induction false} LineVisited(bridges: map<string, Bridge>, ord: Order, p: seq<string>, i: nat, j: nat, visiting: set<string>)
    requires Lists(ord) && Line(bridges, p) && i <= j <= |p| && i < |p| && |visiting| + (j - i) <= MAX_DEPTH
    requires visiting !! Span(p, i, |p|)
    ensures Visit(bridges, ord, p[i], visiting, Progress(Span(p, j, |p|), false)) == Progress(Span(p, i, |p|), false)
    decreases j - i
  {
    if i < j {
      NotBeyond(bridges, p, i, j);
      LineBelow(bridges, ord, p, i, j, visiting);
      SpanGrows(p, i);
      VisitBelow(bridges, ord, p[i], visiting, Progress(Span(p, j, |p|), false), Progress(Span(p, i + 1, |p|), false));
    } else {
      assert p[i] in Span(p, j, |p|);
    }
  }

  lemma NotBeyond(bridges: map<string, Bridge>, p: seq<string>, i: nat, j: nat)
    requires Line(bridges, p) && i < j <= |p|
    ensures p[i] !in Span(p, j, |p|) && p[i] in Span(p, i, |p|)
  {
    forall k | j <= k < |p| ensures p[k] != p[i] { assert p[i] != p[k]; }
  }

  lemma SpanGrows(p: seq<string>, i: nat)
    requires i < |p|
    ensures Span(p, i, |p|) == Span(p, i + 1, |p|) + {p[i]}
  {
  }

  /** Visiting a bridge that is neither active nor under visit, by what visiting its requirements does. */
  lemma VisitBelow(bridges: map<string, Bridge>, ord: Order, id: string, visiting: set<string>, p: Progress, q: Progress)
    requires id in bridges && ValidName(id) && id !in p.active && id !in visiting && |visiting| < MAX_DEPTH && !p.bad
    requires |visiting + {id}| <= MAX_DEPTH && VisitAll(bridges, ord, ord.names(bridges[id].required), 0, visiting + {id}, p) == q
    ensures Visit(bridges, ord, id, visiting, p) == q.(active := q.active + {id})
  {
  }

  /** The requirements of `p[i]` when it is itself under visit. */
  lemma {:induction false} LineBelow(bridges: map<string, Bridge>, ord: Order, p: seq<string>, i: nat, j: nat, visiting: set<string>)
    requires Lists(ord) && Line(bridges, p) && i < j <= |p| && |visiting| + (j - i) <= MAX_DEPTH
    requires visiting !! Span(p, i, |p|) && p[i] !in Span(p, j, |p|)
    ensures VisitAll(bridges, ord, ord.names(bridges[p[i]].required), 0, visiting + {p[i]}, Progress(Span(p, j, |p|), false))
      == Progress(Span(p, i + 1, |p|), false)
    decreases j - i, 0
  {
    var list, inner := ord.names(bridges[p[i]].required), visiting + {p[i]};
    if i == |p| - 1 {
      NoneListed(ord);
      assert Span(p, j, |p|) == {} == Span(p, i + 1, |p|);
    } else {
      OneListed(ord, p[i + 1]);
      LineApart(bridges, p, i, visiting);
      LineVisited(bridges, ord, p, i + 1, j, inner);
      assert p[i + 1] in Span(p, i + 1, |p|);
      FirstVisited(bridges, ord, list, inner, Progress(Span(p, j, |p|), false), Progress(Span(p, i + 1, |p|), false));
    }
  }

  /** When all of the list is active after the visit of its first bridge, the others change nothing. */
  lemma FirstVisited(bridges: map<string, Bridge>, ord: Order, list: seq<string>, visiting: set<string>, p: Progress, q: Progress)
    requires list != [] && |visiting| <= MAX_DEPTH && Visit(bridges, ord, list[0], visiting, p) == q
    requires forall x | x in list :: x in q.active
    ensures VisitAll(bridges, ord, list, 0, visiting, p) == q
  {
    AllActive(bridges, ord, list, 1, visiting, q);
  }

  lemma FirstListed<T>(list: seq<T>)
    ensures list == [] || list[0] in list
  {
  }

  lemma NoneListed(ord: Order)
    requires Lists(ord)
    ensures ord.names({}) == []
  {
    FirstListed(ord.names({}));
  }

  lemma OneListed(ord: Order, x: string)
    requires Lists(ord)
    ensures var list := ord.names({x}); list != [] && list[0] == x && forall y | y in list :: y == x
  {
    var list := ord.names({x});
    assert x in list;
    assert list[0] in list;
  }

  lemma LineApart(bridges: map<string, Bridge>, p: seq<string>, i: nat, visiting: set<string>)
    requires Line(bridges, p) && i < |p| && visiting !! Span(p, i, |p|)
    ensures visiting + {p[i]} !! Span(p, i + 1, |p|) && |visiting + {p[i]}| == |visiting| + 1 && p[i] !in visiting
  {
    assert p[i] in Span(p, i, |p|);
    forall k | i + 1 <= k < |p| ensures p[k] != p[i] { assert p[i] != p[k]; }
    assert Span(p, i + 1, |p|) <= Span(p, i, |p|);
  }

  lemma {:induction false} AllActive(bridges: map<string, Bridge>, ord: Order, list: seq<string>, i: nat, visiting: set<string>, p: Progress)
    requires i <= |list| && |visiting| <= MAX_DEPTH && forall x | x in list :: x in p.active
    ensures VisitAll(bridges, ord, list, i, visiting, p) == p
    decreases |list| - i
  {
    if i < |list| { AllActive(bridges, ord, list, i + 1, visiting, p); }
  }

  /** A line that is visited from its start before any of it is active is reported when it is too long. */
  lemma {:induction false} LineReported(bridges: map<string, Bridge>, ord: Order, p: seq<string>, i: nat, visiting: set<string>)
    requires Lists(ord) && Line(bridges, p) && i < |p| && |visiting| <= MAX_DEPTH < |visiting| + (|p| - i)
    requires visiting !! Span(p, i, |p|)
    ensures Visit(bridges, ord, p[i], visiting, Progress({}, false)).bad
    decreases |p| - i
  {
    assert p[i] in Span(p, i, |p|);
    if |visiting| < MAX_DEPTH {
      var list, inner := ord.names(bridges[p[i]].required), visiting + {p[i]};
      OneListed(ord, p[i + 1]);
      LineApart(bridges, p, i, visiting);
      LineReported(bridges, ord, p, i + 1, inner);
      VisitAllKeepsReports(bridges, ord, list, 1, inner, Visit(bridges, ord, list[0], inner, Progress({}, false)));
    }
  }

  /** A line of 200 bridges is accepted when its middle is requested and listed before its start, yet
      reported when a bridge with more than 128 below it is listed first. */
  lemma LongLine(bridges: map<string, Bridge>, ord: Order, p: seq<string>, first: set<string>, again: set<string>)
    requires Lists(ord) && Line(bridges, p) && |p| == 200
    requires ord.names(first) == [p[100], p[0]] && ord.names(again) != [] && ord.names(again)[0] == p[50]
    ensures Activated(bridges, ord, first) == Progress(Span(p, 0, 200), false) && Activated(bridges, ord, again).bad
  {
    var none: set<string> := {};
    assert Span(p, 200, 200) == {};
    LineVisited(bridges, ord, p, 100, 200, none);
    LineVisited(bridges, ord, p, 0, 100, none);
    var list := ord.names(first);
    var q := Visit(bridges, ord, list[0], {}, Progress({}, false));
    assert q == Progress(Span(p, 100, 200), false);
    assert VisitAll(bridges, ord, list, 2, {}, Visit(bridges, ord, list[1], {}, q)) == Progress(Span(p, 0, 200), false);
    assert VisitAll(bridges, ord, list, 1, {}, q) == Progress(Span(p, 0, 200), false);
    LineReported(bridges, ord, p, 50, none);
    var all := ord.names(again);
    VisitAllKeepsReports(bridges, ord, all, 1, {}, Visit(bridges, ord, all[0], {}, Progress({}, false)));
  }
}
