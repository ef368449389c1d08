/** Canonical instances of import aliases (rust/crates/zf-compiler/src/resolve.rs,
    `InstanceResolver`): explicit reuse is followed to the instance it ends at. */
module Aliases {
  import opened Base
  import opened Composition
  import opened Dependencies

  datatype Instance = Instance(flow: string, definition: Flow)

  /** What resolution consults: the active imports, the flows, and the bridges. */
  datatype Wiring = Wiring(imports: map<Alias, Import>, flows: map<string, Flow>, bridges: map<string, Bridge>)

  datatype Table = Table(aliases: map<Alias, Alias>, instances: map<Alias, Instance>, bad: bool) {
    function Report(): Table { this.(bad := true) }
  }

  function Owner(a: Alias): string {
    if a.Local? then a.bridge else ""
  }

  ghost function Resolve(w: Wiring, alias: Alias, visiting: set<Alias>, t: Table): (r: (Option<Alias>, Table))
    requires |visiting| <= MAX_DEPTH
    decreases MAX_DEPTH + 1 - |visiting|, 0
  {
    if alias in t.aliases then (Some(t.aliases[alias]), t)
    else if alias in visiting || |visiting| == MAX_DEPTH then (None, t.Report())
    else
      var (r, u) := Target(w, alias, visiting + {alias}, t);
      if r.Some? then (r, u.(aliases := u.aliases[alias := r.value])) else (r, u)
  }

  /** The instance of an alias that is now under visit. */
  ghost function Target(w: Wiring, alias: Alias, visiting: set<Alias>, t: Table): (r: (Option<Alias>, Table))
    requires |visiting| <= MAX_DEPTH
    decreases MAX_DEPTH + 1 - |visiting|, 1
  {
    if alias !in w.imports || w.imports[alias].flow !in w.flows then (None, t.Report())
    else
      var import_ := w.imports[alias];
      if import_.reuse.None? then
        (Some(alias), t.(instances := t.instances[alias := Instance(import_.flow, w.flows[import_.flow])]))
      else
        var target := ParseAlias(import_.reuse.value);
        if !CanReuse(Owner(alias), import_.reuse.value, w.bridges) || target.None? then (None, t.Report())
        else
          var (r, u) := Resolve(w, target.value, visiting, t);
          if r.None? then (None, u)
          else if r.value !in u.instances || u.instances[r.value].flow != import_.flow then (None, u.Report())
          else (r, u)
  }

  ghost function ResolveAll(w: Wiring, list: seq<Alias>, i: nat, t: Table): Table
    requires i <= |list|
    decreases |list| - i
  {
    if i == |list| then t else ResolveAll(w, list, i + 1, Resolve(w, list[i], {}, t).1)
  }

  function Initial(root: Instance, bad: bool): Table {
    Table(map[Root := Root], map[Root := root], bad)
  }

  // ----- The resolver object -----

  class InstanceResolver {
    const w: Wiring
    const ord: Order
    var aliases: map<Alias, Alias>
    var instances: map<Alias, Instance>
    var visiting: set<Alias>
    var bad: bool

    constructor (w: Wiring, ord: Order, root: Instance, bad: bool)
      ensures this.w == w && this.ord == ord && visiting == {} && Table_() == Initial(root, bad)
    {
      this.w, this.ord := w, ord;
      aliases, instances, visiting, this.bad := map[Root := Root], map[Root := root], {}, bad;
    }

    ghost function Table_(): Table
      reads this
    {
      Table(aliases, instances, bad)
    }

    method ResolveOne(alias: Alias) returns (r: Option<Alias>)
      requires |visiting| <= MAX_DEPTH && Lists(ord)
      modifies this
      ensures visiting == old(visiting)
      ensures (r, Table_()) == Resolve(w, alias, old(visiting), old(Table_()))
      decreases MAX_DEPTH + 1 - |visiting|, 0
    {
      if alias in aliases { return Some(aliases[alias]); }
      if alias in visiting {
        bad := true;
        return None;
      }
      visiting := visiting + {alias};
      if |visiting| > MAX_DEPTH {
        bad := true;
        visiting := visiting - {alias};
        assert visiting == old(visiting);
        return None;
      }
      r := Follow(alias);
      visiting := visiting - {alias};
      assert visiting == old(visiting);
      if r.Some? { aliases := aliases[alias := r.value]; }
    }

    method Follow(alias: Alias) returns (r: Option<Alias>)
      requires |visiting| <= MAX_DEPTH && Lists(ord)
      modifies this
      ensures visiting == old(visiting)
      ensures (r, Table_()) == Target(w, alias, old(visiting), old(Table_()))
      decreases MAX_DEPTH + 1 - |visiting|, 1
    {
      r := None;
      if alias !in w.imports || w.imports[alias].flow !in w.flows {
        bad := true;
        return;
      }
      var import_ := w.imports[alias];
      if import_.reuse.None? {
        instances := instances[alias := Instance(import_.flow, w.flows[import_.flow])];
        return Some(alias);
      }
      var target := ParseAlias(import_.reuse.value);
      var allowed := ReuseAllowed(Owner(alias), import_.reuse.value, w.bridges, ord);
      if !allowed || target.None? {
        bad := true;
        return;
      }
      var found := ResolveOne(target.value);
      if found.None? { return; }
      if found.value !in instances || instances[found.value].flow != import_.flow {
        bad := true;
        return;
      }
      r := found;
    }

    method Run()
      requires visiting == {} && Lists(ord)
      modifies this
      ensures Table_() == ResolveAll(w, ord.aliases(w.imports.Keys), 0, old(Table_()))
    {
      var list := ord.aliases(w.imports.Keys);
      var i := 0;
      while i < |list|
        invariant i <= |list| && visiting == {}
        invariant ResolveAll(w, list, i, Table_()) == ResolveAll(w, list, 0, old(Table_()))
      {
        var _ := ResolveOne(list[i]);
        i := i + 1;
      }
    }
  }

  // ----- What the table always is -----

  /** Following reuse from `a` ends at the root or at an import of its own after at most `n` steps. */
  predicate ReuseEnds(imports: map<Alias, Import>, a: Alias, n: nat)
    decreases n
  {
    a == Root || (a in imports && (imports[a].reuse.None? ||
      var target := ParseAlias(imports[a].reuse.value);
      n > 0 && target.Some? && ReuseEnds(imports, target.value, n - 1)))
  }

  lemma {:induction false} ReuseEndsLater(imports: map<Alias, Import>, a: Alias, n: nat, m: nat)
    requires ReuseEnds(imports, a, n) && n <= m
    ensures ReuseEnds(imports, a, m)
    decreases n
  {
    if a != Root && imports[a].reuse.Some? {
      ReuseEndsLater(imports, ParseAlias(imports[a].reuse.value).value, n - 1, m - 1);
    }
  }

  /** An alias other than the root stands for itself, or for what its reuse target, which it may reuse,
      stands for. */
  ghost predicate Follows(w: Wiring, aliases: map<Alias, Alias>, a: Alias)
    requires a in aliases
  {
    a in w.imports && w.imports[a].flow in w.flows &&
    if w.imports[a].reuse.None? then aliases[a] == a
    else
      var target := ParseAlias(w.imports[a].reuse.value);
      target.Some? && target.value in aliases && aliases[a] == aliases[target.value]
      && CanReuse(Owner(a), w.imports[a].reuse.value, w.bridges)
  }

  ghost predicate AliasOk(w: Wiring, t: Table, a: Alias)
    requires a in t.aliases
  {
    && t.aliases[a] in t.instances
    && (a != Root ==> Follows(w, t.aliases, a) && t.instances[t.aliases[a]].flow == w.imports[a].flow)
    && ReuseEnds(w.imports, a, |t.aliases|)
  }

  predicate InstanceOk(w: Wiring, t: Table, c: Alias)
    requires c in t.instances
  {
    c in t.aliases && t.aliases[c] == c
    && (c != Root ==>
          c in w.imports && w.imports[c].reuse.None? && w.imports[c].flow in w.flows
          && t.instances[c] == Instance(w.imports[c].flow, w.flows[w.imports[c].flow]))
  }

  ghost predicate TableOk(w: Wiring, t: Table) {
    && Root !in w.imports && Root in t.aliases && t.aliases[Root] == Root
    && (forall a | a in t.aliases :: AliasOk(w, t, a))
    && (forall c | c in t.instances :: InstanceOk(w, t, c))
  }

  /** Entries are only added. */
  predicate Extends(t: Table, u: Table) {
    && (forall a | a in t.aliases :: a in u.aliases && u.aliases[a] == t.aliases[a])
    && (forall c | c in t.instances :: c in u.instances && u.instances[c] == t.instances[c])
    && (t.bad ==> u.bad)
  }

  lemma AddOwn(w: Wiring, t: Table, alias: Alias)
    requires TableOk(w, t) && alias !in t.aliases && alias in w.imports && w.imports[alias].reuse.None? && w.imports[alias].flow in w.flows
    ensures var u := t.(aliases := t.aliases[alias := alias],
        instances := t.instances[alias := Instance(w.imports[alias].flow, w.flows[w.imports[alias].flow])]);
      TableOk(w, u) && Extends(t, u)
  {
    var u := t.(aliases := t.aliases[alias := alias],
      instances := t.instances[alias := Instance(w.imports[alias].flow, w.flows[w.imports[alias].flow])]);
    forall a | a in u.aliases ensures AliasOk(w, u, a) {
      if a != alias {
        assert AliasOk(w, t, a);
        assert t.aliases[a] in t.instances;
        ReuseEndsLater(w.imports, a, |t.aliases|, |u.aliases|);
      }
    }
    forall c | c in u.instances ensures InstanceOk(w, u, c) { assert c != alias ==> InstanceOk(w, t, c); }
  }

  lemma AddReuse(w: Wiring, t: Table, alias: Alias, target: Alias)
    requires TableOk(w, t) && alias in w.imports && w.imports[alias].reuse.Some?
    requires ParseAlias(w.imports[alias].reuse.value) == Some(target) && target in t.aliases
    requires t.aliases[target] in t.instances && t.instances[t.aliases[target]].flow == w.imports[alias].flow
    requires w.imports[alias].flow in w.flows && CanReuse(Owner(alias), w.imports[alias].reuse.value, w.bridges)
    ensures var u := t.(aliases := t.aliases[alias := t.aliases[target]]); TableOk(w, u) && Extends(t, u)
  {
    var u := t.(aliases := t.aliases[alias := t.aliases[target]]);
    assert AliasOk(w, t, target);
    if alias in t.aliases {
      AlreadyThere(w, t, alias, target);
    } else {
      forall a | a in u.aliases ensures AliasOk(w, u, a) {
        if a == alias { NowOk(w, t, u, alias, target); } else { assert AliasOk(w, t, a); StillOk(w, t, u, alias, a); }
      }
      forall c | c in u.instances ensures InstanceOk(w, u, c) { assert InstanceOk(w, t, c); }
    }
  }

  lemma AlreadyThere(w: Wiring, t: Table, alias: Alias, target: Alias)
    requires alias in t.aliases && AliasOk(w, t, alias) && alias in w.imports && w.imports[alias].reuse.Some? && alias != Root
    requires ParseAlias(w.imports[alias].reuse.value) == Some(target) && target in t.aliases
    ensures t.(aliases := t.aliases[alias := t.aliases[target]]) == t
  {
    assert t.aliases[alias := t.aliases[target]] == t.aliases;
  }

  lemma NowOk(w: Wiring, t: Table, u: Table, alias: Alias, target: Alias)
    requires target in t.aliases && AliasOk(w, t, target) && alias !in t.aliases
    requires alias in w.imports && w.imports[alias].reuse.Some? && ParseAlias(w.imports[alias].reuse.value) == Some(target)
    requires t.aliases[target] in t.instances && t.instances[t.aliases[target]].flow == w.imports[alias].flow
    requires u.instances == t.instances && u.aliases == t.aliases[alias := t.aliases[target]]
    requires w.imports[alias].flow in w.flows && CanReuse(Owner(alias), w.imports[alias].reuse.value, w.bridges)
    ensures AliasOk(w, u, alias)
  {
    assert |u.aliases| == |t.aliases| + 1;
  }

  lemma StillOk(w: Wiring, t: Table, u: Table, alias: Alias, a: Alias)
    requires a in t.aliases && AliasOk(w, t, a) && alias !in t.aliases && alias in u.aliases
    requires u.instances == t.instances && u.aliases == t.aliases[alias := u.aliases[alias]]
    ensures AliasOk(w, u, a)
  {
    ReuseEndsLater(w.imports, a, |t.aliases|, |u.aliases|);
  }

  lemma ExtendsTwice(t: Table, u: Table, v: Table)
    requires Extends(t, u) && Extends(u, v)
    ensures Extends(t, v)
  {
  }

  /** The outcome of resolving one alias. */
  ghost predicate Kept(w: Wiring, alias: Alias, t: Table, r: Option<Alias>, u: Table) {
    && TableOk(w, u) && Extends(t, u)
    && (if r.Some? then alias in u.aliases && u.aliases[alias] == r.value else u.bad)
  }

  lemma {:induction false} ResolveKeeps(w: Wiring, alias: Alias, visiting: set<Alias>, t: Table)
    requires |visiting| <= MAX_DEPTH && TableOk(w, t)
    ensures var (r, u) := Resolve(w, alias, visiting, t); Kept(w, alias, t, r, u)
    decreases MAX_DEPTH + 1 - |visiting|, 0
  {
    if alias in t.aliases || alias in visiting || |visiting| == MAX_DEPTH {
      Reported(w, t);
    } else if alias !in w.imports || w.imports[alias].flow !in w.flows {
      Reported(w, t);
    } else if w.imports[alias].reuse.None? {
      AddOwn(w, t, alias);
    } else {
      ReuseKeeps(w, alias, visiting, t);
    }
  }

  lemma Reported(w: Wiring, t: Table)
    requires TableOk(w, t)
    ensures TableOk(w, t.Report()) && Extends(t, t.Report()) && Extends(t, t)
  {
    forall a | a in t.aliases ensures AliasOk(w, t.Report(), a) { assert AliasOk(w, t, a); }
    forall c | c in t.instances ensures InstanceOk(w, t.Report(), c) { assert InstanceOk(w, t, c); }
  }

  lemma {:induction false} ReuseKeeps(w: Wiring, alias: Alias, visiting: set<Alias>, t: Table)
    requires |visiting| < MAX_DEPTH && TableOk(w, t) && alias !in t.aliases && alias !in visiting
    requires alias in w.imports && w.imports[alias].flow in w.flows && w.imports[alias].reuse.Some?
    ensures var (r, u) := Resolve(w, alias, visiting, t); Kept(w, alias, t, r, u)
    decreases MAX_DEPTH - |visiting|, 1
  {
    var target := ParseAlias(w.imports[alias].reuse.value);
    if target.Some? && CanReuse(Owner(alias), w.imports[alias].reuse.value, w.bridges) {
      ResolveKeeps(w, target.value, visiting + {alias}, t);
      var (r, u) := Resolve(w, target.value, visiting + {alias}, t);
      ReuseAdded(w, alias, target.value, t, r, u);
      ReuseUnfolds(w, alias, visiting, t, target.value, r, u);
    } else {
      Reported(w, t);
    }
  }

  /** The outcome of an alias that reuses, by that of its target. */
  lemma ReuseUnfolds(w: Wiring, alias: Alias, visiting: set<Alias>, t: Table, target: Alias, r: Option<Alias>, u: Table)
    requires |visiting| < MAX_DEPTH && alias !in t.aliases && alias !in visiting && |visiting + {alias}| <= MAX_DEPTH
    requires alias in w.imports && w.imports[alias].flow in w.flows && w.imports[alias].reuse.Some?
    requires ParseAlias(w.imports[alias].reuse.value) == Some(target) && CanReuse(Owner(alias), w.imports[alias].reuse.value, w.bridges)
    requires (r, u) == Resolve(w, target, visiting + {alias}, t)
    ensures Resolve(w, alias, visiting, t)
      == if r.None? then (None, u)
         else if r.value !in u.instances || u.instances[r.value].flow != w.imports[alias].flow then (None, u.Report())
         else (r, u.(aliases := u.aliases[alias := r.value]))
  {
  }

  /** One more alias for what its reuse target was resolved to. */
  lemma ReuseAdded(w: Wiring, alias: Alias, target: Alias, t: Table, r: Option<Alias>, u: Table)
    requires Kept(w, target, t, r, u) && alias in w.imports && w.imports[alias].reuse.Some?
    requires ParseAlias(w.imports[alias].reuse.value) == Some(target)
    requires w.imports[alias].flow in w.flows && CanReuse(Owner(alias), w.imports[alias].reuse.value, w.bridges)
    ensures r.None? ==> Kept(w, alias, t, None, u)
    ensures Kept(w, alias, t, None, u.Report())
    ensures r.Some? && r.value in u.instances && u.instances[r.value].flow == w.imports[alias].flow
      ==> Kept(w, alias, t, r, u.(aliases := u.aliases[alias := r.value]))
  {
    Reported(w, u);
    ExtendsTwice(t, u, u.Report());
    if r.Some? && r.value in u.instances && u.instances[r.value].flow == w.imports[alias].flow {
      AddReuse(w, u, alias, target);
      ExtendsTwice(t, u, u.(aliases := u.aliases[alias := r.value]));
    }
  }

  ghost predicate AllKept(w: Wiring, list: seq<Alias>, i: nat, t: Table, u: Table) {
    TableOk(w, u) && Extends(t, u) && (u.bad || forall k | i <= k < |list| :: list[k] in u.aliases)
  }

  lemma {:induction false} ResolveAllKeeps(w: Wiring, list: seq<Alias>, i: nat, t: Table)
    requires i <= |list| && TableOk(w, t)
    ensures AllKept(w, list, i, t, ResolveAll(w, list, i, t))
    decreases |list| - i
  {
    if i < |list| {
      ResolveKeeps(w, list[i], {}, t);
      var (r, u) := Resolve(w, list[i], {}, t);
      ResolveAllKeeps(w, list, i + 1, u);
      AllKeptFirst(w, list, i, t, r, u, ResolveAll(w, list, i + 1, u));
    } else {
      Reported(w, t);
    }
  }

  lemma AllKeptFirst(w: Wiring, list: seq<Alias>, i: nat, t: Table, r: Option<Alias>, u: Table, v: Table)
    requires i < |list| && Kept(w, list[i], t, r, u) && AllKept(w, list, i + 1, u, v)
    ensures AllKept(w, list, i, t, v)
  {
    ExtendsTwice(t, u, v);
  }

  // ----- What a resolution without reports is -----

  /** Total on imports and root, idempotent, following each reuse, and agreeing with each import's flow. */
  ghost predicate Canonical(w: Wiring, t: Table) {
    && t.aliases.Keys == w.imports.Keys + {Root}
    && (Root in t.aliases && t.aliases[Root] == Root) && (forall a | a in t.aliases && a != Root :: Follows(w, t.aliases, a))
    && (forall a | a in t.aliases :: t.aliases[a] in t.aliases && t.aliases[t.aliases[a]] == t.aliases[a])
    && (forall a | a in w.imports && a in t.aliases ::
          t.aliases[a] in t.instances && t.instances[t.aliases[a]].flow == w.imports[a].flow)
  }

  /** Exactly the root and the imports that reuse nothing, each with its flow's definition. */
  ghost predicate ExactInstances(w: Wiring, t: Table, root: Instance) {
    && (forall c :: c in t.instances <==> c == Root || (c in w.imports && w.imports[c].reuse.None?))
    && Root in t.instances && t.instances[Root] == root
    && (forall c | c in t.instances && c in w.imports ::
          w.imports[c].flow in w.flows && t.instances[c] == Instance(w.imports[c].flow, w.flows[w.imports[c].flow]))
  }

  lemma TotalIsCanonical(w: Wiring, t: Table)
    requires TableOk(w, t) && forall a | a in w.imports :: a in t.aliases
    ensures Canonical(w, t)
  {
    forall a | a in t.aliases
      ensures a in w.imports.Keys + {Root} && t.aliases[a] in t.aliases && t.aliases[t.aliases[a]] == t.aliases[a]
    {
      assert AliasOk(w, t, a);
      assert InstanceOk(w, t, t.aliases[a]);
    }
    forall a | a in w.imports && a in t.aliases
      ensures t.aliases[a] in t.instances && t.instances[t.aliases[a]].flow == w.imports[a].flow
    {
      assert AliasOk(w, t, a);
    }
  }

  lemma TotalIsExact(w: Wiring, t: Table, root: Instance)
    requires TableOk(w, t) && (forall a | a in w.imports :: a in t.aliases) && Extends(Initial(root, false), t)
    ensures ExactInstances(w, t, root)
  {
    assert Root in Initial(root, false).instances;
    forall c ensures c in t.instances <==> c == Root || (c in w.imports && w.imports[c].reuse.None?) {
      if c in t.instances { assert InstanceOk(w, t, c); }
      if c in w.imports && w.imports[c].reuse.None? { assert AliasOk(w, t, c); }
    }
    forall c | c in t.instances && c in w.imports
      ensures w.imports[c].flow in w.flows && t.instances[c] == Instance(w.imports[c].flow, w.flows[w.imports[c].flow])
    {
      assert InstanceOk(w, t, c);
    }
  }

  /** The table after resolving every import in order. */
  ghost function Resolved(w: Wiring, ord: Order, root: Instance): Table {
    ResolveAll(w, ord.aliases(w.imports.Keys), 0, Initial(root, false))
  }

  lemma InitialOk(w: Wiring, root: Instance)
    requires Root !in w.imports
    ensures TableOk(w, Initial(root, false))
  {
  }

  lemma ListedAreResolved(w: Wiring, ord: Order, t: Table, u: Table)
    requires Lists(ord) && AllKept(w, ord.aliases(w.imports.Keys), 0, t, u) && !u.bad
    ensures forall a | a in w.imports :: a in u.aliases
  {
    var list := ord.aliases(w.imports.Keys);
    forall a | a in w.imports ensures a in u.aliases {
      assert a in list;
      var k :| 0 <= k < |list| && list[k] == a;
    }
  }

  lemma ResolvedIsTotal(w: Wiring, ord: Order, root: Instance)
    requires Lists(ord) && Root !in w.imports && !Resolved(w, ord, root).bad
    ensures var t := Resolved(w, ord, root);
      TableOk(w, t) && Extends(Initial(root, false), t) && forall a | a in w.imports :: a in t.aliases
  {
    InitialOk(w, root);
    ResolveAllKeeps(w, ord.aliases(w.imports.Keys), 0, Initial(root, false));
    ListedAreResolved(w, ord, Initial(root, false), Resolved(w, ord, root));
  }

  /** In every resolution without reports the alias map is total and idempotent, follows every reuse,
      which its bridge is allowed, and agrees with each import's flow, and the instances are exactly the root and the imports that reuse nothing. */
  lemma AliasesAreCanonical(w: Wiring, ord: Order, root: Instance)
    requires Lists(ord) && Root !in w.imports && !Resolved(w, ord, root).bad
    ensures Canonical(w, Resolved(w, ord, root)) && ExactInstances(w, Resolved(w, ord, root), root)
  {
    ResolvedIsTotal(w, ord, root);
    TotalIsCanonical(w, Resolved(w, ord, root));
    TotalIsExact(w, Resolved(w, ord, root), root);
  }

  /** A reuse cycle is always reported: without reports, following reuse from any import ends. */
  lemma ReuseCyclesAreReported(w: Wiring, ord: Order, root: Instance, a: Alias)
    requires Lists(ord) && Root !in w.imports && a in w.imports && !Resolved(w, ord, root).bad
    ensures exists n: nat :: ReuseEnds(w.imports, a, n)
  {
    ResolvedIsTotal(w, ord, root);
    assert AliasOk(w, Resolved(w, ord, root), a);
  }

  // ----- When nothing is reported -----

  /** The flow of what an alias names: the root's, or that of the import. */
  predicate HasFlow(w: Wiring, root: Instance, a: Alias, flow: string) {
    if a == Root then root.flow == flow else a in w.imports && w.imports[a].flow == flow
  }

  /** The flow exists, and a reuse is allowed and names an instance of the same flow. */
  ghost predicate ImportLegal(w: Wiring, root: Instance, a: Alias)
    requires a in w.imports
  {
    w.imports[a].flow in w.flows && (w.imports[a].reuse.Some? ==>
      var target := ParseAlias(w.imports[a].reuse.value);
      && target.Some? && HasFlow(w, root, target.value, w.imports[a].flow)
      && CanReuse(Owner(a), w.imports[a].reuse.value, w.bridges))
  }

  ghost predicate AllLegal(w: Wiring, root: Instance) {
    forall a | a in w.imports :: ImportLegal(w, root, a)
  }

  /** The shortest way to the end of the reuses from `a` has `n` steps. */
  predicate EndsAfter(imports: map<Alias, Import>, a: Alias, n: nat) {
    ReuseEnds(imports, a, n) && (n == 0 || !ReuseEnds(imports, a, n - 1))
  }

  lemma {:induction false} EndsSomewhere(imports: map<Alias, Import>, a: Alias, n: nat) returns (m: nat)
    requires ReuseEnds(imports, a, n)
    ensures m <= n && EndsAfter(imports, a, m)
  {
    if n == 0 || !ReuseEnds(imports, a, n - 1) { m := n; } else { m := EndsSomewhere(imports, a, n - 1); }
  }

  /** What resolving an alias gives when nothing is wrong. */
  ghost predicate Fine(w: Wiring, root: Instance, a: Alias, r: Option<Alias>, u: Table) {
    && !u.bad && r.Some? && r.value in u.instances && HasFlow(w, root, a, u.instances[r.value].flow)
    && Root in u.instances && u.instances[Root] == root
  }

  lemma LookedUp(w: Wiring, root: Instance, a: Alias, t: Table)
    requires TableOk(w, t) && a in t.aliases && Root in t.instances && t.instances[Root] == root && !t.bad
    ensures Fine(w, root, a, Some(t.aliases[a]), t)
  {
    assert AliasOk(w, t, a);
  }

  lemma {:induction false} ResolveSucceeds(w: Wiring, root: Instance, a: Alias, n: nat, visiting: set<Alias>, t: Table)
    requires TableOk(w, t) && AllLegal(w, root) && !t.bad && Root in t.instances && t.instances[Root] == root
    requires EndsAfter(w.imports, a, n) && |visiting| + n < MAX_DEPTH
    requires forall v | v in visiting :: !ReuseEnds(w.imports, v, n)
    ensures var (r, u) := Resolve(w, a, visiting, t); Fine(w, root, a, r, u)
    decreases n
  {
    if a in t.aliases {
      LookedUp(w, root, a, t);
    } else {
      assert a !in visiting && a != Root && ImportLegal(w, root, a);
      if w.imports[a].reuse.Some? {
        var target := ParseAlias(w.imports[a].reuse.value).value;
        forall v | v in visiting + {a} ensures !ReuseEnds(w.imports, v, n - 1) {
          if v != a && ReuseEnds(w.imports, v, n - 1) { ReuseEndsLater(w.imports, v, n - 1, n); }
        }
        ResolveSucceeds(w, root, target, n - 1, visiting + {a}, t);
      }
    }
  }

  lemma {:induction false} ResolveAllSucceeds(w: Wiring, root: Instance, list: seq<Alias>, i: nat, t: Table)
    requires i <= |list| && TableOk(w, t) && AllLegal(w, root) && !t.bad && Root in t.instances && t.instances[Root] == root
    requires forall a | a in list :: ReuseEnds(w.imports, a, MAX_DEPTH - 1)
    ensures !ResolveAll(w, list, i, t).bad
    decreases |list| - i
  {
    if i < |list| {
      assert list[i] in list;
      var n := EndsSomewhere(w.imports, list[i], MAX_DEPTH - 1);
      ResolveSucceeds(w, root, list[i], n, {}, t);
      ResolveKeeps(w, list[i], {}, t);
      ResolveAllSucceeds(w, root, list, i + 1, Resolve(w, list[i], {}, t).1);
    }
  }

  /** Where no chain of reuses is longer than the depth limit, something is reported exactly if some
      import has no flow, or reuses what it may not, or what does not exist, or an instance of another
      flow. */
  lemma LegalImportsResolve(w: Wiring, ord: Order, root: Instance)
    requires Lists(ord) && Root !in w.imports && forall a | a in w.imports :: ReuseEnds(w.imports, a, MAX_DEPTH - 1)
    ensures !Resolved(w, ord, root).bad <==> AllLegal(w, root)
  {
    InitialOk(w, root);
    if AllLegal(w, root) {
      ResolveAllSucceeds(w, root, ord.aliases(w.imports.Keys), 0, Initial(root, false));
    }
    if !Resolved(w, ord, root).bad { ResolvedAreLegal(w, ord, root); }
  }

  /** Without reports every import is legal, however long the chains. */
  lemma ResolvedAreLegal(w: Wiring, ord: Order, root: Instance)
    requires Lists(ord) && Root !in w.imports && !Resolved(w, ord, root).bad
    ensures AllLegal(w, root)
  {
    ResolvedIsTotal(w, ord, root);
    var t := Resolved(w, ord, root);
    assert Root in Initial(root, false).instances;
    forall a | a in w.imports ensures ImportLegal(w, root, a) {
      assert AliasOk(w, t, a);
      if w.imports[a].reuse.Some? { assert AliasOk(w, t, ParseAlias(w.imports[a].reuse.value).value); }
    }
  }
}
