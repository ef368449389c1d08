/** What a resolved graph is, stated on the graph alone (rust/crates/zf-compiler/src/resolve.rs,
    `resolve`): its routes and data bindings are the authored ones between the sites that its aliases
    give, every rule of the composition holds of them, and nothing else is refused. */
module Legality {
  import opened Base
  import opened Types
  import opened Composition
  import opened Dependencies
  import opened Aliases
  import opened Resolution

  // ----- Sites -----

  /** The site that an endpoint, as its bridge writes it, has in the graph. */
  predicate Names(g: RuntimeGraph, bridge: string, e: Endpoint, site: Site) {
    && '/' !in e.instance && site.port == e.port
    && if e.instance == "root" then Root in g.aliases && site.instance == g.aliases[Root]
       else Local(bridge, e.instance) in g.aliases && site.instance == g.aliases[Local(bridge, e.instance)]
  }

  predicate HasBranch(g: RuntimeGraph, s: Site) { s.instance in g.instances && s.port in g.instances[s.instance].definition.branches }
  predicate HasEntry(g: RuntimeGraph, s: Site) { s.instance in g.instances && s.port in g.instances[s.instance].definition.entries }
  predicate HasData(g: RuntimeGraph, s: Site) { s.instance in g.instances && s.port in g.instances[s.instance].definition.data }
  predicate HasNeed(g: RuntimeGraph, s: Site) { s.instance in g.instances && s.port in g.instances[s.instance].definition.needs }

  // ----- Routes -----

  /** The route is the authored connection between the sites its endpoints name. */
  predicate RouteIsAuthored(g: RuntimeGraph, k: Key) {
    && k in g.routes && k.0 in g.bridges && k.1 in g.bridges[k.0].connections
    && var r, c := g.routes[k], g.bridges[k.0].connections[k.1];
       && r.bridge == k.0 && r.mode == c.mode && r.invocation == c.invocation
       && r.toolName == c.toolName && r.condition == c.condition
       && Names(g, k.0, c.from, r.from) && Names(g, k.0, c.to, r.to)
       && HasBranch(g, r.from) && HasEntry(g, r.to)
       && var target := g.instances[r.to.instance].definition.entries[r.to.port];
          r.input == target.input && r.output == target.output
  }

  /** A tool name exactly on tool routes, a condition that parses exactly on conditional ones. */
  predicate InvocationLegal(r: Route, parses: Json -> bool) {
    && (r.invocation == Tool <==> r.toolName.Some?) && (r.toolName.Some? ==> ValidName(r.toolName.value))
    && (r.invocation == Condition <==> r.condition.Some?) && (r.condition.Some? ==> parses(r.condition.value))
  }

  /** The branch permits the invocation, its arguments suit the entry, and an awaited result suits it. */
  ghost predicate ContractLegal(g: RuntimeGraph, r: Route)
    requires HasBranch(g, r.from)
  {
    var source := g.instances[r.from.instance].definition.branches[r.from.port];
    && (source.requesters == {} ==> r.invocation in source.invocations)
    && Compatible(source.contract.input, r.input, g.types)
    && (r.mode == CallAwait && source.contract.output.Some? ==>
          r.output.Some? && Compatible(r.output.value, source.contract.output.value, g.types))
  }

  ghost predicate RouteLegal(g: RuntimeGraph, parses: Json -> bool, k: Key) {
    RouteIsAuthored(g, k) && ValidName(k.1) && InvocationLegal(g.routes[k], parses) && ContractLegal(g, g.routes[k])
  }

  predicate Connects(g: RuntimeGraph, k: Key) { k.0 in g.bridges && k.1 in g.bridges[k.0].connections }

  /** The two routes do not expose one tool name on one instance. */
  predicate ToolsApart(g: RuntimeGraph, k: Key, l: Key)
    requires k in g.routes && l in g.routes
  {
    k != l && g.routes[k].from.instance == g.routes[l].from.instance ==>
      g.routes[k].toolName.None? || g.routes[k].toolName != g.routes[l].toolName
  }

  ghost predicate RoutesLegal(g: RuntimeGraph, parses: Json -> bool) {
    && (forall k {:trigger Connects(g, k)} {:trigger k in g.routes} :: k in g.routes <==> Connects(g, k))
    && (forall k | k in g.routes :: RouteLegal(g, parses, k))
    && (forall k, l {:trigger ToolsApart(g, k, l)} | k in g.routes && l in g.routes :: ToolsApart(g, k, l))
  }

  // ----- Data bindings -----

  predicate BindingIsAuthored(g: RuntimeGraph, k: Key) {
    && k in g.bindings && k.0 in g.bridges && k.1 in g.bridges[k.0].bindings
    && var d, b := g.bindings[k], g.bridges[k.0].bindings[k.1];
       && d.bridge == k.0 && d.permissions == b.permissions
       && Names(g, k.0, b.from, d.from) && Names(g, k.0, b.to, d.to)
       && HasData(g, d.from) && HasNeed(g, d.to)
       && d.dataType == g.instances[d.from.instance].definition.data[d.from.port].dataType
  }

  /** Exactly the access that is required, no more than is exposed, with types that suit its directions. */
  ghost predicate GrantLegal(g: RuntimeGraph, d: DataBinding)
    requires HasData(g, d.from) && HasNeed(g, d.to)
  {
    var source, target := g.instances[d.from.instance].definition.data[d.from.port], g.instances[d.to.instance].definition.needs[d.to.port];
    && d.permissions == target.permissions && d.permissions.read && source.permissions.read
    && (d.permissions.write ==> source.permissions.write && Compatible(target.dataType, d.dataType, g.types))
    && Compatible(d.dataType, target.dataType, g.types)
  }

  ghost predicate BindingLegal(g: RuntimeGraph, k: Key) {
    BindingIsAuthored(g, k) && ValidName(k.1) && GrantLegal(g, g.bindings[k])
  }

  predicate Binds(g: RuntimeGraph, k: Key) { k.0 in g.bridges && k.1 in g.bridges[k.0].bindings }

  predicate SuppliesApart(g: RuntimeGraph, k: Key, l: Key)
    requires k in g.bindings && l in g.bindings
  {
    k != l ==> g.bindings[k].to != g.bindings[l].to
  }

  /** A required dataset has a binding. */
  predicate NeedMet(g: RuntimeGraph, s: Site)
    requires HasNeed(g, s)
  {
    g.instances[s.instance].definition.needs[s.port].optional || exists k | k in g.bindings :: g.bindings[k].to == s
  }

  ghost predicate BindingsLegal(g: RuntimeGraph) {
    && (forall k {:trigger Binds(g, k)} {:trigger k in g.bindings} :: k in g.bindings <==> Binds(g, k))
    && (forall k | k in g.bindings :: BindingLegal(g, k))
    && (forall k, l {:trigger SuppliesApart(g, k, l)} | k in g.bindings && l in g.bindings :: SuppliesApart(g, k, l))
    && (forall s {:trigger NeedMet(g, s)} | HasNeed(g, s) :: NeedMet(g, s))
  }

  // ----- The whole graph -----

  ghost predicate FlowLegal(f: Flow, types: Registry) {
    && f.entries != map[]
    && (forall e | e in f.entries :: ValidName(e) && ContractTyped(f.entries[e], types))
    && (forall b | b in f.branches :: ValidName(b) && BranchLegal(f.branches[b], types))
    && (forall d | d in f.data :: ValidName(d) && TypeOk(f.data[d].dataType, types) && f.data[d].permissions.read && d !in f.needs)
    && (forall n | n in f.needs :: ValidName(n) && TypeOk(f.needs[n].dataType, types) && f.needs[n].permissions.read)
    && (forall i | i in f.inferences :: ValidName(i) && InferenceLegal(f, f.inferences[i]))
  }

  ghost predicate ContractTyped(c: Contract, types: Registry) {
    TypeOk(c.input, types) && (c.output == None || TypeOk(c.output.value, types))
  }

  /** A branch is either for named requesters or for some kinds of invocation. */
  ghost predicate BranchLegal(b: Branch, types: Registry) {
    && ContractTyped(b.contract, types)
    && ((b.requesters == {} && b.invocations != {}) || (b.requesters != {} && b.invocations == {}))
    && (forall r | r in b.requesters :: ValidName(r))
  }

  predicate InferenceLegal(f: Flow, i: Inference) {
    && (i.fixedModel.Some? ==> !Blank(i.fixedModel.value.0) && !Blank(i.fixedModel.value.1))
    && (i.strategy.Some? ==> !Blank(i.strategy.value))
    && (forall r | r in i.resources :: r in f.data || r in f.needs) && (forall c | c in i.capabilities :: ValidName(c))
  }

  ghost predicate Legal(g: RuntimeGraph, parses: Json -> bool) {
    && (forall n | n in g.types :: TypeOk(DataType.Named(n), g.types))
    && (forall b, a | b in g.bridges && a in g.bridges[b].imports :: ValidName(a) && a != "root")
    && (forall c | c in g.instances :: FlowLegal(g.instances[c].definition, g.types))
    && RoutesLegal(g, parses) && BindingsLegal(g) && InferencesLegal(g)
  }

  /** The inference nodes of the graph are those of its instances. */
  ghost predicate InferencesLegal(g: RuntimeGraph) {
    && (forall k {:trigger Infers(g, k)} {:trigger k in g.inferences} :: k in g.inferences <==> Infers(g, k))
    && (forall k | k in g.inferences :: Infers(g, k) && g.inferences[k] == g.instances[k.0].definition.inferences[k.1])
  }

  predicate Infers(g: RuntimeGraph, k: (Alias, string)) { k.0 in g.instances && k.1 in g.instances[k.0].definition.inferences }

  /** The graph has the request's entry, the activated bridges, and the canonical instances of their
      imports. */
  ghost predicate Represents(g: RuntimeGraph, catalog: Catalog, request: Request, ord: Order) {
    var p := Activated(catalog.bridges, ord, request.bridges);
    && !p.bad && request.flow in catalog.flows && request.entry in catalog.flows[request.flow].entries
    && g.entry == request.entry && g.types == catalog.types && g.bridges == Restrict(catalog.bridges, p.active)
    && var t := TableOf(catalog, request, ord, p.active);
       !t.bad && g.instances == t.instances && g.aliases == t.aliases
  }

  // ----- From rules to the graph -----

  lemma LocateNames(g: RuntimeGraph, bridge: string, e: Endpoint, site: Site)
    ensures Names(g, bridge, e, site) <==> Locate(bridge, e, g.aliases) == Some(site)
  {
  }

  lemma RouteFollows(g: RuntimeGraph, t: Table, parses: Json -> bool, k: Key)
    requires g.aliases == t.aliases && g.instances == t.instances && k in ConnectionKeys(g.bridges) && k in g.routes
    requires var c := g.bridges[k.0].connections[k.1];
      ConnectionOk(g.types, parses, t, k.0, c) && ValidName(k.1) && g.routes[k] == RouteOf(t, k.0, c)
    ensures RouteLegal(g, parses, k)
  {
    var c := g.bridges[k.0].connections[k.1];
    LocateNames(g, k.0, c.from, g.routes[k].from);
    LocateNames(g, k.0, c.to, g.routes[k].to);
  }

  lemma RouteReturns(g: RuntimeGraph, t: Table, parses: Json -> bool, k: Key)
    requires g.aliases == t.aliases && g.instances == t.instances && RouteLegal(g, parses, k)
    ensures k in ConnectionKeys(g.bridges) && ValidName(k.1)
    ensures var c := g.bridges[k.0].connections[k.1];
      ConnectionOk(g.types, parses, t, k.0, c) && g.routes[k] == RouteOf(t, k.0, c)
  {
    var c := g.bridges[k.0].connections[k.1];
    LocateNames(g, k.0, c.from, g.routes[k].from);
    LocateNames(g, k.0, c.to, g.routes[k].to);
  }

  lemma BindingFollows(g: RuntimeGraph, t: Table, k: Key)
    requires g.aliases == t.aliases && g.instances == t.instances && k in BindingKeys(g.bridges) && k in g.bindings
    requires var b := g.bridges[k.0].bindings[k.1];
      BindingOk(g.types, t, k.0, b) && ValidName(k.1) && g.bindings[k] == BindingOf(t, k.0, b)
    ensures BindingLegal(g, k)
  {
    var b := g.bridges[k.0].bindings[k.1];
    LocateNames(g, k.0, b.from, g.bindings[k].from);
    LocateNames(g, k.0, b.to, g.bindings[k].to);
  }

  lemma BindingReturns(g: RuntimeGraph, t: Table, k: Key)
    requires g.aliases == t.aliases && g.instances == t.instances && BindingLegal(g, k)
    ensures k in BindingKeys(g.bridges) && ValidName(k.1)
    ensures var b := g.bridges[k.0].bindings[k.1];
      BindingOk(g.types, t, k.0, b) && g.bindings[k] == BindingOf(t, k.0, b)
  {
    var b := g.bridges[k.0].bindings[k.1];
    LocateNames(g, k.0, b.from, g.bindings[k].from);
    LocateNames(g, k.0, b.to, g.bindings[k].to);
  }

  lemma BranchMeans(name: string, b: Branch, types: Registry)
    ensures BranchOk(name, b, types) <==> ValidName(name) && BranchLegal(b, types)
  {
  }

  lemma InferenceMeans(f: Flow, i: Inference)
    ensures InferenceOk(f, i) <==> InferenceLegal(f, i)
  {
  }

  lemma FlowMeans(f: Flow, types: Registry)
    ensures FlowOk(f, types) <==> FlowLegal(f, types)
  {
    assert |f.entries| > 0 <==> f.entries != map[] by { assert f.entries.Keys == {} ==> f.entries == map[]; }
    forall b | b in f.branches ensures BranchOk(b, f.branches[b], types) <==> ValidName(b) && BranchLegal(f.branches[b], types) {
      BranchMeans(b, f.branches[b], types);
    }
    forall e | e in f.entries ensures ContractOk(f.entries[e], types) <==> ContractTyped(f.entries[e], types) { }
    forall i | i in f.inferences ensures InferenceOk(f, f.inferences[i]) <==> InferenceLegal(f, f.inferences[i]) {
      InferenceMeans(f, f.inferences[i]);
    }
    forall d | d in f.data ensures DataOk(f, d, types)
      <==> ValidName(d) && TypeOk(f.data[d].dataType, types) && f.data[d].permissions.read && d !in f.needs { }
    forall n | n in f.needs ensures NeedOk(n, f.needs[n], types)
      <==> ValidName(n) && TypeOk(f.needs[n].dataType, types) && f.needs[n].permissions.read { }
  }

  lemma WiredIsLegal(g: RuntimeGraph, t: Table, parses: Json -> bool)
    requires Wired(g.types, parses, g.bridges, t) && g == GraphOf(g.types, parses, g.bridges, t, g.entry)
    ensures Legal(g, parses)
  {
    forall c | c in g.instances ensures FlowLegal(g.instances[c].definition, g.types) { FlowMeans(g.instances[c].definition, g.types); }
    InferencesAreLegal(g);
    RoutesAreLegal(g, t, parses);
    BindingsAreLegal(g, t);
  }

  lemma RoutesAreLegal(g: RuntimeGraph, t: Table, parses: Json -> bool)
    requires ConnectionsOk(g.types, parses, g.bridges, t) && ToolsDistinct(g.bridges, t)
    requires g.instances == t.instances && g.aliases == t.aliases && g.routes == RoutesOf(g.bridges, t)
    ensures RoutesLegal(g, parses)
  {
    RouteKeys(g.bridges, t);
    forall k | k in g.routes ensures RouteLegal(g, parses, k) {
      RouteAt(g.bridges, t, k);
      RouteFollows(g, t, parses, k);
    }
    forall k, l | k in g.routes && l in g.routes ensures ToolsApart(g, k, l) {
      RouteReturns(g, t, parses, k);
      RouteReturns(g, t, parses, l);
      if k != l { assert Exposed(t, g.bridges, k).None? || Exposed(t, g.bridges, k) != Exposed(t, g.bridges, l); }
    }
  }

  lemma BindingsAreLegal(g: RuntimeGraph, t: Table)
    requires BindingsOk(g.types, g.bridges, t) && NoneSuppliedTwice(g.bridges, t) && AllSupplied(g.bridges, t)
    requires g.instances == t.instances && g.aliases == t.aliases && g.bindings == BindingsOf(g.bridges, t)
    ensures BindingsLegal(g)
  {
    BoundKeys(g.bridges, t);
    forall k | k in g.bindings ensures BindingLegal(g, k) {
      BoundAt(g.bridges, t, k);
      BindingFollows(g, t, k);
    }
    forall k | k in g.bindings ensures Supplied(t, g.bridges, k) == Some(g.bindings[k].to) { BoundAt(g.bridges, t, k); }
    forall k, l | k in g.bindings && l in g.bindings ensures SuppliesApart(g, k, l) {
      assert k != l ==> Supplied(t, g.bridges, k) != Supplied(t, g.bridges, l);
    }
    forall s | HasNeed(g, s) ensures NeedMet(g, s) {
      if !g.instances[s.instance].definition.needs[s.port].optional {
        var k :| k in BindingKeys(g.bridges) && Supplied(t, g.bridges, k) == Some(Site(s.instance, s.port));
        assert k in g.bindings && g.bindings[k].to == s;
      }
    }
  }

  lemma InferencesAreLegal(g: RuntimeGraph)
    ensures InferencesLegal(g) <==> g.inferences == InferencesOf(g.instances)
  {
    var all := InferencesOf(g.instances);
    forall k ensures k in all <==> Infers(g, k) { assert (k.0, k.1) == k; }
  }

  lemma RouteKeysReturn(g: RuntimeGraph)
    requires forall k :: k in g.routes <==> Connects(g, k)
    ensures g.routes.Keys == ConnectionKeys(g.bridges)
  {
    forall k ensures k in g.routes <==> k in ConnectionKeys(g.bridges) { assert (k.0, k.1) == k; }
  }

  lemma BindingKeysReturn(g: RuntimeGraph)
    requires forall k :: k in g.bindings <==> Binds(g, k)
    ensures g.bindings.Keys == BindingKeys(g.bridges)
  {
    forall k ensures k in g.bindings <==> k in BindingKeys(g.bridges) { assert (k.0, k.1) == k; }
  }

  /** The route of `k` is the one that resolution makes. */
  predicate Routed(g: RuntimeGraph, t: Table, k: Key)
    requires k in g.routes
  {
    k in ConnectionKeys(g.bridges) && Joins(t, k.0, g.bridges[k.0].connections[k.1])
    && g.routes[k] == RouteOf(t, k.0, g.bridges[k.0].connections[k.1])
  }

  lemma SameRoutes(g: RuntimeGraph, t: Table)
    requires AllJoin(g.bridges, t) && g.routes.Keys == ConnectionKeys(g.bridges)
    requires forall k {:trigger Routed(g, t, k)} | k in g.routes :: Routed(g, t, k)
    ensures g.routes == RoutesOf(g.bridges, t)
  {
    RouteKeys(g.bridges, t);
    forall k | k in g.routes ensures k in RoutesOf(g.bridges, t) && RoutesOf(g.bridges, t)[k] == g.routes[k] {
      assert Routed(g, t, k);
      RouteAt(g.bridges, t, k);
    }
    SameMap(g.routes, RoutesOf(g.bridges, t));
  }

  lemma SameMap<K, V>(a: map<K, V>, b: map<K, V>)
    requires a.Keys == b.Keys && forall k | k in a :: a[k] == b[k]
    ensures a == b
  {
  }

  lemma LegalRoutesReturn(g: RuntimeGraph, t: Table, parses: Json -> bool)
    requires RoutesLegal(g, parses) && g.instances == t.instances && g.aliases == t.aliases
    ensures ConnectionsOk(g.types, parses, g.bridges, t) && ToolsDistinct(g.bridges, t) && g.routes == RoutesOf(g.bridges, t)
  {
    EachRouteReturns(g, t, parses);
    SameRoutes(g, t);
    ToolsReturn(g, t);
  }

  lemma EachRouteReturns(g: RuntimeGraph, t: Table, parses: Json -> bool)
    requires RoutesLegal(g, parses) && g.instances == t.instances && g.aliases == t.aliases
    ensures g.routes.Keys == ConnectionKeys(g.bridges) && ConnectionsOk(g.types, parses, g.bridges, t)
    ensures forall k {:trigger Routed(g, t, k)} | k in g.routes :: Routed(g, t, k)
  {
    RouteKeysReturn(g);
    forall k | k in ConnectionKeys(g.bridges)
      ensures ValidName(k.1) && ConnectionOk(g.types, parses, t, k.0, g.bridges[k.0].connections[k.1]) && Routed(g, t, k)
    {
      assert k in g.routes && RouteLegal(g, parses, k);
      RouteReturns(g, t, parses, k);
    }
  }

  lemma ToolsReturn(g: RuntimeGraph, t: Table)
    requires AllJoin(g.bridges, t) && g.routes.Keys == ConnectionKeys(g.bridges)
    requires forall k {:trigger Routed(g, t, k)} | k in g.routes :: Routed(g, t, k)
    requires forall k, l {:trigger ToolsApart(g, k, l)} | k in g.routes && l in g.routes :: ToolsApart(g, k, l)
    ensures ToolsDistinct(g.bridges, t)
  {
    forall k, l | k in ConnectionKeys(g.bridges) && l in ConnectionKeys(g.bridges) && k != l
      ensures Exposed(t, g.bridges, k).None? || Exposed(t, g.bridges, k) != Exposed(t, g.bridges, l)
    {
      assert Routed(g, t, k) && Routed(g, t, l) && ToolsApart(g, k, l);
      PairReturns(g, t, k, l);
    }
  }

  lemma PairReturns(g: RuntimeGraph, t: Table, k: Key, l: Key)
    requires k in g.routes && l in g.routes && k != l && Routed(g, t, k) && Routed(g, t, l) && ToolsApart(g, k, l)
    ensures Exposed(t, g.bridges, k).None? || Exposed(t, g.bridges, k) != Exposed(t, g.bridges, l)
  {
  }

  /** The binding of `k` is the one that resolution makes. */
  predicate Bound_(g: RuntimeGraph, t: Table, k: Key)
    requires k in g.bindings
  {
    k in BindingKeys(g.bridges) && Supplies(t, k.0, g.bridges[k.0].bindings[k.1])
    && g.bindings[k] == BindingOf(t, k.0, g.bridges[k.0].bindings[k.1])
  }

  lemma SameBindings(g: RuntimeGraph, t: Table)
    requires AllSupply(g.bridges, t) && g.bindings.Keys == BindingKeys(g.bridges)
    requires forall k {:trigger Bound_(g, t, k)} | k in g.bindings :: Bound_(g, t, k)
    ensures g.bindings == BindingsOf(g.bridges, t)
  {
    BoundKeys(g.bridges, t);
    forall k | k in g.bindings ensures k in BindingsOf(g.bridges, t) && BindingsOf(g.bridges, t)[k] == g.bindings[k] {
      assert Bound_(g, t, k);
      BoundAt(g.bridges, t, k);
    }
    SameMap(g.bindings, BindingsOf(g.bridges, t));
  }

  lemma LegalBindingsReturn(g: RuntimeGraph, t: Table)
    requires BindingsLegal(g) && g.instances == t.instances && g.aliases == t.aliases
    ensures BindingsOk(g.types, g.bridges, t) && NoneSuppliedTwice(g.bridges, t) && AllSupplied(g.bridges, t)
    ensures g.bindings == BindingsOf(g.bridges, t)
  {
    EachBindingReturns(g, t);
    SameBindings(g, t);
    SuppliesReturn(g, t);
  }

  lemma EachBindingReturns(g: RuntimeGraph, t: Table)
    requires BindingsLegal(g) && g.instances == t.instances && g.aliases == t.aliases
    ensures g.bindings.Keys == BindingKeys(g.bridges) && BindingsOk(g.types, g.bridges, t)
    ensures forall k {:trigger Bound_(g, t, k)} | k in g.bindings :: Bound_(g, t, k)
  {
    BindingKeysReturn(g);
    forall k | k in BindingKeys(g.bridges)
      ensures ValidName(k.1) && BindingOk(g.types, t, k.0, g.bridges[k.0].bindings[k.1]) && Bound_(g, t, k)
    {
      assert k in g.bindings && BindingLegal(g, k);
      BindingReturns(g, t, k);
    }
  }

  lemma SuppliesReturn(g: RuntimeGraph, t: Table)
    requires AllSupply(g.bridges, t) && g.bindings.Keys == BindingKeys(g.bridges) && g.instances == t.instances
    requires forall k {:trigger Bound_(g, t, k)} | k in g.bindings :: Bound_(g, t, k)
    requires forall k, l {:trigger SuppliesApart(g, k, l)} | k in g.bindings && l in g.bindings :: SuppliesApart(g, k, l)
    requires forall s {:trigger NeedMet(g, s)} | HasNeed(g, s) :: NeedMet(g, s)
    ensures NoneSuppliedTwice(g.bridges, t) && AllSupplied(g.bridges, t)
  {
    forall k | k in BindingKeys(g.bridges) ensures Supplied(t, g.bridges, k) == Some(g.bindings[k].to) { assert Bound_(g, t, k); }
    forall k, l | k in BindingKeys(g.bridges) && l in BindingKeys(g.bridges) && k != l
      ensures Supplied(t, g.bridges, k) != Supplied(t, g.bridges, l)
    {
      assert SuppliesApart(g, k, l);
    }
    forall c, n | c in t.instances && n in t.instances[c].definition.needs && !t.instances[c].definition.needs[n].optional
      ensures IsSupplied(g.bridges, t, Site(c, n))
    {
      assert NeedMet(g, Site(c, n));
      var k :| k in g.bindings && g.bindings[k].to == Site(c, n);
      assert k in BindingKeys(g.bridges) && Supplied(t, g.bridges, k) == Some(Site(c, n));
    }
  }

  lemma LegalIsWired(g: RuntimeGraph, t: Table, parses: Json -> bool)
    requires Legal(g, parses) && g.instances == t.instances && g.aliases == t.aliases
    ensures Wired(g.types, parses, g.bridges, t) && g == GraphOf(g.types, parses, g.bridges, t, g.entry)
  {
    LegalRoutesReturn(g, t, parses);
    LegalBindingsReturn(g, t);
    forall c | c in t.instances ensures FlowOk(t.instances[c].definition, g.types) { FlowMeans(t.instances[c].definition, g.types); }
    InferencesAreLegal(g);
  }

  /** Resolution yields a graph exactly if it represents the request and is legal: its routes and bindings
      are the authored ones between the sites its aliases give, and every rule holds. Nothing legal is
      refused, and no other graph is ever returned. */
  lemma ResolvesExactly(catalog: Catalog, request: Request, ord: Order, parses: Json -> bool, g: RuntimeGraph)
    ensures Resolve_(catalog, request, ord, parses) == Some(g) <==> Represents(g, catalog, request, ord) && Legal(g, parses)
  {
    var active := Activated(catalog.bridges, ord, request.bridges).active;
    if Resolve_(catalog, request, ord, parses) == Some(g) {
      WiredIsLegal(g, TableOf(catalog, request, ord, active), parses);
    }
    if Represents(g, catalog, request, ord) && Legal(g, parses) {
      LegalIsWired(g, TableOf(catalog, request, ord, active), parses);
    }
  }

  /** In a resolved graph every route is its authored connection, between the sites that the graph's own
      aliases give for its endpoints, with a tool name exactly on tool routes and a condition exactly on
      conditional ones, and no instance exposes a tool name twice; every data binding is likewise the
      authored one. */
  lemma ResolvedIsAuthored(catalog: Catalog, request: Request, ord: Order, parses: Json -> bool, g: RuntimeGraph)
    requires Resolve_(catalog, request, ord, parses) == Some(g)
    ensures forall k | Connects(g, k) :: RouteIsAuthored(g, k) && InvocationLegal(g.routes[k], parses)
    ensures forall k, l {:trigger ToolsApart(g, k, l)} | k in g.routes && l in g.routes :: ToolsApart(g, k, l)
    ensures forall k | Binds(g, k) :: BindingIsAuthored(g, k)
    ensures forall b | b in g.bridges :: b in catalog.bridges && g.bridges[b] == catalog.bridges[b]
  {
    ResolvesExactly(catalog, request, ord, parses, g);
    assert RoutesLegal(g, parses) && BindingsLegal(g);
    forall k | Connects(g, k) ensures RouteIsAuthored(g, k) && InvocationLegal(g.routes[k], parses) {
      assert RouteLegal(g, parses, k);
    }
    forall k | Binds(g, k) ensures BindingIsAuthored(g, k) { assert BindingLegal(g, k); }
  }
}
