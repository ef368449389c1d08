/** Resolution of a composition into a runtime graph (rust/crates/zf-compiler/src/resolve.rs,
    `resolve`), and the re-resolution of a frozen graph (rust/crates/zf-compiler/src/prepared_model.rs). */
module Resolution {
  import opened Base
  import opened Types
  import opened Reachability
  import opened Composition
  import opened Dependencies
  import opened Aliases
  import opened Depths

  /** A port of a canonical instance. */
  datatype Site = Site(instance: Alias, port: string)

  datatype Route = Route(bridge: string, from: Site, to: Site, mode: Mode, invocation: Invocation,
    toolName: Option<string>, condition: Option<Json>, input: DataType, output: Option<DataType>)

  datatype DataBinding = DataBinding(bridge: string, from: Site, to: Site, permissions: Permissions, dataType: DataType)

  /** An authored element: the bridge it belongs to and its name there. */
  type Key = (string, string)

  datatype RuntimeGraph = RuntimeGraph(
    entry: string,
    types: Registry,
    bridges: map<string, Bridge>,
    instances: map<Alias, Instance>,
    aliases: map<Alias, Alias>,
    routes: map<Key, Route>,
    bindings: map<Key, DataBinding>,
    inferences: map<(Alias, string), Inference>)

  function ImportsOf(bridges: map<string, Bridge>): map<Alias, Import> {
    map b, a | b in bridges && a in bridges[b].imports :: Local(b, a) := bridges[b].imports[a]
  }

  function ConnectionKeys(bridges: map<string, Bridge>): set<Key> {
    set b, i | b in bridges && i in bridges[b].connections :: (b, i)
  }

  function BindingKeys(bridges: map<string, Bridge>): set<Key> {
    set b, i | b in bridges && i in bridges[b].bindings :: (b, i)
  }

  /** The canonical place of an endpoint as a bridge writes it. */
  function Locate(bridge: string, e: Endpoint, aliases: map<Alias, Alias>): Option<Site> {
    if '/' in e.instance then None
    else
      var alias := if e.instance == "root" then Root else Local(bridge, e.instance);
      if alias in aliases then Some(Site(aliases[alias], e.port)) else None
  }

  // ----- Flows -----

  ghost predicate ContractOk(c: Contract, types: Registry) {
    TypeOk(c.input, types) && (c.output.Some? ==> TypeOk(c.output.value, types))
  }

  ghost predicate FlowOk(f: Flow, types: Registry) {
    && |f.entries| > 0
    && (forall e | e in f.entries :: ValidName(e) && ContractOk(f.entries[e], types))
    && (forall b | b in f.branches :: BranchOk(b, f.branches[b], types))
    && (forall d | d in f.data :: DataOk(f, d, types))
    && (forall n | n in f.needs :: NeedOk(n, f.needs[n], types))
    && (forall i | i in f.inferences :: ValidName(i) && InferenceOk(f, f.inferences[i]))
  }

  ghost predicate BranchOk(name: string, b: Branch, types: Registry) {
    ValidName(name) && ContractOk(b.contract, types) && (b.invocations == {} <==> b.requesters != {})
    && forall r | r in b.requesters :: ValidName(r)
  }

  ghost predicate DataOk(f: Flow, d: string, types: Registry)
    requires d in f.data
  {
    ValidName(d) && TypeOk(f.data[d].dataType, types) && f.data[d].permissions.Supported() && d !in f.needs
  }

  ghost predicate NeedOk(name: string, n: Requirement, types: Registry) {
    ValidName(name) && TypeOk(n.dataType, types) && n.permissions.Supported()
  }

  predicate InferenceOk(f: Flow, i: Inference) {
    && (i.fixedModel.Some? ==> !Blank(i.fixedModel.value.0) && !Blank(i.fixedModel.value.1))
    && (i.strategy.Some? ==> !Blank(i.strategy.value))
    && (forall r | r in i.resources :: r in f.data || r in f.needs)
    && (forall c | c in i.capabilities :: ValidName(c))
  }

  // ----- Connections and bindings -----

  /** Both ends of a connection exist. */
  predicate Joins(t: Table, bridge: string, c: Connection) {
    var from, to := Locate(bridge, c.from, t.aliases), Locate(bridge, c.to, t.aliases);
    && from.Some? && to.Some? && from.value.instance in t.instances && to.value.instance in t.instances
    && from.value.port in t.instances[from.value.instance].definition.branches
    && to.value.port in t.instances[to.value.instance].definition.entries
  }

  ghost predicate ConnectionOk(types: Registry, parses: Json -> bool, t: Table, bridge: string, c: Connection) {
    Joins(t, bridge, c) &&
    var from, to := Locate(bridge, c.from, t.aliases).value, Locate(bridge, c.to, t.aliases).value;
    var source := t.instances[from.instance].definition.branches[from.port];
    var target := t.instances[to.instance].definition.entries[to.port];
    && (source.requesters != {} || c.invocation in source.invocations)
    && Compatible(source.contract.input, target.input, types)
    && (c.mode == CallAwait && source.contract.output.Some? ==>
          target.output.Some? && Compatible(target.output.value, source.contract.output.value, types))
    && (if c.invocation == Tool then c.toolName.Some? && ValidName(c.toolName.value) else c.toolName.None?)
    && (if c.invocation == Condition then c.condition.Some? && parses(c.condition.value) else c.condition.None?)
  }

  function RouteOf(t: Table, bridge: string, c: Connection): Route
    requires Joins(t, bridge, c)
  {
    var from, to := Locate(bridge, c.from, t.aliases).value, Locate(bridge, c.to, t.aliases).value;
    var target := t.instances[to.instance].definition.entries[to.port];
    Route(bridge, from, to, c.mode, c.invocation, c.toolName, c.condition, target.input, target.output)
  }

  /** Both ends of a binding exist. */
  predicate Supplies(t: Table, bridge: string, b: Binding) {
    var from, to := Locate(bridge, b.from, t.aliases), Locate(bridge, b.to, t.aliases);
    && from.Some? && to.Some? && from.value.instance in t.instances && to.value.instance in t.instances
    && from.value.port in t.instances[from.value.instance].definition.data
    && to.value.port in t.instances[to.value.instance].definition.needs
  }

  function Source(t: Table, bridge: string, b: Binding): Exposure
    requires Supplies(t, bridge, b)
  {
    var from := Locate(bridge, b.from, t.aliases).value;
    t.instances[from.instance].definition.data[from.port]
  }

  function Demand(t: Table, bridge: string, b: Binding): Requirement
    requires Supplies(t, bridge, b)
  {
    var to := Locate(bridge, b.to, t.aliases).value;
    t.instances[to.instance].definition.needs[to.port]
  }

  ghost predicate BindingOk(types: Registry, t: Table, bridge: string, b: Binding) {
    b.permissions.Supported() && Supplies(t, bridge, b) &&
    var source, target := Source(t, bridge, b), Demand(t, bridge, b);
    && source.permissions.Contains(b.permissions) && b.permissions == target.permissions
    && (b.permissions.read ==> Compatible(source.dataType, target.dataType, types))
    && (b.permissions.write ==> Compatible(target.dataType, source.dataType, types))
  }

  function BindingOf(t: Table, bridge: string, b: Binding): DataBinding
    requires Supplies(t, bridge, b)
  {
    DataBinding(bridge, Locate(bridge, b.from, t.aliases).value, Locate(bridge, b.to, t.aliases).value,
      b.permissions, Source(t, bridge, b).dataType)
  }

  /** The site a binding supplies. */
  function Supplied(t: Table, bridges: map<string, Bridge>, k: Key): Option<Site>
    requires k in BindingKeys(bridges)
  {
    Locate(k.0, bridges[k.0].bindings[k.1].to, t.aliases)
  }

  /** A tool exposed by a connection: the instance and the name. */
  function Exposed(t: Table, bridges: map<string, Bridge>, k: Key): Option<(Alias, string)>
    requires k in ConnectionKeys(bridges)
  {
    var c := bridges[k.0].connections[k.1];
    var from := Locate(k.0, c.from, t.aliases);
    if c.invocation == Tool && c.toolName.Some? && from.Some? then Some((from.value.instance, c.toolName.value)) else None
  }

  // ----- The whole resolution -----

  ghost predicate DeclarationsOk(types: Registry, bridges: map<string, Bridge>, t: Table) {
    && (forall n | n in types :: TypeOk(DataType.Named(n), types))
    && (forall b, a | b in bridges && a in bridges[b].imports :: ValidName(a) && a != "root")
    && (forall c | c in t.instances :: FlowOk(t.instances[c].definition, types))
  }

  ghost predicate ConnectionsOk(types: Registry, parses: Json -> bool, bridges: map<string, Bridge>, t: Table) {
    forall k | k in ConnectionKeys(bridges) ::
      ValidName(k.1) && ConnectionOk(types, parses, t, k.0, bridges[k.0].connections[k.1])
  }

  /** No instance exposes one tool name twice. */
  predicate ToolsDistinct(bridges: map<string, Bridge>, t: Table) {
    forall k, l | k in ConnectionKeys(bridges) && l in ConnectionKeys(bridges) && k != l ::
      Exposed(t, bridges, k).None? || Exposed(t, bridges, k) != Exposed(t, bridges, l)
  }

  ghost predicate BindingsOk(types: Registry, bridges: map<string, Bridge>, t: Table) {
    forall k | k in BindingKeys(bridges) :: ValidName(k.1) && BindingOk(types, t, k.0, bridges[k.0].bindings[k.1])
  }

  predicate NoneSuppliedTwice(bridges: map<string, Bridge>, t: Table) {
    forall k, l | k in BindingKeys(bridges) && l in BindingKeys(bridges) && k != l ::
      Supplied(t, bridges, k) != Supplied(t, bridges, l)
  }

  /** Some binding supplies the site. */
  predicate IsSupplied(bridges: map<string, Bridge>, t: Table, site: Site) {
    exists k | k in BindingKeys(bridges) :: Supplied(t, bridges, k) == Some(site)
  }

  predicate AllSupplied(bridges: map<string, Bridge>, t: Table) {
    forall c, n | c in t.instances && n in t.instances[c].definition.needs ::
      t.instances[c].definition.needs[n].optional || IsSupplied(bridges, t, Site(c, n))
  }

  /** What is checked once aliases are resolved: only types, active bridges and the table matter. */
  ghost predicate Wired(types: Registry, parses: Json -> bool, bridges: map<string, Bridge>, t: Table) {
    && DeclarationsOk(types, bridges, t) && ConnectionsOk(types, parses, bridges, t) && ToolsDistinct(bridges, t)
    && BindingsOk(types, bridges, t) && NoneSuppliedTwice(bridges, t) && AllSupplied(bridges, t)
  }

  function Restrict(bridges: map<string, Bridge>, active: set<string>): map<string, Bridge> {
    map b | b in bridges && b in active :: bridges[b]
  }

  ghost predicate AllJoin(bridges: map<string, Bridge>, t: Table) {
    forall k | k in ConnectionKeys(bridges) :: Joins(t, k.0, bridges[k.0].connections[k.1])
  }

  ghost predicate AllSupply(bridges: map<string, Bridge>, t: Table) {
    forall k | k in BindingKeys(bridges) :: Supplies(t, k.0, bridges[k.0].bindings[k.1])
  }

  ghost function RoutesOf(bridges: map<string, Bridge>, t: Table): map<Key, Route>
    requires AllJoin(bridges, t)
  {
    map k | k in ConnectionKeys(bridges) :: RouteOf(t, k.0, bridges[k.0].connections[k.1])
  }

  ghost function BindingsOf(bridges: map<string, Bridge>, t: Table): map<Key, DataBinding>
    requires AllSupply(bridges, t)
  {
    map k | k in BindingKeys(bridges) :: BindingOf(t, k.0, bridges[k.0].bindings[k.1])
  }

  lemma RouteKeys(bridges: map<string, Bridge>, t: Table)
    requires AllJoin(bridges, t)
    ensures RoutesOf(bridges, t).Keys == ConnectionKeys(bridges)
  {
  }

  lemma RouteAt(bridges: map<string, Bridge>, t: Table, k: Key)
    requires AllJoin(bridges, t) && k in ConnectionKeys(bridges)
    ensures k in RoutesOf(bridges, t) && RoutesOf(bridges, t)[k] == RouteOf(t, k.0, bridges[k.0].connections[k.1])
  {
  }

  lemma BoundKeys(bridges: map<string, Bridge>, t: Table)
    requires AllSupply(bridges, t)
    ensures BindingsOf(bridges, t).Keys == BindingKeys(bridges)
  {
  }

  lemma BoundAt(bridges: map<string, Bridge>, t: Table, k: Key)
    requires AllSupply(bridges, t) && k in BindingKeys(bridges)
    ensures k in BindingsOf(bridges, t) && BindingsOf(bridges, t)[k] == BindingOf(t, k.0, bridges[k.0].bindings[k.1])
  {
  }

  function InferencesOf(instances: map<Alias, Instance>): map<(Alias, string), Inference> {
    map c, n | c in instances && n in instances[c].definition.inferences :: (c, n) := instances[c].definition.inferences[n]
  }

  ghost function GraphOf(types: Registry, parses: Json -> bool, bridges: map<string, Bridge>, t: Table, entry: string): RuntimeGraph
    requires Wired(types, parses, bridges, t)
  {
    RuntimeGraph(entry, types, bridges, t.instances, t.aliases,
      RoutesOf(bridges, t), BindingsOf(bridges, t), InferencesOf(t.instances))
  }

  /** The table of a catalogue for the active bridges. */
  ghost function TableOf(catalog: Catalog, request: Request, ord: Order, active: set<string>): Table
    requires request.flow in catalog.flows
  {
    Aliases.Resolved(Wiring(ImportsOf(Restrict(catalog.bridges, active)), catalog.flows, catalog.bridges), ord,
      Instance(request.flow, catalog.flows[request.flow]))
  }

  ghost predicate Resolves_(catalog: Catalog, request: Request, ord: Order, parses: Json -> bool) {
    var p := Activated(catalog.bridges, ord, request.bridges);
    && !p.bad && request.flow in catalog.flows && request.entry in catalog.flows[request.flow].entries
    && var t := TableOf(catalog, request, ord, p.active);
       !t.bad && Wired(catalog.types, parses, Restrict(catalog.bridges, p.active), t)
  }

  ghost function Resolve_(catalog: Catalog, request: Request, ord: Order, parses: Json -> bool): Option<RuntimeGraph> {
    if !Resolves_(catalog, request, ord, parses) then None
    else
      var active := Activated(catalog.bridges, ord, request.bridges).active;
      Some(GraphOf(catalog.types, parses, Restrict(catalog.bridges, active), TableOf(catalog, request, ord, active), request.entry))
  }

  // ----- Data bindings -----

  /** A read-write binding joins two identical types. */
  lemma ReadWriteJoinsIdenticalTypes(types: Registry, t: Table, bridge: string, b: Binding)
    requires BindingOk(types, t, bridge, b) && b.permissions.write
    ensures Source(t, bridge, b).dataType == Demand(t, bridge, b).dataType
  {
    AcceptsAntisymmetric(Source(t, bridge, b).dataType, Demand(t, bridge, b).dataType);
  }

  /** The bindings of a wired graph supply a site at most once, and with its own type if writable. */
  lemma SuppliedOnce(types: Registry, bridges: map<string, Bridge>, t: Table, site: Site)
    requires BindingsOk(types, bridges, t) && NoneSuppliedTwice(bridges, t)
    requires site.instance in t.instances && site.port in t.instances[site.instance].definition.needs
    ensures var bs := BindingsOf(bridges, t);
      && (IsSupplied(bridges, t, site) <==> exists k | k in bs :: bs[k].to == site)
      && (forall k, l | k in bs && l in bs && bs[k].to == site && bs[l].to == site :: k == l)
      && (forall k | k in bs && bs[k].to == site && bs[k].permissions.write ::
            bs[k].dataType == t.instances[site.instance].definition.needs[site.port].dataType)
  {
    var bs := BindingsOf(bridges, t);
    assert forall k | k in bs :: Supplied(t, bridges, k) == Some(bs[k].to);
    if IsSupplied(bridges, t, site) {
      var k :| k in BindingKeys(bridges) && Supplied(t, bridges, k) == Some(site);
      assert k in bs && bs[k].to == site;
    }
    forall k | k in bs && bs[k].to == site && bs[k].permissions.write
      ensures bs[k].dataType == t.instances[site.instance].definition.needs[site.port].dataType
    {
      ReadWriteJoinsIdenticalTypes(types, t, k.0, bridges[k.0].bindings[k.1]);
    }
  }

  /** In an accepted graph every required dataset of every instance has exactly one binding, unless it
      is optional, and then at most one; and a writable binding joins identical types. */
  lemma RequiredDataBoundOnce(catalog: Catalog, request: Request, ord: Order, parses: Json -> bool, g: RuntimeGraph, site: Site)
    requires Resolve_(catalog, request, ord, parses) == Some(g)
    requires site.instance in g.instances && site.port in g.instances[site.instance].definition.needs
    ensures var need := g.instances[site.instance].definition.needs[site.port];
      && (need.optional || exists k | k in g.bindings :: g.bindings[k].to == site)
      && (forall k, l | k in g.bindings && l in g.bindings && g.bindings[k].to == site && g.bindings[l].to == site :: k == l)
      && (forall k | k in g.bindings && g.bindings[k].to == site && g.bindings[k].permissions.write ::
            g.bindings[k].dataType == need.dataType)
  {
    var active := Activated(catalog.bridges, ord, request.bridges).active;
    SuppliedOnce(catalog.types, Restrict(catalog.bridges, active), TableOf(catalog, request, ord, active), site);
  }

  // ----- What crosses a bridge -----

  /** Along a route every request value is an input of the entry it reaches, and every awaited result
      is one that the requesting branch expects. */
  ghost predicate RouteCarries(g: RuntimeGraph, r: Route, v: Json) {
    && r.from.instance in g.instances && r.from.port in g.instances[r.from.instance].definition.branches
    && r.to.instance in g.instances && r.to.port in g.instances[r.to.instance].definition.entries
    && var source, target := g.instances[r.from.instance].definition.branches[r.from.port].contract,
         g.instances[r.to.instance].definition.entries[r.to.port];
       && r.input == target.input && r.output == target.output
       && (Inhabits(v, source.input, g.types) ==> Inhabits(v, r.input, g.types))
       && (r.mode == CallAwait && source.output.Some? ==>
             r.output.Some? && (Inhabits(v, r.output.value, g.types) ==> Inhabits(v, source.output.value, g.types)))
  }

  lemma ConnectionCarries(types: Registry, parses: Json -> bool, t: Table, bridge: string, c: Connection, g: RuntimeGraph, v: Json)
    requires ConnectionOk(types, parses, t, bridge, c) && g.types == types && g.instances == t.instances
    ensures RouteCarries(g, RouteOf(t, bridge, c), v)
  {
    var from, to := Locate(bridge, c.from, t.aliases).value, Locate(bridge, c.to, t.aliases).value;
    var source := t.instances[from.instance].definition.branches[from.port].contract;
    var target := t.instances[to.instance].definition.entries[to.port];
    CompatibleIsSubtyping(source.input, target.input, target.input, types);
    if source.output.Some? && target.output.Some? {
      CompatibleIsSubtyping(target.output.value, source.output.value, source.output.value, types);
    }
  }

  /** Every route of a resolved graph joins an exposed branch to an exposed entry and carries values
      of the right types both ways. */
  lemma RoutesCarryValues(catalog: Catalog, request: Request, ord: Order, parses: Json -> bool, g: RuntimeGraph, k: Key, v: Json)
    requires Resolve_(catalog, request, ord, parses) == Some(g) && k in g.routes
    ensures RouteCarries(g, g.routes[k], v)
  {
    var active := Activated(catalog.bridges, ord, request.bridges).active;
    var bridges, t := Restrict(catalog.bridges, active), TableOf(catalog, request, ord, active);
    RouteKeys(bridges, t);
    RouteAt(bridges, t, k);
    ConnectionCarries(catalog.types, parses, t, k.0, bridges[k.0].connections[k.1], g, v);
  }

  /** A dataset read through a binding has the required type, and what is written back has the exposed
      type; no more is granted than is exposed. */
  ghost predicate BindingCarries(g: RuntimeGraph, b: DataBinding, v: Json) {
    && b.from.instance in g.instances && b.from.port in g.instances[b.from.instance].definition.data
    && b.to.instance in g.instances && b.to.port in g.instances[b.to.instance].definition.needs
    && var source, target := g.instances[b.from.instance].definition.data[b.from.port],
         g.instances[b.to.instance].definition.needs[b.to.port];
       && b.dataType == source.dataType && b.permissions == target.permissions
       && source.permissions.Contains(b.permissions) && b.permissions.read
       && (Inhabits(v, source.dataType, g.types) ==> Inhabits(v, target.dataType, g.types))
       && (b.permissions.write ==> (Inhabits(v, target.dataType, g.types) ==> Inhabits(v, source.dataType, g.types)))
  }

  lemma BoundCarries(types: Registry, t: Table, bridge: string, b: Binding, g: RuntimeGraph, v: Json)
    requires BindingOk(types, t, bridge, b) && g.types == types && g.instances == t.instances
    ensures BindingCarries(g, BindingOf(t, bridge, b), v)
  {
    var source, target := Source(t, bridge, b).dataType, Demand(t, bridge, b).dataType;
    CompatibleIsSubtyping(source, target, target, types);
    CompatibleIsSubtyping(target, source, source, types);
  }

  /** Every data binding of a resolved graph carries values of the right types and grants no more than
      is exposed. */
  lemma BindingsCarryValues(catalog: Catalog, request: Request, ord: Order, parses: Json -> bool, g: RuntimeGraph, k: Key, v: Json)
    requires Resolve_(catalog, request, ord, parses) == Some(g) && k in g.bindings
    ensures BindingCarries(g, g.bindings[k], v)
  {
    var active := Activated(catalog.bridges, ord, request.bridges).active;
    var bridges, t := Restrict(catalog.bridges, active), TableOf(catalog, request, ord, active);
    BoundKeys(bridges, t);
    BoundAt(bridges, t, k);
    BoundCarries(catalog.types, t, k.0, bridges[k.0].bindings[k.1], g, v);
  }

  // ----- Re-resolution -----

  /** Instances of the same flow share its definition. */
  ghost predicate Consistent(instances: map<Alias, Instance>) {
    forall c, d | c in instances && d in instances && instances[c].flow == instances[d].flow ::
      instances[c].definition == instances[d].definition
  }

  /** The flows of some instances. */
  ghost function FlowsIn(instances: map<Alias, Instance>): map<string, Flow>
    requires Consistent(instances)
  {
    map c | c in instances :: instances[c].flow := instances[c].definition
  }

  /** A catalogue cut down to what the graph itself holds. */
  ghost function Cut(g: RuntimeGraph): Catalog
    requires Consistent(g.instances)
  {
    Catalog(g.types, FlowsIn(g.instances), g.bridges)
  }

  ghost function Again(g: RuntimeGraph): Request
    requires Root in g.instances
  {
    Request(g.instances[Root].flow, g.entry, g.bridges.Keys)
  }

  /** Two wirings that answer every question about the imports alike. */
  ghost predicate SameAnswers(v: Wiring, w: Wiring) {
    && v.imports == w.imports
    && (forall a | a in w.imports ::
          (w.imports[a].flow in v.flows <==> w.imports[a].flow in w.flows)
          && (w.imports[a].flow in w.flows ==> v.flows[w.imports[a].flow] == w.flows[w.imports[a].flow])
          && (w.imports[a].reuse.Some? ==>
                (CanReuse(Owner(a), w.imports[a].reuse.value, v.bridges) <==> CanReuse(Owner(a), w.imports[a].reuse.value, w.bridges))))
  }

  lemma {:induction false} SameResolve(v: Wiring, w: Wiring, alias: Alias, visiting: set<Alias>, t: Table)
    requires SameAnswers(v, w) && |visiting| <= MAX_DEPTH
    ensures Aliases.Resolve(v, alias, visiting, t) == Aliases.Resolve(w, alias, visiting, t)
    decreases MAX_DEPTH + 1 - |visiting|, 0
  {
    if alias !in t.aliases && alias !in visiting && |visiting| < MAX_DEPTH { SameTarget(v, w, alias, visiting + {alias}, t); }
  }

  lemma {:induction false} SameTarget(v: Wiring, w: Wiring, alias: Alias, visiting: set<Alias>, t: Table)
    requires SameAnswers(v, w) && |visiting| <= MAX_DEPTH
    ensures Aliases.Target(v, alias, visiting, t) == Aliases.Target(w, alias, visiting, t)
    decreases MAX_DEPTH + 1 - |visiting|, 1
  {
    if alias in w.imports && w.imports[alias].reuse.Some? {
      var target := ParseAlias(w.imports[alias].reuse.value);
      if target.Some? { SameResolve(v, w, target.value, visiting, t); }
    }
  }

  lemma {:induction false} SameResolveAll(v: Wiring, w: Wiring, list: seq<Alias>, i: nat, t: Table)
    requires SameAnswers(v, w) && i <= |list|
    ensures ResolveAll(v, list, i, t) == ResolveAll(w, list, i, t)
    decreases |list| - i
  {
    if i < |list| {
      SameResolve(v, w, list[i], {}, t);
      SameResolveAll(v, w, list, i + 1, Aliases.Resolve(w, list[i], {}, t).1);
    }
  }

  lemma RestrictCloses(bridges: map<string, Bridge>, active: set<string>)
    requires Settled(bridges, active)
    ensures var cut, g, h := Restrict(bridges, active), Requires(bridges), Requires(Restrict(bridges, active));
      && cut.Keys == active && AllNamed(cut)
      && forall x | x in active :: x in g && x in h && g[x] == h[x] && g[x] <= active
  {
  }

  /** Activating all of an activated set again gives that set, unless it is reported as too deep. */
  lemma ActivatedAgain(bridges: map<string, Bridge>, ord: Order, active: set<string>)
    requires Lists(ord) && Settled(bridges, active) && !Activated(Restrict(bridges, active), ord, active).bad
    ensures Activated(Restrict(bridges, active), ord, active) == Progress(active, false)
  {
    var cut := Restrict(bridges, active);
    RestrictCloses(bridges, active);
    ActiveIsClosure(cut, ord, active);
    ClosureOfClosed(Requires(cut), active, Activated(cut, ord, active).active);
  }

  /** What is reached from a closed set is that set. */
  lemma ClosureOfClosed(h: Graph, active: set<string>, again: set<string>)
    requires forall x | x in active :: x in h && h[x] <= active
    requires forall b :: b in again <==> exists a :: a in active && Reach(h, a, b)
    ensures again == active
  {
    forall b ensures b in again <==> b in active {
      if b in active { ReachSelf(h, b); }
      if b in again {
        var a :| a in active && Reach(h, a, b);
        ReachStays(h, a, b, active);
      }
    }
  }

  /** The cut catalogue answers every question about the active imports as the full one does. */
  lemma CutAnswers(v: Wiring, w: Wiring, active: set<string>)
    requires Settled(w.bridges, active) && v.bridges == Restrict(w.bridges, active)
    requires v.imports == w.imports && forall a | a in w.imports :: a.Local? && a.bridge in active
    requires forall a | a in w.imports ::
      w.imports[a].flow in v.flows && w.imports[a].flow in w.flows && v.flows[w.imports[a].flow] == w.flows[w.imports[a].flow]
    ensures SameAnswers(v, w)
  {
    RestrictCloses(w.bridges, active);
    forall a | a in w.imports && w.imports[a].reuse.Some?
      ensures CanReuse(Owner(a), w.imports[a].reuse.value, v.bridges) <==> CanReuse(Owner(a), w.imports[a].reuse.value, w.bridges)
    {
      var split := SplitOnce(w.imports[a].reuse.value);
      if split.Some? { ReachAgrees(Requires(v.bridges), Requires(w.bridges), a.bridge, split.value.0, active); }
    }
  }

  /** The instances of a resolution carry their flows' definitions, and cover every import's flow. */
  lemma InstancesAgree(w: Wiring, ord: Order, root: Instance)
    requires Lists(ord) && Root !in w.imports && !Aliases.Resolved(w, ord, root).bad
    requires root.flow in w.flows && root.definition == w.flows[root.flow]
    ensures var t := Aliases.Resolved(w, ord, root);
      && Root in t.instances && t.instances[Root] == root
      && (forall c | c in t.instances :: t.instances[c].flow in w.flows && t.instances[c].definition == w.flows[t.instances[c].flow])
      && (forall a | a in w.imports :: exists c :: c in t.instances && t.instances[c].flow == w.imports[a].flow)
  {
    AliasesAreCanonical(w, ord, root);
    var t := Aliases.Resolved(w, ord, root);
    forall a | a in w.imports ensures exists c :: c in t.instances && t.instances[c].flow == w.imports[a].flow {
      assert t.aliases[a] in t.instances;
    }
  }

  /** The flows that the instances of a table belong to. */
  ghost predicate FlowsOf(t: Table, flows: map<string, Flow>) {
    && (forall c | c in t.instances :: t.instances[c].flow in flows && flows[t.instances[c].flow] == t.instances[c].definition)
    && (forall f | f in flows :: exists c :: c in t.instances && t.instances[c].flow == f)
  }

  /** Resolving with only the instances' own flows and the active bridges gives the same table. */
  lemma CutTable(w: Wiring, ord: Order, root: Instance, flows: map<string, Flow>, active: set<string>)
    requires Lists(ord) && Settled(w.bridges, active) && w.imports == ImportsOf(Restrict(w.bridges, active))
    requires !Aliases.Resolved(w, ord, root).bad && root.flow in w.flows && root.definition == w.flows[root.flow]
    requires FlowsOf(Aliases.Resolved(w, ord, root), flows)
    ensures Aliases.Resolved(Wiring(w.imports, flows, Restrict(w.bridges, active)), ord, root) == Aliases.Resolved(w, ord, root)
  {
    InstancesAgree(w, ord, root);
    var t := Aliases.Resolved(w, ord, root);
    var v := Wiring(w.imports, flows, Restrict(w.bridges, active));
    forall a | a in w.imports
      ensures w.imports[a].flow in v.flows && w.imports[a].flow in w.flows && v.flows[w.imports[a].flow] == w.flows[w.imports[a].flow]
    {
      var c :| c in t.instances && t.instances[c].flow == w.imports[a].flow;
    }
    CutAnswers(v, w, active);
    SameResolveAll(v, w, ord.aliases(w.imports.Keys), 0, Initial(root, false));
  }

  lemma ConsistentTable(t: Table, flows: map<string, Flow>)
    requires forall c | c in t.instances :: t.instances[c].flow in flows && t.instances[c].definition == flows[t.instances[c].flow]
    ensures Consistent(t.instances) && FlowsOf(t, FlowsIn(t.instances))
  {
    var cut := FlowsIn(t.instances);
    forall f | f in cut ensures exists c :: c in t.instances && t.instances[c].flow == f {
      var c :| c in t.instances && t.instances[c].flow == f;
    }
  }

  /** A resolution from its parts. */
  lemma Assembles(catalog: Catalog, request: Request, ord: Order, parses: Json -> bool, active: set<string>, t: Table)
    requires Activated(catalog.bridges, ord, request.bridges) == Progress(active, false)
    requires request.flow in catalog.flows && request.entry in catalog.flows[request.flow].entries
    requires TableOf(catalog, request, ord, active) == t && !t.bad
    requires Wired(catalog.types, parses, Restrict(catalog.bridges, active), t)
    ensures Resolve_(catalog, request, ord, parses)
      == Some(GraphOf(catalog.types, parses, Restrict(catalog.bridges, active), t, request.entry))
  {
  }

  /** What a graph was resolved from. */
  ghost predicate Origin(catalog: Catalog, request: Request, ord: Order, parses: Json -> bool, g: RuntimeGraph, active: set<string>, t: Table) {
    && Activated(catalog.bridges, ord, request.bridges) == Progress(active, false)
    && request.flow in catalog.flows && request.entry in catalog.flows[request.flow].entries
    && TableOf(catalog, request, ord, active) == t && !t.bad
    && Wired(catalog.types, parses, Restrict(catalog.bridges, active), t)
    && g == GraphOf(catalog.types, parses, Restrict(catalog.bridges, active), t, request.entry)
  }

  lemma RestrictTwice(bridges: map<string, Bridge>, active: set<string>)
    ensures Restrict(Restrict(bridges, active), active) == Restrict(bridges, active)
  {
  }

  /** A catalogue cut down to the instances' flows resolves the same table. */
  lemma TableAgain(catalog: Catalog, request: Request, ord: Order, active: set<string>, flows: map<string, Flow>, cut: Catalog, again: Request)
    requires Lists(ord) && Settled(catalog.bridges, active) && request.flow in catalog.flows
    requires var t := TableOf(catalog, request, ord, active); !t.bad && FlowsOf(t, flows)
    requires request.flow in flows && flows[request.flow] == catalog.flows[request.flow]
    requires cut.flows == flows && cut.bridges == Restrict(catalog.bridges, active) && again.flow == request.flow
    ensures TableOf(cut, again, ord, active) == TableOf(catalog, request, ord, active)
  {
    RestrictTwice(catalog.bridges, active);
    CutTable(Wiring(ImportsOf(cut.bridges), catalog.flows, catalog.bridges), ord,
      Instance(request.flow, catalog.flows[request.flow]), flows, active);
  }

  lemma RootFlow(t: Table, root: Instance)
    requires Root in t.instances && t.instances[Root] == root && Consistent(t.instances) && FlowsOf(t, FlowsIn(t.instances))
    ensures root.flow in FlowsIn(t.instances) && FlowsIn(t.instances)[root.flow] == root.definition
  {
  }

  /** The cut catalogue activates the same bridges and resolves the same table. */
  lemma CutParts(catalog: Catalog, request: Request, ord: Order, active: set<string>, t: Table, cut: Catalog, again: Request)
    requires Lists(ord) && Settled(catalog.bridges, active) && request.flow in catalog.flows
    requires !Activated(Restrict(catalog.bridges, active), ord, active).bad
    requires TableOf(catalog, request, ord, active) == t && !t.bad
    requires Consistent(t.instances) && FlowsOf(t, FlowsIn(t.instances))
    requires Root in t.instances && t.instances[Root] == Instance(request.flow, catalog.flows[request.flow])
    requires cut == Catalog(catalog.types, FlowsIn(t.instances), Restrict(catalog.bridges, active))
    requires again == Request(request.flow, request.entry, active)
    ensures Activated(cut.bridges, ord, again.bridges) == Progress(active, false) && Restrict(cut.bridges, active) == cut.bridges
    ensures again.flow in cut.flows && cut.flows[again.flow] == catalog.flows[request.flow]
    ensures TableOf(cut, again, ord, active) == t
  {
    RootFlow(t, Instance(request.flow, catalog.flows[request.flow]));
    RestrictTwice(catalog.bridges, active);
    ActivatedAgain(catalog.bridges, ord, active);
    TableAgain(catalog, request, ord, active, FlowsIn(t.instances), cut, again);
  }

  /** The fixed point for a graph whose origin is known. */
  lemma FixedPointFrom(catalog: Catalog, request: Request, ord: Order, parses: Json -> bool, g: RuntimeGraph, active: set<string>, t: Table)
    requires Lists(ord) && Origin(catalog, request, ord, parses, g, active, t) && Settled(catalog.bridges, active)
    requires !Activated(g.bridges, ord, active).bad
    requires Root in g.instances && g.instances[Root] == Instance(request.flow, catalog.flows[request.flow])
    requires Consistent(g.instances) && FlowsOf(t, FlowsIn(g.instances)) && g.bridges.Keys == active
    ensures Resolve_(Cut(g), Again(g), ord, parses) == Some(g)
  {
    CutParts(catalog, request, ord, active, t, Cut(g), Again(g));
    Assembles(Cut(g), Again(g), ord, parses, active, t);
  }

  /** Re-resolution gives the same graph unless the walk over its bridges reports something. */
  lemma SameUnlessReported(catalog: Catalog, request: Request, ord: Order, parses: Json -> bool, g: RuntimeGraph)
    requires Lists(ord) && Resolve_(catalog, request, ord, parses) == Some(g)
    ensures Root in g.instances && Consistent(g.instances)
    ensures Resolve_(Cut(g), Again(g), ord, parses) == if Activated(g.bridges, ord, g.bridges.Keys).bad then None else Some(g)
  {
    var active := Activated(catalog.bridges, ord, request.bridges).active;
    var t := TableOf(catalog, request, ord, active);
    ActiveIsClosure(catalog.bridges, ord, request.bridges);
    RestrictCloses(catalog.bridges, active);
    InstancesAgree(Wiring(ImportsOf(g.bridges), catalog.flows, catalog.bridges), ord, Instance(request.flow, catalog.flows[request.flow]));
    ConsistentTable(t, catalog.flows);
    if !Activated(g.bridges, ord, active).bad { FixedPointFrom(catalog, request, ord, parses, g, active, t); }
  }

  /** The bridges of a graph are closed under requirements, well named and without cycles. */
  lemma BridgesAreTidy(bridges: map<string, Bridge>, active: set<string>)
    requires Settled(bridges, active)
    ensures Tidy(Restrict(bridges, active))
  {
    RestrictCloses(bridges, active);
    var g, h := Requires(bridges), Requires(Restrict(bridges, active));
    forall b | b in active ensures !Below(h, b, b) {
      ChainsAgree(g, h, b, |active|, active);
      BoundedIsAcyclic(h, b, |active|);
    }
  }

  /** Re-resolution can change nothing but the verdict on depth: resolving a graph's own types, flows and
      bridges again, with all of its bridges requested, gives exactly that graph if and only if touring
      them in order of names, requirements first, never enters one below 128 ancestors or more. */
  lemma FixedPointExactly(catalog: Catalog, request: Request, ord: Order, parses: Json -> bool, g: RuntimeGraph)
    requires Lists(ord) && Resolve_(catalog, request, ord, parses) == Some(g)
    ensures Root in g.instances && Consistent(g.instances)
    ensures Resolve_(Cut(g), Again(g), ord, parses) == Some(g) <==> DeepestEntry(g.bridges, ord, g.bridges.Keys) < MAX_DEPTH
    ensures DeepestEntry(g.bridges, ord, g.bridges.Keys) >= MAX_DEPTH ==> Resolve_(Cut(g), Again(g), ord, parses) == None
  {
    SameUnlessReported(catalog, request, ord, parses, g);
    ActiveIsClosure(catalog.bridges, ord, request.bridges);
    BridgesAreTidy(catalog.bridges, Activated(catalog.bridges, ord, request.bridges).active);
    ReportedMeansDeep(g.bridges, ord, g.bridges.Keys);
  }

  /** In particular re-resolution is a fixed point when no chain of requirements is longer than the depth
      limit, whatever the order of names. */
  lemma ResolutionIsFixedPoint(catalog: Catalog, request: Request, ord: Order, parses: Json -> bool, g: RuntimeGraph)
    requires Lists(ord) && Resolve_(catalog, request, ord, parses) == Some(g)
    requires forall b | b in g.bridges :: ChainsWithin(Requires(g.bridges), b, MAX_DEPTH)
    ensures Root in g.instances && Consistent(g.instances) && Resolve_(Cut(g), Again(g), ord, parses) == Some(g)
  {
    var active := Activated(catalog.bridges, ord, request.bridges).active;
    ActiveIsClosure(catalog.bridges, ord, request.bridges);
    RestrictCloses(catalog.bridges, active);
    ShortChainsActivate(g.bridges, ord, g.bridges.Keys);
    SameUnlessReported(catalog, request, ord, parses, g);
  }
}
