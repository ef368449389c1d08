/** The loops of `resolve` (rust/crates/zf-compiler/src/resolve.rs) over types, flows, connections,
    bindings and requirements: they build exactly the graph that module `Resolution` specifies. */
module Linking {
  import opened Base
  import opened Types
  import opened TypeWalk
  import opened Composition
  import opened Dependencies
  import opened Aliases
  import opened Resolution

  // ----- What a set of processed elements amounts to -----

  /** What all bridges are linked against. */
  datatype Scene = Scene(types: Registry, parses: Json -> bool, bridges: map<string, Bridge>, t: Table) {
    ghost predicate ConnectionFine(k: Key)
      requires k in ConnectionKeys(bridges)
    {
      ValidName(k.1) && ConnectionOk(types, parses, t, k.0, bridges[k.0].connections[k.1])
    }

    ghost predicate BindingFine(k: Key)
      requires k in BindingKeys(bridges)
    {
      ValidName(k.1) && BindingOk(types, t, k.0, bridges[k.0].bindings[k.1])
    }

    ghost predicate ConnectionsFine(ks: set<Key>) {
      && ks <= ConnectionKeys(bridges) && (forall k {:trigger ConnectionFine(k)} | k in ks :: ConnectionFine(k))
      && forall k, l {:trigger Exposed(t, bridges, k), Exposed(t, bridges, l)} | k in ks && l in ks && k != l :: Exposed(t, bridges, k).None? || Exposed(t, bridges, k) != Exposed(t, bridges, l)
    }

    ghost predicate BindingsFine(ks: set<Key>) {
      && ks <= BindingKeys(bridges) && (forall k {:trigger BindingFine(k)} | k in ks :: BindingFine(k))
      && forall k, l {:trigger Supplied(t, bridges, k), Supplied(t, bridges, l)} | k in ks && l in ks && k != l :: Supplied(t, bridges, k) != Supplied(t, bridges, l)
    }

    ghost predicate ToolsAre(tools: set<(Alias, string)>, ks: set<Key>) {
      ks <= ConnectionKeys(bridges) && forall x :: x in tools <==> exists k :: k in ks && Exposed(t, bridges, k) == Some(x)
    }

    ghost predicate BoundAre(bound: set<Site>, ks: set<Key>) {
      ks <= BindingKeys(bridges) && forall x :: x in bound <==> exists k :: k in ks && Supplied(t, bridges, k) == Some(x)
    }

    ghost predicate RoutesAre(routes: map<Key, Route>, ks: set<Key>) {
      && ks <= ConnectionKeys(bridges) && routes.Keys == ks
      && forall k {:trigger routes[k]} | k in ks :: Joins(t, k.0, bridges[k.0].connections[k.1])
           && routes[k] == RouteOf(t, k.0, bridges[k.0].connections[k.1])
    }

    ghost predicate BindingsAre(bindings: map<Key, DataBinding>, ks: set<Key>) {
      && ks <= BindingKeys(bridges) && bindings.Keys == ks
      && forall k {:trigger bindings[k]} | k in ks :: Supplies(t, k.0, bridges[k.0].bindings[k.1])
           && bindings[k] == BindingOf(t, k.0, bridges[k.0].bindings[k.1])
    }
  }

  ghost predicate ConnectionResults(s: Scene, tools: set<(Alias, string)>, routes: map<Key, Route>, ks: set<Key>) {
    s.ToolsAre(tools, ks) && s.RoutesAre(routes, ks)
  }

  ghost predicate BindingResults(s: Scene, bound: set<Site>, bindings: map<Key, DataBinding>, ks: set<Key>) {
    s.BoundAre(bound, ks) && s.BindingsAre(bindings, ks)
  }

  ghost function ToolOf(s: Scene, k: Key): set<(Alias, string)>
    requires k in ConnectionKeys(s.bridges)
  {
    if Exposed(s.t, s.bridges, k).Some? then {Exposed(s.t, s.bridges, k).value} else {}
  }

  lemma OneMoreConnection(s: Scene, tools: set<(Alias, string)>, ks: set<Key>, k: Key)
    requires s.ToolsAre(tools, ks) && k in ConnectionKeys(s.bridges) && k !in ks
    ensures s.ConnectionsFine(ks + {k}) <==> s.ConnectionsFine(ks) && s.ConnectionFine(k) && ToolOf(s, k) !! tools
  {
  }

  lemma FewerConnections(s: Scene, ks: set<Key>, k: Key)
    requires s.ConnectionsFine(ks + {k})
    ensures s.ConnectionsFine(ks)
  {
    assert forall l | l in ks :: l in ks + {k};
  }

  lemma ToolsAdded(s: Scene, tools: set<(Alias, string)>, ks: set<Key>, k: Key)
    requires s.ToolsAre(tools, ks) && k in ConnectionKeys(s.bridges)
    ensures s.ToolsAre(tools + ToolOf(s, k), ks + {k})
  {
    var more := tools + ToolOf(s, k);
    forall x ensures x in more <==> exists l :: l in ks + {k} && Exposed(s.t, s.bridges, l) == Some(x) {
      if x in tools {
        var l :| l in ks && Exposed(s.t, s.bridges, l) == Some(x);
        assert l in ks + {k};
      } else if x in more {
        assert k in ks + {k};
      }
    }
  }

  lemma RoutesAdded(s: Scene, routes: map<Key, Route>, ks: set<Key>, k: Key)
    requires s.RoutesAre(routes, ks) && k in ConnectionKeys(s.bridges) && Joins(s.t, k.0, s.bridges[k.0].connections[k.1])
    ensures s.RoutesAre(routes[k := RouteOf(s.t, k.0, s.bridges[k.0].connections[k.1])], ks + {k})
  {
  }

  lemma ConnectionAdded(s: Scene, tools: set<(Alias, string)>, routes: map<Key, Route>, ks: set<Key>, k: Key)
    requires ConnectionResults(s, tools, routes, ks) && k in ConnectionKeys(s.bridges) && s.ConnectionFine(k)
    ensures ConnectionResults(s, tools + ToolOf(s, k), routes[k := RouteOf(s.t, k.0, s.bridges[k.0].connections[k.1])], ks + {k})
  {
    ToolsAdded(s, tools, ks, k);
    RoutesAdded(s, routes, ks, k);
  }

  lemma OneMoreBinding(s: Scene, bound: set<Site>, ks: set<Key>, k: Key)
    requires s.BoundAre(bound, ks) && k in BindingKeys(s.bridges) && k !in ks
    ensures s.BindingsFine(ks + {k}) <==>
      s.BindingsFine(ks) && s.BindingFine(k) && (Supplied(s.t, s.bridges, k).Some? ==> Supplied(s.t, s.bridges, k).value !in bound)
  {
  }

  lemma FewerBindings(s: Scene, ks: set<Key>, k: Key)
    requires s.BindingsFine(ks + {k})
    ensures s.BindingsFine(ks)
  {
    assert forall l | l in ks :: l in ks + {k};
  }

  lemma BoundAdded(s: Scene, bound: set<Site>, ks: set<Key>, k: Key, site: Site)
    requires s.BoundAre(bound, ks) && k in BindingKeys(s.bridges) && Supplied(s.t, s.bridges, k) == Some(site)
    ensures s.BoundAre(bound + {site}, ks + {k})
  {
    forall x ensures x in bound + {site} <==> exists l :: l in ks + {k} && Supplied(s.t, s.bridges, l) == Some(x) {
      if x in bound {
        var l :| l in ks && Supplied(s.t, s.bridges, l) == Some(x);
        assert l in ks + {k};
      } else if x == site {
        assert k in ks + {k};
      }
    }
  }

  lemma BindingsAdded(s: Scene, bindings: map<Key, DataBinding>, ks: set<Key>, k: Key)
    requires s.BindingsAre(bindings, ks) && k in BindingKeys(s.bridges) && Supplies(s.t, k.0, s.bridges[k.0].bindings[k.1])
    ensures s.BindingsAre(bindings[k := BindingOf(s.t, k.0, s.bridges[k.0].bindings[k.1])], ks + {k})
  {
  }

  lemma BindingAdded(s: Scene, bound: set<Site>, bindings: map<Key, DataBinding>, ks: set<Key>, k: Key)
    requires BindingResults(s, bound, bindings, ks) && k in BindingKeys(s.bridges) && s.BindingFine(k)
    ensures BindingResults(s, bound + {Supplied(s.t, s.bridges, k).value},
      bindings[k := BindingOf(s.t, k.0, s.bridges[k.0].bindings[k.1])], ks + {k})
  {
    BoundAdded(s, bound, ks, k, Supplied(s.t, s.bridges, k).value);
    BindingsAdded(s, bindings, ks, k);
  }

  // ----- Reports -----

  class Reporter {
    var errors: nat

    constructor ()
      ensures errors == 0
    {
      errors := 0;
    }

    method Report(bad: bool)
      modifies this
      ensures errors == 0 <==> old(errors) == 0 && !bad
    {
      if bad { errors := errors + 1; }
    }

    method CheckType(t: DataType, types: Registry)
      modifies this
      ensures errors == 0 <==> old(errors) == 0 && TypeOk(t, types)
    {
      var ok := ValidateType(t, types);
      Report(!ok);
    }

    method CheckCompatible(source: DataType, target: DataType, types: Registry)
      modifies this
      ensures errors == 0 <==> old(errors) == 0 && Compatible(source, target, types)
    {
      var a := ValidateType(source, types);
      var b := ValidateType(target, types);
      Report(!(a && b && Accepts(source, target)));
    }

    method CheckRegistry(types: Registry)
      modifies this
      ensures errors == 0 <==> old(errors) == 0 && forall n | n in types :: TypeOk(DataType.Named(n), types)
    {
      var left := types.Keys;
      while left != {}
        invariant left <= types.Keys
        invariant errors == 0 <==> old(errors) == 0 && forall n | n in types && n !in left :: TypeOk(DataType.Named(n), types)
        decreases left
      {
        var n :| n in left;
        CheckType(DataType.Named(n), types);
        left := left - {n};
      }
    }

    // ----- Flows -----

    method CheckContract(c: Contract, types: Registry)
      modifies this
      ensures errors == 0 <==> old(errors) == 0 && ContractOk(c, types)
    {
      CheckType(c.input, types);
      if c.output.Some? { CheckType(c.output.value, types); }
    }

    method CheckEntries(entries: map<string, Contract>, types: Registry)
      modifies this
      ensures errors == 0 <==> old(errors) == 0 && forall e | e in entries :: ValidName(e) && ContractOk(entries[e], types)
    {
      var left := entries.Keys;
      while left != {}
        invariant left <= entries.Keys
        invariant errors == 0 <==> old(errors) == 0 && forall e | e in entries && e !in left :: ValidName(e) && ContractOk(entries[e], types)
        decreases left
      {
        var e :| e in left;
        Report(!ValidName(e));
        CheckContract(entries[e], types);
        left := left - {e};
      }
    }

    method CheckBranches(branches: map<string, Branch>, types: Registry)
      modifies this
      ensures errors == 0 <==> old(errors) == 0 && forall b | b in branches :: BranchOk(b, branches[b], types)
    {
      var left := branches.Keys;
      while left != {}
        invariant left <= branches.Keys
        invariant errors == 0 <==> old(errors) == 0 && forall b | b in branches && b !in left :: BranchOk(b, branches[b], types)
        decreases left
      {
        var b :| b in left;
        var branch := branches[b];
        Report(!ValidName(b));
        CheckContract(branch.contract, types);
        Report(branch.invocations == {} && branch.requesters == {});
        Report(branch.invocations != {} && branch.requesters != {});
        Report(exists r | r in branch.requesters :: !ValidName(r));
        left := left - {b};
      }
    }

    method CheckData(f: Flow, types: Registry)
      modifies this
      ensures errors == 0 <==> old(errors) == 0 && forall d | d in f.data :: DataOk(f, d, types)
    {
      var left := f.data.Keys;
      while left != {}
        invariant left <= f.data.Keys
        invariant errors == 0 <==> old(errors) == 0 && forall d | d in f.data && d !in left :: DataOk(f, d, types)
        decreases left
      {
        var d :| d in left;
        Report(!ValidName(d));
        CheckType(f.data[d].dataType, types);
        Report(!f.data[d].permissions.Supported());
        Report(d in f.needs);
        left := left - {d};
      }
    }

    method CheckNeeds(needs: map<string, Requirement>, types: Registry)
      modifies this
      ensures errors == 0 <==> old(errors) == 0 && forall n | n in needs :: NeedOk(n, needs[n], types)
    {
      var left := needs.Keys;
      while left != {}
        invariant left <= needs.Keys
        invariant errors == 0 <==> old(errors) == 0 && forall n | n in needs && n !in left :: NeedOk(n, needs[n], types)
        decreases left
      {
        var n :| n in left;
        Report(!ValidName(n));
        CheckType(needs[n].dataType, types);
        Report(!needs[n].permissions.Supported());
        left := left - {n};
      }
    }

    method CheckInferences(f: Flow)
      modifies this
      ensures errors == 0 <==> old(errors) == 0 && forall i | i in f.inferences :: ValidName(i) && InferenceOk(f, f.inferences[i])
    {
      var left := f.inferences.Keys;
      while left != {}
        invariant left <= f.inferences.Keys
        invariant errors == 0 <==>
          old(errors) == 0 && forall i | i in f.inferences && i !in left :: ValidName(i) && InferenceOk(f, f.inferences[i])
        decreases left
      {
        var i :| i in left;
        Report(!ValidName(i));
        Report(!InferenceOk(f, f.inferences[i]));
        left := left - {i};
      }
    }

    /** `validate_flow`. */
    method ValidateFlow(f: Flow, types: Registry)
      modifies this
      ensures errors == 0 <==> old(errors) == 0 && FlowOk(f, types)
    {
      Report(|f.entries| == 0);
      CheckEntries(f.entries, types);
      CheckBranches(f.branches, types);
      CheckData(f, types);
      CheckNeeds(f.needs, types);
      CheckInferences(f);
    }

    /** Each flow is validated once, however many instances it has. */
    method ValidateFlows(instances: map<Alias, Instance>, types: Registry)
      requires Consistent(instances)
      modifies this
      ensures errors == 0 <==> old(errors) == 0 && forall c | c in instances :: FlowOk(instances[c].definition, types)
    {
      var left, validated := instances.Keys, {};
      while left != {}
        invariant left <= instances.Keys
        invariant forall f | f in validated :: exists c :: c in instances && c !in left && instances[c].flow == f
        invariant errors == 0 <==> old(errors) == 0 && forall c | c in instances && c !in left :: FlowOk(instances[c].definition, types)
        decreases left
      {
        var c :| c in left;
        var instance := instances[c];
        if instance.flow !in validated {
          validated := validated + {instance.flow};
          ValidateFlow(instance.definition, types);
        } else {
          ghost var d :| d in instances && d !in left && instances[d].flow == instance.flow;
          assert instances[d].definition == instance.definition;
        }
        left := left - {c};
        assert c !in left && instances[c].flow == instance.flow;
      }
    }

    method CheckImports(bridges: map<string, Bridge>)
      modifies this
      ensures errors == 0 <==>
        old(errors) == 0 && forall b, a | b in bridges && a in bridges[b].imports :: ValidName(a) && a != "root"
    {
      var left := bridges.Keys;
      while left != {}
        invariant left <= bridges.Keys
        invariant errors == 0 <==>
          old(errors) == 0 && forall b, a | b in bridges && b !in left && a in bridges[b].imports :: ValidName(a) && a != "root"
        decreases left
      {
        var b :| b in left;
        Report(exists a | a in bridges[b].imports :: !ValidName(a) || a == "root");
        left := left - {b};
      }
    }
  }

  // ----- Connections and bindings -----

  class Linker {
    const s: Scene
    const reporter: Reporter
    var bound: set<Site>
    var tools: set<(Alias, string)>
    var routes: map<Key, Route>
    var bindings: map<Key, DataBinding>

    constructor (s: Scene, reporter: Reporter)
      ensures this.s == s && this.reporter == reporter && bound == {} && tools == {} && routes == map[] && bindings == map[]
    {
      this.s, this.reporter := s, reporter;
      bound, tools, routes, bindings := {}, {}, map[], map[];
    }

    /** Every alias stands for an instance that exists. */
    ghost predicate Total() {
      forall a | a in s.t.aliases :: s.t.aliases[a] in s.t.instances
    }

    method Endpoint(bridge: string, e: Endpoint) returns (site: Option<Site>)
      modifies reporter
      ensures site == Locate(bridge, e, s.t.aliases)
      ensures reporter.errors == 0 <==> old(reporter.errors) == 0 && site.Some?
    {
      site := Locate(bridge, e, s.t.aliases);
      reporter.Report(site.None?);
    }

    /** The tool name and the condition that the kind of invocation calls for. */
    method Expose(instance: Alias, c: Connection)
      modifies reporter, this`tools
      ensures var tool := if c.invocation == Tool && c.toolName.Some? then {(instance, c.toolName.value)} else {};
        && tools == old(tools) + tool
        && (reporter.errors == 0 <==>
             old(reporter.errors) == 0 && tool !! old(tools)
             && (if c.invocation == Tool then c.toolName.Some? && ValidName(c.toolName.value) else c.toolName.None?)
             && (if c.invocation == Condition then c.condition.Some? && s.parses(c.condition.value) else c.condition.None?))
    {
      if c.invocation == Tool && c.toolName.Some? {
        reporter.Report(!ValidName(c.toolName.value));
        reporter.Report((instance, c.toolName.value) in tools);
        tools := tools + {(instance, c.toolName.value)};
      } else {
        reporter.Report(c.invocation == Tool || c.toolName.Some?);
      }
      if c.invocation == Condition {
        reporter.Report(c.condition.None? || !s.parses(c.condition.value));
      } else {
        reporter.Report(c.condition.Some?);
      }
    }

    /** One connection: its checks, and its route once both ends exist. */
    method Connect(k: Key)
      requires Total() && k in ConnectionKeys(s.bridges)
      modifies reporter, this`tools, this`routes
      ensures reporter.errors == 0 <==> old(reporter.errors) == 0 && s.ConnectionFine(k) && ToolOf(s, k) !! old(tools)
      ensures reporter.errors == 0 ==> tools == old(tools) + ToolOf(s, k)
      ensures reporter.errors == 0 ==> routes == old(routes)[k := RouteOf(s.t, k.0, s.bridges[k.0].connections[k.1])]
    {
      var c := s.bridges[k.0].connections[k.1];
      reporter.Report(!ValidName(k.1));
      var from := Endpoint(k.0, c.from);
      var to := Endpoint(k.0, c.to);
      if from.None? || to.None? { return; }
      var here, there := s.t.instances[from.value.instance].definition, s.t.instances[to.value.instance].definition;
      reporter.Report(from.value.port !in here.branches || to.value.port !in there.entries);
      if from.value.port !in here.branches || to.value.port !in there.entries { return; }
      var source, target := here.branches[from.value.port], there.entries[to.value.port];
      reporter.Report(source.requesters == {} && c.invocation !in source.invocations);
      reporter.CheckCompatible(source.contract.input, target.input, s.types);
      if c.mode == CallAwait && source.contract.output.Some? {
        reporter.Report(target.output.None?);
        if target.output.Some? { reporter.CheckCompatible(target.output.value, source.contract.output.value, s.types); }
      }
      Expose(from.value.instance, c);
      routes := routes[k := Route(k.0, from.value, to.value, c.mode, c.invocation, c.toolName, c.condition, target.input, target.output)];
    }

    /** One data binding. */
    method Bind(k: Key)
      requires Total() && k in BindingKeys(s.bridges)
      modifies reporter, this`bound, this`bindings
      ensures reporter.errors == 0 <==>
        old(reporter.errors) == 0 && s.BindingFine(k)
        && (Supplied(s.t, s.bridges, k).Some? ==> Supplied(s.t, s.bridges, k).value !in old(bound))
      ensures reporter.errors == 0 ==> bound == old(bound) + {Supplied(s.t, s.bridges, k).value}
      ensures reporter.errors == 0 ==> bindings == old(bindings)[k := BindingOf(s.t, k.0, s.bridges[k.0].bindings[k.1])]
    {
      var b := s.bridges[k.0].bindings[k.1];
      reporter.Report(!ValidName(k.1));
      reporter.Report(!b.permissions.Supported());
      var from := Endpoint(k.0, b.from);
      var to := Endpoint(k.0, b.to);
      if from.None? || to.None? { return; }
      var here, there := s.t.instances[from.value.instance].definition, s.t.instances[to.value.instance].definition;
      reporter.Report(from.value.port !in here.data || to.value.port !in there.needs);
      if from.value.port !in here.data || to.value.port !in there.needs { return; }
      var source, target := here.data[from.value.port], there.needs[to.value.port];
      reporter.Report(to.value in bound);
      bound := bound + {to.value};
      reporter.Report(!source.permissions.Contains(b.permissions) || b.permissions != target.permissions);
      if b.permissions.read { reporter.CheckCompatible(source.dataType, target.dataType, s.types); }
      if b.permissions.write { reporter.CheckCompatible(target.dataType, source.dataType, s.types); }
      bindings := bindings[k := DataBinding(k.0, from.value, to.value, b.permissions, source.dataType)];
    }

    /** What has been linked so far: exactly the processed connections and bindings, if all are fine. */
    ghost predicate Linked(base: bool, cs: set<Key>, bs: set<Key>)
      reads this, reporter
    {
      && (reporter.errors == 0 <==> base && s.ConnectionsFine(cs) && s.BindingsFine(bs))
      && (reporter.errors == 0 ==> ConnectionResults(s, tools, routes, cs) && BindingResults(s, bound, bindings, bs))
    }

    method ConnectNext(k: Key, ghost base: bool, ghost cs: set<Key>, ghost bs: set<Key>)
      requires Total() && k in ConnectionKeys(s.bridges) && k !in cs && Linked(base, cs, bs)
      modifies reporter, this`tools, this`routes
      ensures Linked(base, cs + {k}, bs)
    {
      ghost var tools0, routes0 := tools, routes;
      if reporter.errors == 0 { OneMoreConnection(s, tools, cs, k); }
      if s.ConnectionsFine(cs + {k}) { FewerConnections(s, cs, k); }
      Connect(k);
      if reporter.errors == 0 { ConnectionAdded(s, tools0, routes0, cs, k); }
    }

    method BindNext(k: Key, ghost base: bool, ghost cs: set<Key>, ghost bs: set<Key>)
      requires Total() && k in BindingKeys(s.bridges) && k !in bs && Linked(base, cs, bs)
      modifies reporter, this`bound, this`bindings
      ensures Linked(base, cs, bs + {k})
    {
      ghost var bound0, bindings0 := bound, bindings;
      if reporter.errors == 0 { OneMoreBinding(s, bound, bs, k); }
      if s.BindingsFine(bs + {k}) { FewerBindings(s, bs, k); }
      Bind(k);
      if reporter.errors == 0 { BindingAdded(s, bound0, bindings0, bs, k); }
    }

    /** All connections of one bridge. */
    method ConnectBridge(b: string, ghost base: bool, ghost cs: set<Key>, ghost bs: set<Key>)
      requires Total() && b in s.bridges && Linked(base, cs, bs) && forall i | i in s.bridges[b].connections :: (b, i) !in cs
      modifies reporter, this`tools, this`routes
      ensures Linked(base, cs + ConnectionsOf(s.bridges, b), bs)
    {
      var left := s.bridges[b].connections.Keys;
      ghost var done: set<Key> := {};
      assert cs + done == cs;
      while left != {}
        invariant left <= s.bridges[b].connections.Keys && Linked(base, cs + done, bs)
        invariant forall k :: k in done <==> k in ConnectionsOf(s.bridges, b) && k.1 !in left
        decreases left
      {
        var i :| i in left;
        ConnectNext((b, i), base, cs + done, bs);
        assert cs + done + {(b, i)} == cs + (done + {(b, i)});
        left, done := left - {i}, done + {(b, i)};
      }
      assert done == ConnectionsOf(s.bridges, b);
    }

    /** All bindings of one bridge. */
    method BindBridge(b: string, ghost base: bool, ghost cs: set<Key>, ghost bs: set<Key>)
      requires Total() && b in s.bridges && Linked(base, cs, bs) && forall i | i in s.bridges[b].bindings :: (b, i) !in bs
      modifies reporter, this`bound, this`bindings
      ensures Linked(base, cs, bs + BindingsIn(s.bridges, b))
    {
      var left := s.bridges[b].bindings.Keys;
      ghost var done: set<Key> := {};
      assert bs + done == bs;
      while left != {}
        invariant left <= s.bridges[b].bindings.Keys && Linked(base, cs, bs + done)
        invariant forall k :: k in done <==> k in BindingsIn(s.bridges, b) && k.1 !in left
        decreases left
      {
        var i :| i in left;
        BindNext((b, i), base, cs, bs + done);
        assert bs + done + {(b, i)} == bs + (done + {(b, i)});
        left, done := left - {i}, done + {(b, i)};
      }
      assert done == BindingsIn(s.bridges, b);
    }

    /** Connections, then bindings, bridge by bridge. */
    method LinkAll(ghost base: bool)
      requires Total() && Linked(base, {}, {})
      modifies reporter, this
      ensures Linked(base, ConnectionKeys(s.bridges), BindingKeys(s.bridges))
    {
      var left := s.bridges.Keys;
      ghost var cs: set<Key>, bs: set<Key> := {}, {};
      while left != {}
        invariant left <= s.bridges.Keys && Linked(base, cs, bs)
        invariant forall k :: k in cs <==> k in ConnectionKeys(s.bridges) && k.0 !in left
        invariant forall k :: k in bs <==> k in BindingKeys(s.bridges) && k.0 !in left
        decreases left
      {
        var b :| b in left;
        ConnectBridge(b, base, cs, bs);
        cs := cs + ConnectionsOf(s.bridges, b);
        BindBridge(b, base, cs, bs);
        bs := bs + BindingsIn(s.bridges, b);
        left := left - {b};
      }
      assert cs == ConnectionKeys(s.bridges) && bs == BindingKeys(s.bridges);
    }

    /** Required datasets of one instance that no binding supplies. */
    method CheckRequired(c: Alias)
      requires c in s.t.instances
      modifies reporter
      ensures reporter.errors == 0 <==> old(reporter.errors) == 0 && Served(s.t, bound, c)
    {
      var needs := s.t.instances[c].definition.needs;
      var left := needs.Keys;
      while left != {}
        invariant left <= needs.Keys
        invariant reporter.errors == 0 <==>
          old(reporter.errors) == 0 && forall n | n in needs && n !in left :: needs[n].optional || Site(c, n) in bound
        decreases left
      {
        var n :| n in left;
        reporter.Report(!needs[n].optional && Site(c, n) !in bound);
        left := left - {n};
      }
    }

    /** The last loop: required datasets, and the inference nodes of every instance. */
    method Finish() returns (inferences: map<(Alias, string), Inference>)
      modifies reporter
      ensures reporter.errors == 0 <==> old(reporter.errors) == 0 && forall c | c in s.t.instances :: Served(s.t, bound, c)
      ensures inferences == InferencesOf(s.t.instances)
    {
      var left := s.t.instances.Keys;
      inferences := map[];
      while left != {}
        invariant left <= s.t.instances.Keys
        invariant reporter.errors == 0 <==>
          old(reporter.errors) == 0 && forall c | c in s.t.instances && c !in left :: Served(s.t, bound, c)
        invariant forall k :: k in inferences <==>
          k.0 in s.t.instances && k.0 !in left && k.1 in s.t.instances[k.0].definition.inferences
        invariant forall k | k in inferences :: inferences[k] == s.t.instances[k.0].definition.inferences[k.1]
        decreases left
      {
        var c :| c in left;
        CheckRequired(c);
        var nodes := s.t.instances[c].definition.inferences;
        inferences := inferences + map n | n in nodes :: (c, n) := nodes[n];
        left := left - {c};
      }
    }
  }

  ghost function ConnectionsOf(bridges: map<string, Bridge>, b: string): set<Key>
    requires b in bridges
  {
    set i | i in bridges[b].connections :: (b, i)
  }

  ghost function BindingsIn(bridges: map<string, Bridge>, b: string): set<Key>
    requires b in bridges
  {
    set i | i in bridges[b].bindings :: (b, i)
  }

  ghost predicate Served(t: Table, bound: set<Site>, c: Alias)
    requires c in t.instances
  {
    forall n | n in t.instances[c].definition.needs :: t.instances[c].definition.needs[n].optional || Site(c, n) in bound
  }

  // ----- The whole resolution -----

  /** Whatever was reported, every alias stands for an instance, and instances of a flow share its
      definition. */
  lemma TableFacts(w: Wiring, ord: Order, root: Instance)
    requires Root !in w.imports && root.flow in w.flows && root.definition == w.flows[root.flow]
    ensures var t := Aliases.Resolved(w, ord, root);
      (forall a | a in t.aliases :: t.aliases[a] in t.instances) && Consistent(t.instances)
  {
    InitialOk(w, root);
    ResolveAllKeeps(w, ord.aliases(w.imports.Keys), 0, Initial(root, false));
    var t := Aliases.Resolved(w, ord, root);
    assert Root in Initial(root, false).instances;
    forall a | a in t.aliases ensures t.aliases[a] in t.instances { assert AliasOk(w, t, a); }
    forall c | c in t.instances ensures t.instances[c].flow in w.flows && t.instances[c].definition == w.flows[t.instances[c].flow] {
      assert InstanceOk(w, t, c);
    }
  }

  lemma AllConnectionsFine(s: Scene)
    ensures s.ConnectionsFine(ConnectionKeys(s.bridges)) <==>
      ConnectionsOk(s.types, s.parses, s.bridges, s.t) && ToolsDistinct(s.bridges, s.t)
  {
    if ConnectionsOk(s.types, s.parses, s.bridges, s.t) {
      forall k | k in ConnectionKeys(s.bridges) ensures s.ConnectionFine(k) { }
    }
    if s.ConnectionsFine(ConnectionKeys(s.bridges)) {
      forall k | k in ConnectionKeys(s.bridges)
        ensures ValidName(k.1) && ConnectionOk(s.types, s.parses, s.t, k.0, s.bridges[k.0].connections[k.1])
      {
        assert s.ConnectionFine(k);
      }
    }
  }

  lemma AllBindingsFine(s: Scene)
    ensures s.BindingsFine(BindingKeys(s.bridges)) <==> BindingsOk(s.types, s.bridges, s.t) && NoneSuppliedTwice(s.bridges, s.t)
  {
    if BindingsOk(s.types, s.bridges, s.t) {
      forall k | k in BindingKeys(s.bridges) ensures s.BindingFine(k) { }
    }
    if s.BindingsFine(BindingKeys(s.bridges)) {
      forall k | k in BindingKeys(s.bridges) ensures ValidName(k.1) && BindingOk(s.types, s.t, k.0, s.bridges[k.0].bindings[k.1]) {
        assert s.BindingFine(k);
      }
    }
  }

  lemma ServedIsSupplied(s: Scene, bound: set<Site>)
    requires s.BoundAre(bound, BindingKeys(s.bridges))
    ensures AllSupplied(s.bridges, s.t) <==> forall c | c in s.t.instances :: Served(s.t, bound, c)
  {
    forall c, n | c in s.t.instances && n in s.t.instances[c].definition.needs
      ensures Site(c, n) in bound <==> IsSupplied(s.bridges, s.t, Site(c, n))
    {
    }
    if forall c | c in s.t.instances :: Served(s.t, bound, c) {
      forall c, n | c in s.t.instances && n in s.t.instances[c].definition.needs
        ensures s.t.instances[c].definition.needs[n].optional || IsSupplied(s.bridges, s.t, Site(c, n))
      {
        assert Served(s.t, bound, c);
      }
    }
  }

  /** What the loops report together is whether the composition is wired. */
  lemma LinkedIsWired(s: Scene)
    requires DeclarationsOk(s.types, s.bridges, s.t)
    ensures Wired(s.types, s.parses, s.bridges, s.t) <==>
      s.ConnectionsFine(ConnectionKeys(s.bridges)) && s.BindingsFine(BindingKeys(s.bridges)) && AllSupplied(s.bridges, s.t)
  {
    AllConnectionsFine(s);
    AllBindingsFine(s);
  }

  lemma SameRoutes(s: Scene, routes: map<Key, Route>)
    requires AllJoin(s.bridges, s.t) && s.RoutesAre(routes, ConnectionKeys(s.bridges))
    ensures routes == RoutesOf(s.bridges, s.t)
  {
    RouteKeys(s.bridges, s.t);
    forall k | k in routes ensures routes[k] == RoutesOf(s.bridges, s.t)[k] { RouteAt(s.bridges, s.t, k); }
  }

  lemma SameBindings(s: Scene, bindings: map<Key, DataBinding>)
    requires AllSupply(s.bridges, s.t) && s.BindingsAre(bindings, BindingKeys(s.bridges))
    ensures bindings == BindingsOf(s.bridges, s.t)
  {
    BoundKeys(s.bridges, s.t);
    forall k | k in bindings ensures bindings[k] == BindingsOf(s.bridges, s.t)[k] { BoundAt(s.bridges, s.t, k); }
  }

  lemma SameGraph(s: Scene, entry: string, routes: map<Key, Route>, bindings: map<Key, DataBinding>)
    requires Wired(s.types, s.parses, s.bridges, s.t)
    requires s.RoutesAre(routes, ConnectionKeys(s.bridges)) && s.BindingsAre(bindings, BindingKeys(s.bridges))
    ensures RuntimeGraph(entry, s.types, s.bridges, s.t.instances, s.t.aliases, routes, bindings, InferencesOf(s.t.instances))
      == GraphOf(s.types, s.parses, s.bridges, s.t, entry)
  {
    SameRoutes(s, routes);
    SameBindings(s, bindings);
  }

  /** Connections, bindings and requirements of a resolved table. */
  method Link(s: Scene, reporter: Reporter, entry: string) returns (g: RuntimeGraph)
    requires forall a | a in s.t.aliases :: s.t.aliases[a] in s.t.instances
    requires reporter.errors == 0 ==> DeclarationsOk(s.types, s.bridges, s.t)
    modifies reporter
    ensures reporter.errors == 0 <==> old(reporter.errors) == 0 && Wired(s.types, s.parses, s.bridges, s.t)
    ensures reporter.errors == 0 ==> g == GraphOf(s.types, s.parses, s.bridges, s.t, entry)
  {
    var linker := new Linker(s, reporter);
    ghost var base := reporter.errors == 0;
    linker.LinkAll(base);
    var inferences := linker.Finish();
    g := RuntimeGraph(entry, s.types, s.bridges, s.t.instances, s.t.aliases, linker.routes, linker.bindings, inferences);
    if base { LinkedIsWired(s); }
    if base && s.BoundAre(linker.bound, BindingKeys(s.bridges)) { ServedIsSupplied(s, linker.bound); }
    if reporter.errors == 0 { SameGraph(s, entry, linker.routes, linker.bindings); }
  }

  /** `resolve`: the graph, or nothing when anything was reported. */
  method Resolve(catalog: Catalog, request: Request, ord: Order, parses: Json -> bool) returns (g: Option<RuntimeGraph>)
    requires Lists(ord)
    ensures g == Resolve_(catalog, request, ord, parses)
  {
    var reporter := new Reporter();
    reporter.CheckRegistry(catalog.types);
    var active, bad := Activate(catalog.bridges, ord, request.bridges);
    reporter.Report(bad);
    if request.flow !in catalog.flows { return None; }
    var root := Instance(request.flow, catalog.flows[request.flow]);
    reporter.Report(request.entry !in root.definition.entries);
    var bridges := Restrict(catalog.bridges, active);
    reporter.CheckImports(bridges);
    var resolver := new InstanceResolver(Wiring(ImportsOf(bridges), catalog.flows, catalog.bridges), ord, root, false);
    resolver.Run();
    reporter.Report(resolver.bad);
    var t := Table(resolver.aliases, resolver.instances, resolver.bad);
    TableFacts(resolver.w, ord, root);
    reporter.ValidateFlows(t.instances, catalog.types);
    var graph := Link(Scene(catalog.types, parses, bridges, t), reporter, request.entry);
    g := if reporter.errors == 0 then Some(graph) else None;
  }
}
