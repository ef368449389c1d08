/** The linked checker as the source runs it: one object whose fields its methods update
    (rust/crates/zf-context/src/context.rs, `Checker`). Every method refines the specification in
    module `Checker` and leaves the scope as it found it, on every path. Only the order and the texts
    of diagnostics are left open. */
module CheckerObject {
  import opened Base
  import opened Types
  import opened TypeWalk
  import opened Syntax
  import opened Typing
  import Acceptance
  import Spec = Checker

  const MAX_DIAGNOSTICS := 64

  /** Among the first `n` selected fields one is undeclared or repeated. */
  ghost predicate Unfit(selected: seq<string>, fs: map<string, DataType>, n: nat)
    requires n <= |selected|
  {
    (exists i :: 0 <= i < n && selected[i] !in fs) || exists i, j :: 0 <= i < j < n && selected[i] == selected[j]
  }

  /** The declared ones among the first `n` selected fields, with their types. */
  ghost predicate Holds(output: map<string, DataType>, selected: seq<string>, fs: map<string, DataType>, n: nat)
    requires n <= |selected|
  {
    && (forall i | 0 <= i < n && selected[i] in fs :: selected[i] in output)
    && forall k | k in output :: k in fs && output[k] == fs[k] && exists i :: 0 <= i < n && selected[i] == k
  }

  lemma UnfitMore(selected: seq<string>, fs: map<string, DataType>, output: map<string, DataType>, n: nat)
    requires n < |selected| && Holds(output, selected, fs, n)
    ensures Unfit(selected, fs, n + 1) <==> Unfit(selected, fs, n) || selected[n] !in fs || selected[n] in output
  {
    if selected[n] in output {
      var i :| 0 <= i < n && selected[i] == selected[n];
      assert 0 <= i < n < n + 1;
    }
  }

  lemma HoldsMore(output: map<string, DataType>, selected: seq<string>, fs: map<string, DataType>, n: nat)
    requires n < |selected| && Holds(output, selected, fs, n)
    ensures Holds(if selected[n] in fs then output[selected[n] := fs[selected[n]]] else output, selected, fs, n + 1)
  {
    var more := if selected[n] in fs then output[selected[n] := fs[selected[n]]] else output;
    forall k | k in more ensures exists i :: 0 <= i < n + 1 && selected[i] == k {
      if k in output {
        var i :| 0 <= i < n && selected[i] == k;
        assert 0 <= i < n + 1;
      } else {
        assert selected[n] == k;
      }
    }
  }

  class Checker {
    const g: Linked
    var diagnostics: nat
    var ids: set<string>
    var nodes: nat
    var variables: Scope
    var done: seq<Key>
    var active: set<Key>
    var inFunction: bool

    ghost function St(): Spec.State
      reads this
    {
      Spec.State(diagnostics > 0, nodes, ids, done, active)
    }

    constructor (linked: Linked)
      ensures g == linked && St() == Spec.State(false, 0, {}, [], {}) && variables == map[] && !inFunction
    {
      g, diagnostics, ids, nodes, variables, done, active, inFunction := linked, 0, {}, 0, map[], [], {}, false;
    }

    // ----- Reports -----

    method Error()
      modifies this`diagnostics
      ensures St() == old(St()).Fail(true)
    {
      if diagnostics < MAX_DIAGNOSTICS { diagnostics := diagnostics + 1; }
    }

    method Report(bad: bool)
      modifies this`diagnostics
      ensures St() == old(St()).Fail(bad)
    {
      if bad { Error(); }
    }

    method Depth(depth: nat) returns (ok: bool)
      modifies this`diagnostics, this`nodes
      ensures (ok, St()) == Spec.Enter(depth, old(St()))
    {
      nodes := nodes + 1;
      ok := depth <= Spec.MAX_DEPTH && nodes <= Spec.MAX_BLOCKS;
      Report(!ok);
    }

    method CheckType(t: DataType)
      modifies this`diagnostics
      ensures St() == old(St()).Fail(!TypeOk(t, g.types))
    {
      var ok := ValidateType(t, g.types);
      Report(!ok);
    }

    method IsCompatible(source: DataType, target: DataType) returns (ok: bool)
      ensures ok <==> Compatible(source, target, g.types)
    {
      ok := ValidateType(source, g.types);
      if ok { ok := ValidateType(target, g.types); }
      ok := ok && Accepts(source, target);
    }

    method RequireCompatible(source: DataType, target: DataType)
      modifies this`diagnostics
      ensures St() == old(St()).Fail(!Compatible(source, target, g.types))
    {
      var ok := IsCompatible(source, target);
      Report(!ok);
    }

    // ----- Scopes -----

    method Bind(item: string, t: DataType) returns (previous: Option<DataType>)
      modifies this`variables
      ensures variables == old(variables)[item := t]
      ensures previous == if item in old(variables) then Some(old(variables)[item]) else None
    {
      previous := if item in variables then Some(variables[item]) else None;
      variables := variables[item := t];
    }

    /** Leaves the scope that `Bind` entered: back to the outer one, whatever the variable had hidden. */
    method RestoreVariable(item: string, previous: Option<DataType>, ghost outer: Scope, ghost t: DataType)
      requires variables == outer[item := t]
      requires previous == if item in outer then Some(outer[item]) else None
      modifies this`variables
      ensures variables == outer
    {
      if previous.Some? { variables := variables[item := previous.value]; } else { variables := variables - {item}; }
    }

    // ----- Functions -----

    method Declarations(key: Key, f: Function)
      modifies this`diagnostics
      ensures St() == old(St()).Fail(Spec.Misdeclared(g, key, f))
    {
      Report(!ValidId(key.name));
      var left := f.parameters.Keys;
      while left != {}
        invariant left <= f.parameters.Keys
        invariant St() == old(St()).Fail(!ValidId(key.name)
          || exists p :: p in f.parameters && p !in left && (!ValidId(p) || !TypeOk(f.parameters[p], g.types)))
        decreases left
      {
        var p :| p in left;
        Report(!ValidId(p));
        CheckType(f.parameters[p]);
        left := left - {p};
      }
      CheckType(f.output);
    }

    method Function_(key: Key, depth: nat) returns (t: Option<DataType>)
      modifies this
      ensures variables == old(variables) && inFunction == old(inFunction)
      ensures Spec.Typed(t, St()) == Spec.Function_(g, key, depth, old(St()))
      decreases Spec.Room(depth), 0, 0
    {
      var ok := Depth(depth);
      if !ok { return None; }
      if key !in g.library || key in active {
        Error();
        return None;
      }
      var f := g.library[key];
      if key in done { return Some(f.output); }
      active := active + {key};
      Declarations(key, f);
      var outer, outerIn := variables, inFunction;
      variables, inFunction := f.parameters, true;
      var actual := Expression(f.body, depth + 1);
      if actual.Some? { RequireCompatible(actual.value, f.output); }
      variables, inFunction := outer, outerIn;
      active, done := active - {key}, done + [key];
      t := Some(f.output);
    }

    // ----- Expressions -----

    method CollectionItem(value: Expr, item: string, depth: nat) returns (t: Option<DataType>)
      modifies this
      ensures variables == old(variables) && inFunction == old(inFunction)
      ensures Spec.Typed(t, St()) == Spec.CollectionItem(g, old(variables), old(inFunction), value, item, depth, old(St()))
      decreases Spec.Room(depth), 1, 0
    {
      Report(!ValidId(item));
      var source := Expression(value, depth);
      if source.None? { return None; }
      var r := Resolved(source.value, g.types);
      if r.None? { return None; }
      if r.value.List? { return Some(r.value.item); }
      Error();
      t := None;
    }

    method Projected(selected: seq<string>, fs: map<string, DataType>) returns (output: map<string, DataType>)
      modifies this`diagnostics
      ensures output == map k | k in selected && k in fs :: fs[k]
      ensures St() == old(St()).Fail(Unfit(selected, fs, |selected|))
    {
      output := map[];
      var n := 0;
      while n < |selected|
        invariant n <= |selected| && Holds(output, selected, fs, n)
        invariant St() == old(St()).Fail(Unfit(selected, fs, n))
      {
        UnfitMore(selected, fs, output, n);
        HoldsMore(output, selected, fs, n);
        var field := selected[n];
        Report(field !in fs || field in output);
        if field in fs { output := output[field := fs[field]]; }
        n := n + 1;
      }
    }

    method Operate(op: UnaryOp, t: DataType) returns (output: Option<DataType>)
      modifies this`diagnostics
      ensures Spec.Typed(output, St()) == Spec.Judge(Spec.Operate(g, op, t), old(St()))
    {
      var r := Resolved(t, g.types);
      match op
      case Construct(name) =>
        CheckType(Named(name));
        var target := Resolved(Named(name), g.types);
        if r.Some? && target.Some? { RequireCompatible(r.value, target.value); }
        output := Some(Named(name));
      case Take(_) =>
        Report(r.None? || !r.value.List?);
        output := Some(t);
      case Truncate(_) =>
        Report(r != Some(Text));
        output := Some(Text);
      case ToJson => output := Some(Text);
      case Measure(unit) =>
        if r.None? { return None; }
        Report(!Measurable(g, r.value, unit));
        output := Some(Number);
      case FieldOf(field) =>
        if r.None? { return None; }
        if r.value.Record? && field in r.value.fields { return Some(r.value.fields[field]); }
        Error();
        output := None;
      case Project(selected) =>
        if r.None? { return None; }
        if !r.value.Record? {
          Error();
          return None;
        }
        Report(selected == []);
        var fields := Projected(selected, r.value.fields);
        assert Unfit(selected, r.value.fields, |selected|) <==>
          ((exists i :: 0 <= i < |selected| && selected[i] !in r.value.fields)
           || exists i, j :: 0 <= i < j < |selected| && selected[i] == selected[j]);
        output := Some(Record(fields));
    }

    /** The types of all arguments, in order. */
    method Arguments(args: seq<Arg>, depth: nat) returns (ts: seq<Option<DataType>>)
      modifies this
      ensures variables == old(variables) && inFunction == old(inFunction)
      ensures (ts, St()) == Spec.Arguments(g, old(variables), old(inFunction), args, 0, depth, old(St()))
      decreases Spec.Room(depth), 1, 0
    {
      ghost var all := Spec.Arguments(g, variables, inFunction, args, 0, depth, St());
      ts := [];
      var i := 0;
      while i < |args|
        invariant i <= |args| && variables == old(variables) && inFunction == old(inFunction)
        invariant var rest := Spec.Arguments(g, variables, inFunction, args, i, depth, St());
          ts + rest.0 == all.0 && rest.1 == all.1
      {
        ghost var rest := Spec.Arguments(g, variables, inFunction, args, i, depth, St());
        var t := Expression(args[i].value, depth);
        assert rest.0 == [t] + rest.0[1..];
        assert ts + rest.0 == ts + [t] + rest.0[1..];
        ts, i := ts + [t], i + 1;
      }
      assert ts + [] == ts;
    }

    method Assemble(op: BuildOp, args: seq<Arg>, ts: seq<Option<DataType>>) returns (output: Option<DataType>)
      requires |ts| == |args|
      modifies this`diagnostics
      ensures Spec.Typed(output, St()) == Spec.Judge(Spec.Assemble(g, op, args, ts), old(St()))
    {
      match op
      case RecordOf =>
        var fields := Fields(args, ts);
        output := Some(Record(fields));
      case ListOf(itemType) =>
        CheckType(itemType);
        var i := 0;
        while i < |ts|
          invariant i <= |ts|
          invariant St() == old(St()).Fail(!TypeOk(itemType, g.types)
            || exists k :: 0 <= k < i && ts[k].Some? && !Compatible(ts[k].value, itemType, g.types))
        {
          if ts[i].Some? { RequireCompatible(ts[i].value, itemType); }
          i := i + 1;
        }
        output := Some(List(itemType));
      case Template(text) =>
        var parts := TemplateParts(text);
        var bad := parts.None? || Holes(parts.value) != ArgNames(args);
        Report(bad);
        var i := 0;
        while i < |ts|
          invariant i <= |ts|
          invariant St() == old(St()).Fail(bad || exists k :: 0 <= k < i && ts[k].Some? && Resolved(ts[k].value, g.types) != Some(Text))
        {
          if ts[i].Some? { Report(Resolved(ts[i].value, g.types) != Some(Text)); }
          i := i + 1;
        }
        output := Some(Text);
    }

    static method Fields(args: seq<Arg>, ts: seq<Option<DataType>>) returns (fields: map<string, DataType>)
      requires |ts| == |args|
      ensures fields == Spec.KnownFields(args, ts)
    {
      fields := map[];
      var i := 0;
      while i < |args|
        invariant i <= |args| && fields == Spec.KnownFields(args[..i], ts[..i])
      {
        assert args[..i + 1][..i] == args[..i] && ts[..i + 1][..i] == ts[..i];
        if ts[i].Some? { fields := fields[args[i].name := ts[i].value]; }
        i := i + 1;
      }
      assert args[..i] == args && ts[..i] == ts;
    }

    method Apply(key: Key, args: seq<Arg>, ts: seq<Option<DataType>>)
      requires |ts| == |args|
      modifies this`diagnostics
      ensures St() == old(St()).Fail(Spec.Misapplied(g, key, args, ts))
    {
      if key !in g.library { return; }
      var ps := g.library[key].parameters;
      Report(ArgNames(args) != ps.Keys);
      var i := 0;
      while i < |ts|
        invariant i <= |ts|
        invariant St() == old(St()).Fail(ArgNames(args) != ps.Keys
          || exists k :: 0 <= k < i && ts[k].Some? && args[k].name in ps && !Compatible(ts[k].value, ps[args[k].name], g.types))
      {
        if ts[i].Some? && args[i].name in ps { RequireCompatible(ts[i].value, ps[args[i].name]); }
        i := i + 1;
      }
    }

    /** The expression was entered from `st`. */
    ghost predicate Entered(depth: nat, st: Spec.State)
      reads this
    {
      Spec.Enter(depth, st) == (true, St())
    }

    method Filtered(e: Expr, depth: nat, ghost st: Spec.State) returns (t: Option<DataType>)
      requires e.Filter? && depth <= Spec.MAX_DEPTH && Entered(depth, st)
      modifies this
      ensures variables == old(variables) && inFunction == old(inFunction)
      ensures Spec.Typed(t, St()) == Spec.Expression(g, old(variables), old(inFunction), e, depth, st)
      decreases Spec.Room(depth), 0, 0
    {
      var ty := CollectionItem(e.value, e.item, depth + 1);
      if ty.None? { return None; }
      var previous := Bind(e.item, ty.value);
      Predicate(e.condition, depth + 1);
      RestoreVariable(e.item, previous, old(variables), ty.value);
      t := Some(List(ty.value));
    }

    method Regrouped(e: Expr, depth: nat, ghost st: Spec.State) returns (t: Option<DataType>)
      requires e.Keyed? && depth <= Spec.MAX_DEPTH && Entered(depth, st)
      modifies this
      ensures variables == old(variables) && inFunction == old(inFunction)
      ensures Spec.Typed(t, St()) == Spec.Expression(g, old(variables), old(inFunction), e, depth, st)
      decreases Spec.Room(depth), 0, 0
    {
      var ty := CollectionItem(e.value, e.item, depth + 1);
      if ty.None? { return None; }
      var previous := Bind(e.item, ty.value);
      var result := Expression(e.key, depth + 1);
      RestoreVariable(e.item, previous, old(variables), ty.value);
      if result.None? { return None; }
      var verdict := Spec.Regroup(g, e.keyedOp, ty.value, result.value);
      Report(verdict.bad);
      t := verdict.t;
    }

    method Called(e: Expr, depth: nat, ghost st: Spec.State) returns (t: Option<DataType>)
      requires e.Call? && depth <= Spec.MAX_DEPTH && Entered(depth, st)
      modifies this
      ensures variables == old(variables) && inFunction == old(inFunction)
      ensures Spec.Typed(t, St()) == Spec.Expression(g, old(variables), old(inFunction), e, depth, st)
      decreases Spec.Room(depth), 0, 0
    {
      t := Function_(e.function_, depth + 1);
      var ts := Arguments(e.args, depth + 1);
      Apply(e.function_, e.args, ts);
    }

    method Simple(e: Expr, depth: nat, ghost st: Spec.State) returns (t: Option<DataType>)
      requires (e.Variable? || e.Resource? || e.Literal?) && Entered(depth, st)
      modifies this`diagnostics
      ensures Spec.Typed(t, St()) == Spec.Expression(g, variables, inFunction, e, depth, st)
    {
      match e
      case Variable(name) =>
        if name in variables { return Some(variables[name]); }
        Error();
        t := None;
      case Resource(name) =>
        if !inFunction && name in g.requirements { return Some(g.requirements[name]); }
        Error();
        t := None;
      case Literal(dataType, json) =>
        CheckType(dataType);
        Report(!Inhabits(json, dataType, g.types));
        t := Some(dataType);
    }

    method Expression(e: Expr, depth: nat) returns (t: Option<DataType>)
      modifies this
      ensures variables == old(variables) && inFunction == old(inFunction)
      ensures Spec.Typed(t, St()) == Spec.Expression(g, old(variables), old(inFunction), e, depth, old(St()))
      decreases Spec.Room(depth), 0, 1
    {
      ghost var st := St();
      var ok := Depth(depth);
      if !ok { return None; }
      match e
      case Unary(op, value) =>
        var source := Expression(value, depth + 1);
        if source.Some? { t := Operate(op, source.value); }
        else { t := if op.ToJson? then Some(Text) else None; }
      case Filter(_, _, _) => t := Filtered(e, depth, st);
      case Keyed(_, _, _, _) => t := Regrouped(e, depth, st);
      case Build(op, args) =>
        var ts := Arguments(args, depth + 1);
        t := Assemble(op, args, ts);
      case Call(_, _) => t := Called(e, depth, st);
      case _ => t := Simple(e, depth, st);
    }

    // ----- Conditions -----

    method Predicate(p: Pred, depth: nat)
      modifies this
      ensures variables == old(variables) && inFunction == old(inFunction)
      ensures St() == Spec.Predicate(g, old(variables), old(inFunction), p, depth, old(St()))
      decreases Spec.Room(depth), 0, 0
    {
      var ok := Depth(depth);
      if !ok { return; }
      match p
      case Compare(left, op, right) =>
        var l := Expression(left, depth + 1);
        var r := Expression(right, depth + 1);
        Report(l.Some? && r.Some? && (l != r || (op != Ne && Resolved(l.value, g.types) != Some(Number))));
      case Contains(value, element) =>
        var v := Expression(value, depth + 1);
        var i := Expression(element, depth + 1);
        var r := if v.Some? then Resolved(v.value, g.types) else None;
        Report(r.Some? && i.Some? && !((r.value == Text && i.value == Text) || r.value == List(i.value)));
      case Present(value) => var _ := Expression(value, depth + 1);
      case Eq(left, right) =>
        var l := Expression(left, depth + 1);
        var r := Expression(right, depth + 1);
        Report(l.Some? && r.Some? && l != r);
      case And(items) =>
        Report(items == []);
        Predicates(items, depth + 1);
      case Or(items) =>
        Report(items == []);
        Predicates(items, depth + 1);
      case Not(item) => Predicate(item, depth + 1);
    }

    method Predicates(ps: seq<Pred>, depth: nat)
      modifies this
      ensures variables == old(variables) && inFunction == old(inFunction)
      ensures St() == Spec.Predicates(g, old(variables), old(inFunction), ps, 0, depth, old(St()))
      decreases Spec.Room(depth), 1, 0
    {
      ghost var all := Spec.Predicates(g, variables, inFunction, ps, 0, depth, St());
      var i := 0;
      while i < |ps|
        invariant i <= |ps| && variables == old(variables) && inFunction == old(inFunction)
        invariant Spec.Predicates(g, variables, inFunction, ps, i, depth, St()) == all
      {
        Predicate(ps[i], depth);
        i := i + 1;
      }
    }

    // ----- Blocks -----

    method Blocks(blocks: seq<Block>, depth: nat)
      requires !inFunction
      modifies this
      ensures variables == old(variables) && !inFunction
      ensures St() == Spec.Blocks(g, old(variables), blocks, 0, depth, old(St()))
      decreases Spec.Room(depth), 2, 0
    {
      ghost var all := Spec.Blocks(g, variables, blocks, 0, depth, St());
      var i := 0;
      while i < |blocks|
        invariant i <= |blocks| && variables == old(variables) && !inFunction
        invariant Spec.Blocks(g, variables, blocks, i, depth, St()) == all
      {
        var ok := Depth(depth);
        if !ok { return; }
        var b := blocks[i];
        Report(Blank(b.id) || b.id in ids);
        ids := ids + {b.id};
        BlockBody(b, depth);
        i := i + 1;
      }
    }

    method BlockBody(b: Block, depth: nat)
      requires depth <= Spec.MAX_DEPTH && !inFunction
      modifies this
      ensures variables == old(variables) && !inFunction
      ensures St() == Spec.BlockBody(g, old(variables), b, depth, old(St()))
      decreases Spec.Room(depth), 0, 0
    {
      match b
      case ForEach(_, value, item, items) =>
        var ty := CollectionItem(value, item, depth + 1);
        if ty.None? { return; }
        var previous := Bind(item, ty.value);
        Blocks(items, depth + 1);
        RestoreVariable(item, previous, old(variables), ty.value);
      case Group(_, title, items) =>
        Report(Blank(title));
        Blocks(items, depth + 1);
      case Emit(_, role, format, value) =>
        var t := Expression(value, depth + 1);
        Report(role == Instruction && format != AsText);
        if t.Some? && Resolved(t.value, g.types).Some? { Report(!FormatOk(g, t.value, format)); }
      case If(_, condition, yes, no) =>
        Predicate(condition, depth + 1);
        Blocks(yes, depth + 1);
        Blocks(no, depth + 1);
    }

    method Functions(keys: seq<Key>)
      modifies this
      ensures variables == old(variables) && inFunction == old(inFunction)
      ensures St() == Spec.Functions(g, keys, 0, old(St()))
    {
      ghost var all := Spec.Functions(g, keys, 0, St());
      var i := 0;
      while i < |keys|
        invariant i <= |keys| && variables == old(variables) && inFunction == old(inFunction)
        invariant Spec.Functions(g, keys, i, St()) == all
      {
        var _ := Function_(keys[i], 0);
        i := i + 1;
      }
    }

    // ----- Strategies -----

    method NamedTypes(named: map<string, DataType>)
      modifies this`diagnostics
      ensures St() == old(St()).Fail(exists n :: n in named && (Blank(n) || !TypeOk(named[n], g.types)))
    {
      var left := named.Keys;
      while left != {}
        invariant left <= named.Keys
        invariant St() == old(St()).Fail(exists n :: n in named && n !in left && (Blank(n) || !TypeOk(named[n], g.types)))
        decreases left
      {
        var n :| n in left;
        Report(Blank(n));
        CheckType(named[n]);
        left := left - {n};
      }
    }

    method Capabilities(cs: seq<Capability>)
      modifies this`diagnostics
      ensures St() == old(St()).Fail(BadCapabilities(g, cs, |cs|))
    {
      var seen: set<string> := {};
      var i := 0;
      while i < |cs|
        invariant i <= |cs| && seen == set k | 0 <= k < i :: cs[k].id
        invariant St() == old(St()).Fail(BadCapabilities(g, cs, i))
      {
        BadCapabilitiesMore(g, cs, i);
        Report(Blank(cs[i].id) || cs[i].id in seen);
        seen := seen + {cs[i].id};
        CheckType(cs[i].input);
        CheckType(cs[i].output);
        i := i + 1;
      }
    }

    method Header(s: Strategy)
      modifies this`diagnostics
      ensures St() == old(St()).Fail(Acceptance.Misstated(g, s))
    {
      Report(s.version != Acceptance.CONTEXT_VERSION && s.version != Acceptance.EXPLICIT_CONTEXT_VERSION);
      Report(!ValidId(s.id));
      Report(Blank(s.name));
      NamedTypes(s.types);
      NamedTypes(s.requirements);
      Capabilities(s.capabilities);
    }
  }

  /** One of the first `n` capabilities has a blank or repeated id or an invalid type. */
  ghost predicate BadCapabilities(g: Linked, cs: seq<Capability>, n: nat)
    requires n <= |cs|
  {
    || (exists i :: 0 <= i < n && Blank(cs[i].id))
    || (exists i, j :: 0 <= i < j < n && cs[i].id == cs[j].id)
    || exists i :: 0 <= i < n && (!TypeOk(cs[i].input, g.types) || !TypeOk(cs[i].output, g.types))
  }

  lemma BadCapabilitiesMore(g: Linked, cs: seq<Capability>, n: nat)
    requires n < |cs|
    ensures BadCapabilities(g, cs, n + 1) <==>
      BadCapabilities(g, cs, n) || Blank(cs[n].id) || cs[n].id in (set k | 0 <= k < n :: cs[k].id)
      || !TypeOk(cs[n].input, g.types) || !TypeOk(cs[n].output, g.types)
  {
    if cs[n].id in (set k | 0 <= k < n :: cs[k].id) {
      var k :| 0 <= k < n && cs[k].id == cs[n].id;
      assert 0 <= k < n < n + 1;
    }
  }

  /** `validate_strategy_with_library`: the header, every library function, then the program. */
  method Check(s: Strategy, external: Registry, library: Library, keys: seq<Key>) returns (ok: bool)
    ensures ok <==> Acceptance.Accepts_(s, external, library, keys)
  {
    if !Acceptance.Mergeable(s, external) { return false; }
    var check := new Checker(Acceptance.Link(s, external, library));
    check.Header(s);
    check.Functions(keys);
    check.Blocks(s.program, 0);
    ok := check.diagnostics == 0;
  }
}
