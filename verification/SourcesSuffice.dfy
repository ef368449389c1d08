/** The sources recorded for a value are all it depends on: in two worlds that agree on them it is the
    same (rust/crates/zf-context/src/context.rs, `Evaluator::expression`, `access`, `blocks`). With
    Provenance.dfy, which bounds them from above, this fixes what provenance means. */
module SourcesSuffice {
  import opened Base
  import opened Views
  import opened Syntax
  import opened Evaluation
  import opened Blocks
  import opened ReadDeterminism

  // ----- Sources are never forgotten within a block -----

  predicate Keeps(a: Core, b: Core) { a.used <= b.used }

  /** Sources were kept, and a missing resource is among them. */
  predicate Kept<T>(st: Core, o: Out<T>) {
    Keeps(st, o.st) && (o.r.Missing? ==> o.r.name in o.st.used)
  }

  // ----- Only reading a resource finds it missing -----

  lemma {:induction false} FillFails(w: World, parts: seq<Part>, i: nat, values: map<string, View>, text: string, st: Core)
    requires i <= |parts|
    ensures !Fill(w, parts, i, values, text, st).r.Missing?
    decreases |parts| - i
  {
    if i < |parts| {
      match parts[i]
      case Plain(x) => FillFails(w, parts, i + 1, values, text + x, st);
      case Hole(name) =>
        if name in values && AsValue(values[name]).Some? && AsValue(values[name]).value.Str? {
          FillFails(w, parts, i + 1, values, text + AsValue(values[name]).value.s, st);
        }
    }
  }

  lemma {:induction false} ChargeFails(w: World, codes: seq<(string, Entry)>, i: nat, st: Core)
    requires i <= |codes|
    ensures !ChargeCodes(w, codes, i, st).r.Missing?
    decreases |codes| - i
  {
    if i < |codes| {
      var o := Charge(w, Utf8Len(codes[i].0), st);
      if o.r.Ok? { ChargeFails(w, codes, i + 1, o.st); }
    }
  }

  lemma AssembleFails(w: World, op: BuildOp, args: seq<Arg>, bs: seq<Bound>, st: Core)
    requires |bs| == |args|
    ensures !Assemble(w, op, args, bs, st).r.Missing?
  {
    if op.Template? && TemplateParts(op.text).Some? {
      FillFails(w, TemplateParts(op.text).value, 0, BoundValues(args, bs), "", st);
    }
  }

  lemma RegroupFails(w: World, op: KeyedOp, es: seq<Entry>, st: Core)
    ensures !Regroup(w, op, es, st).r.Missing?
  {
    ChargeFails(w, Codes(w, es), 0, st);
  }

  lemma OperateFails(w: World, op: UnaryOp, v: View, st: Core)
    ensures !Operate(w, op, v, st).r.Missing?
  {
  }

  lemma {:induction false} MemberFails(w: World, v: View, x: View, st: Core)
    ensures !Member(w, v, x, st).r.Missing?
  {
    var n := Count(w, v, st);
    if n.r.Ok? { ContainsFails(w, v, x, n.r.value, 0, n.st); }
  }

  lemma {:induction false} ContainsFails(w: World, v: View, x: View, n: nat, i: nat, st: Core)
    requires i <= n
    ensures !ContainsLoop(w, v, x, n, i, st).r.Missing?
    decreases n - i
  {
    if i < n {
      var tick := Tick(w, st);
      if tick.r.Ok? { ContainsFails(w, v, x, n, i + 1, tick.st); }
    }
  }


  lemma {:induction false} ExpressionKeeps(w: World, env: Env, e: Expr, st: Core)
    ensures Kept(st, Expression(w, env, e, st))
    decreases Left(w, st), 0, 1
  {
    var tick := Tick(w, st);
    if tick.r.Ok? { EvaluateKeeps(w, env, e, tick.st); }
  }

  lemma {:induction false} EvaluateKeeps(w: World, env: Env, e: Expr, st: Core)
    ensures Kept(st, Evaluate(w, env, e, st))
    decreases Left(w, st), 3, 0
  {
    match e
    case Variable(_) =>
    case Resource(name) => ReadKeeps(w, name, st);
    case Literal(_, _) =>
    case Unary(op, value) =>
      ExpressionKeeps(w, env, value, st);
      var o := Expression(w, env, value, st);
      if o.r.Ok? { OperateFails(w, op, o.r.value, o.st); }
    case Filter(_, _, _) => FilteredKeeps(w, env, e, st);
    case Keyed(_, _, _, _) => RekeyedKeeps(w, env, e, st);
    case Build(_, _) => BuiltKeeps(w, env, e, st);
    case Call(key, args) => CalledKeeps(w, env, e, st);
  }

  lemma ReadKeeps(w: World, name: string, st: Core)
    ensures Kept(st, Read(w, name, st)) && name in Read(w, name, st).st.used
  {
  }

  lemma {:induction false} FilteredKeeps(w: World, env: Env, e: Expr, st: Core)
    requires e.Filter?
    ensures Kept(st, Filtered(w, env, e.value, e.item, e.condition, st))
    decreases Left(w, st), 2, 0
  {
    ExpressionKeeps(w, env, e.value, st);
    var o := Expression(w, env, e.value, st);
    if o.r.Ok? {
      var n := Count(w, o.r.value, o.st);
      if n.r.Ok? { FilterLoopKeeps(w, env, o.r.value, n.r.value, 0, e.item, e.condition, n.st.used, [], n.st); }
    }
  }

  lemma {:induction false} FilterStepKeeps(w: World, env: Env, source: View, i: nat, item: string, condition: Pred, sources: set<string>, st: Core)
    ensures Kept(st, FilterStep(w, env, source, i, item, condition, sources, st))
    decreases Left(w, st), 0, 2
  {
    var tick := Tick(w, st);
    if tick.r.Ok? && Index(source, i).Some? {
      PredicateKeeps(w, Bind(env, item, Index(source, i).value, sources), condition, tick.st);
    }
  }

  lemma {:induction false} FilterLoopKeeps(w: World, env: Env, source: View, n: nat, i: nat, item: string, condition: Pred,
    sources: set<string>, kept: seq<View>, st: Core)
    requires i <= n
    ensures Kept(st, FilterLoop(w, env, source, n, i, item, condition, sources, kept, st))
    decreases Left(w, st), 1, n - i
  {
    if i < n {
      FilterStepKeeps(w, env, source, i, item, condition, sources, st);
      FilterTurn(w, env, source, n, i, item, condition, sources, kept, st);
      var keep := FilterStep(w, env, source, i, item, condition, sources, st);
      if keep.r.Ok? {
        FilterLoopKeeps(w, env, source, n, i + 1, item, condition, sources,
          if keep.r.value then kept + [Index(source, i).value] else kept, keep.st);
      }
    }
  }

  lemma {:induction false} RekeyedKeeps(w: World, env: Env, e: Expr, st: Core)
    requires e.Keyed?
    ensures Kept(st, Rekeyed(w, env, e.keyedOp, e.value, e.item, e.key, st))
    decreases Left(w, st), 2, 0
  {
    ExpressionKeeps(w, env, e.value, st);
    var o := Expression(w, env, e.value, st);
    if o.r.Ok? {
      var n := Count(w, o.r.value, o.st);
      if n.r.Ok? {
        KeyedLoopKeeps(w, env, o.r.value, n.r.value, 0, e.item, e.key, !e.keyedOp.MapOp?, n.st.used, [], n.st);
        var es := KeyedLoop(w, env, o.r.value, n.r.value, 0, e.item, e.key, !e.keyedOp.MapOp?, n.st.used, [], n.st);
        if es.r.Ok? { RegroupFails(w, e.keyedOp, es.r.value, es.st); }
      }
    }
  }

  lemma {:induction false} KeyedStepKeeps(w: World, env: Env, source: View, i: nat, item: string, key: Expr, charged: bool, sources: set<string>, st: Core)
    ensures Kept(st, KeyedStep(w, env, source, i, item, key, charged, sources, st))
    decreases Left(w, st), 0, 2
  {
    var tick := Tick(w, st);
    if tick.r.Ok? && Index(source, i).Some? {
      ExpressionKeeps(w, Bind(env, item, Index(source, i).value, sources), key, tick.st);
    }
  }

  lemma {:induction false} KeyedLoopKeeps(w: World, env: Env, source: View, n: nat, i: nat, item: string, key: Expr, charged: bool,
    sources: set<string>, done: seq<Entry>, st: Core)
    requires i <= n
    ensures Kept(st, KeyedLoop(w, env, source, n, i, item, key, charged, sources, done, st))
    decreases Left(w, st), 1, n - i
  {
    if i < n {
      KeyedStepKeeps(w, env, source, i, item, key, charged, sources, st);
      KeyedTurn(w, env, source, n, i, item, key, charged, sources, done, st);
      var o := KeyedStep(w, env, source, i, item, key, charged, sources, st);
      if o.r.Ok? { KeyedLoopKeeps(w, env, source, n, i + 1, item, key, charged, sources, done + [o.r.value], o.st); }
    }
  }

  lemma {:induction false} ArgumentsKeep(w: World, env: Env, args: seq<Arg>, i: nat, done: seq<Bound>, st: Core)
    requires i == |done| <= |args|
    ensures Kept(st, Arguments(w, env, args, i, done, st))
    decreases Left(w, st), 1, |args| - i
  {
    if i < |args| {
      ExpressionKeeps(w, env, args[i].value, st);
      var v := Expression(w, env, args[i].value, st);
      if v.r.Ok? { ArgumentsKeep(w, env, args, i + 1, done + [Bound(v.r.value, v.st.used)], v.st); }
    }
  }

  lemma {:induction false} BuiltKeeps(w: World, env: Env, e: Expr, st: Core)
    requires e.Build?
    ensures Kept(st, Built(w, env, e.buildOp, e.args, st))
    decreases Left(w, st), 2, 0
  {
    var refused := Refused(w, e.buildOp, e.args, st);
    if refused.r.Ok? {
      ArgumentsKeep(w, env, e.args, 0, [], refused.st);
      var bs := Arguments(w, env, e.args, 0, [], refused.st);
      if bs.r.Ok? { AssembleFails(w, e.buildOp, e.args, bs.r.value, bs.st); }
    }
  }

  lemma {:induction false} CalledKeeps(w: World, env: Env, e: Expr, st: Core)
    requires e.Call?
    ensures Kept(st, Called(w, env, e.function_, e.args, st))
    decreases Left(w, st), 2, 0
  {
    if e.function_ in w.g.library {
      ArgumentsKeep(w, env, e.args, 0, [], st);
      var bs := Arguments(w, env, e.args, 0, [], st);
      if bs.r.Ok? {
        ExpressionKeeps(w, Env(BoundValues(e.args, bs.r.value), BoundReads(e.args, bs.r.value)), w.g.library[e.function_].body, bs.st);
      }
    }
  }

  lemma {:induction false} PredicateKeeps(w: World, env: Env, p: Pred, st: Core)
    ensures Kept(st, Predicate(w, env, p, st))
    decreases Left(w, st), 0, 1
  {
    var tick := Tick(w, st);
    if tick.r.Ok? { TestKeeps(w, env, p, tick.st); }
  }

  lemma {:induction false} TestKeeps(w: World, env: Env, p: Pred, st: Core)
    ensures Kept(st, Test(w, env, p, st))
    decreases Left(w, st), 3, 0
  {
    match p
    case Compare(left, _, right) => BothKeep(w, env, left, right, st);
    case Eq(left, right) => BothKeep(w, env, left, right, st);
    case Contains(value, element) =>
      BothKeep(w, env, value, element, st);
      var l := Expression(w, env, value, st);
      if l.r.Ok? {
        var r := Expression(w, env, element, l.st);
        if r.r.Ok? { MemberFails(w, l.r.value, r.r.value, r.st); }
      }
    case Present(value) => ExpressionKeeps(w, env, value, st);
    case And(items) => JunctionKeeps(w, env, items, 0, true, st);
    case Or(items) => JunctionKeeps(w, env, items, 0, false, st);
    case Not(item) => PredicateKeeps(w, env, item, st);
  }

  lemma {:induction false} BothKeep(w: World, env: Env, a: Expr, b: Expr, st: Core)
    ensures var l := Expression(w, env, a, st); Kept(st, l) && (l.r.Ok? ==> Kept(l.st, Expression(w, env, b, l.st)))
    decreases Left(w, st), 2, 0
  {
    ExpressionKeeps(w, env, a, st);
    var l := Expression(w, env, a, st);
    if l.r.Ok? { ExpressionKeeps(w, env, b, l.st); }
  }

  lemma {:induction false} JunctionKeeps(w: World, env: Env, items: seq<Pred>, i: nat, all: bool, st: Core)
    requires i <= |items|
    ensures Kept(st, Junction(w, env, items, i, all, st))
    decreases Left(w, st), 1, |items| - i
  {
    if i < |items| {
      PredicateKeeps(w, env, items[i], st);
      var p := Predicate(w, env, items[i], st);
      if p.r.Ok? && p.r.value == all { JunctionKeeps(w, env, items, i + 1, all, p.st); }
    }
  }

  // ----- Two worlds that agree on the sources -----

  function SourcesOf(env: Env, x: string): set<string> {
    if x in env.sources then env.sources[x] else {}
  }

  /** The same variables; one whose sources the worlds agree on has the same value, and the same sources. */
  ghost predicate Kin(w: World, v: World, a: Env, b: Env) {
    && a.values.Keys == b.values.Keys
    && forall x | x in a.values :: Agree(w, v, SourcesOf(a, x)) ==> b.values[x] == a.values[x] && SourcesOf(b, x) == SourcesOf(a, x)
  }

  /** Neither was reported, and the worlds agree on what the first used. */
  ghost predicate Comparable<T>(w: World, v: World, o: Out<T>, p: Out<T>) {
    !o.r.Invalid? && !p.r.Invalid? && Agree(w, v, o.st.used)
  }

  predicate Equal_<T(==)>(o: Out<T>, p: Out<T>) {
    o.r == p.r && o.st.used == p.st.used
  }

  lemma KinBind(w: World, v: World, a: Env, b: Env, item: string, value: View, sources: set<string>)
    requires Kin(w, v, a, b)
    ensures Kin(w, v, Bind(a, item, value, sources), Bind(b, item, value, sources))
  {
    var c, d := Bind(a, item, value, sources), Bind(b, item, value, sources);
    forall x | x in c.values && Agree(w, v, SourcesOf(c, x)) ensures d.values[x] == c.values[x] && SourcesOf(d, x) == SourcesOf(c, x) {
      if x != item { assert SourcesOf(c, x) == SourcesOf(a, x) && SourcesOf(d, x) == SourcesOf(b, x); }
    }
  }

  /** The bound on what came before follows from that on what came after. */
  lemma Earlier<T, U>(w: World, v: World, o: Out<T>, later: Out<U>)
    requires Agree(w, v, later.st.used) && Keeps(o.st, later.st)
    ensures Agree(w, v, o.st.used)
  {
  }

  // ----- Operations -----

  lemma ChargedEqual(w: World, v: World, x: View, s: Core, t: Core)
    requires Twin(w, v) && s.used == t.used
    ensures Weigh(w, x, s).r.Ok? && Weigh(v, x, t).r.Ok? ==> Weigh(w, x, s).r == Weigh(v, x, t).r
    ensures Count(w, x, s).r.Ok? && Count(v, x, t).r.Ok? ==> Count(w, x, s).r == Count(v, x, t).r
  {
  }

  lemma ConstructEqual(w: World, v: World, name: string, x: View, s: Core, t: Core)
    requires Twin(w, v) && s.used == t.used
    requires !Operate(w, Construct(name), x, s).r.Invalid? && !Operate(v, Construct(name), x, t).r.Invalid?
    ensures Equal_(Operate(w, Construct(name), x, s), Operate(v, Construct(name), x, t))
  {
  }

  lemma PartEqual(w: World, v: World, op: UnaryOp, x: View, s: Core, t: Core)
    requires Twin(w, v) && s.used == t.used && (op.FieldOf? || op.Project? || op.Take?)
    requires !Operate(w, op, x, s).r.Invalid? && !Operate(v, op, x, t).r.Invalid?
    ensures Equal_(Operate(w, op, x, s), Operate(v, op, x, t))
  {
    ChargedEqual(w, v, x, s, t);
  }

  lemma OperateEqual(w: World, v: World, op: UnaryOp, x: View, s: Core, t: Core)
    requires Twin(w, v) && s.used == t.used && !Operate(w, op, x, s).r.Invalid? && !Operate(v, op, x, t).r.Invalid?
    ensures Equal_(Operate(w, op, x, s), Operate(v, op, x, t))
  {
    ChargedEqual(w, v, x, s, t);
    match op
    case Construct(name) => ConstructEqual(w, v, name, x, s, t);
    case Truncate(_) =>
    case ToJson =>
    case Measure(_) =>
    case _ => PartEqual(w, v, op, x, s, t);
  }

  lemma {:induction false} FillEqual(w: World, v: World, parts: seq<Part>, i: nat, values: map<string, View>, text: string, s: Core, t: Core)
    requires Twin(w, v) && i <= |parts|
    requires Fill(w, parts, i, values, text, s).r.Ok? && Fill(v, parts, i, values, text, t).r.Ok?
    ensures Fill(w, parts, i, values, text, s).r == Fill(v, parts, i, values, text, t).r
    decreases |parts| - i
  {
    if i < |parts| {
      var next := match parts[i] case Plain(x) => x case Hole(name) => AsValue(values[name]).value.s;
      FillEqual(w, v, parts, i + 1, values, text + next, s, t);
    }
  }

  lemma AssembleEqual(w: World, v: World, op: BuildOp, args: seq<Arg>, bs: seq<Bound>, s: Core, t: Core)
    requires Twin(w, v) && |bs| == |args| && s.used == t.used
    requires !Assemble(w, op, args, bs, s).r.Invalid? && !Assemble(v, op, args, bs, t).r.Invalid?
    ensures Equal_(Assemble(w, op, args, bs, s), Assemble(v, op, args, bs, t))
  {
    if op.Template? {
      var parts := TemplateParts(op.text).value;
      FillFails(w, parts, 0, BoundValues(args, bs), "", s);
      FillFails(v, parts, 0, BoundValues(args, bs), "", t);
      FillEqual(w, v, parts, 0, BoundValues(args, bs), "", s, t);
    }
  }

  lemma RegroupEqual(w: World, v: World, op: KeyedOp, es: seq<Entry>, s: Core, t: Core)
    requires Twin(w, v) && s.used == t.used && !Regroup(w, op, es, s).r.Invalid? && !Regroup(v, op, es, t).r.Invalid?
    ensures Equal_(Regroup(w, op, es, s), Regroup(v, op, es, t))
  {
    assert Codes(v, es) == Codes(w, es);
    ChargeFails(w, Codes(w, es), 0, s);
    ChargeFails(v, Codes(w, es), 0, t);
  }

  // ----- Expressions -----

  /** The same outcome, where the two can be compared. */
  ghost predicate Matches(w: World, v: World, a: Env, b: Env, e: Expr, s: Core, t: Core) {
    var o, p := Expression(w, a, e, s), Expression(v, b, e, t);
    Comparable(w, v, o, p) ==> Equal_(o, p)
  }

  ghost predicate MatchYield(w: World, v: World, a: Env, b: Env, e: Expr, s: Core, t: Core) {
    var o, p := Evaluate(w, a, e, s), Evaluate(v, b, e, t);
    Comparable(w, v, o, p) ==> Equal_(o, p)
  }

  ghost predicate Pair(w: World, v: World, a: Env, b: Env, s: Core, t: Core) {
    Twin(w, v) && Kin(w, v, a, b) && s.used == t.used
  }

  lemma {:induction false} ExpressionMatches(w: World, v: World, a: Env, b: Env, e: Expr, s: Core, t: Core)
    requires Pair(w, v, a, b, s, t)
    ensures Matches(w, v, a, b, e, s, t)
    decreases Left(w, s), 0, 1
  {
    var x, y := Tick(w, s), Tick(v, t);
    if x.r.Ok? && y.r.Ok? { EvaluateMatches(w, v, a, b, e, x.st, y.st); }
  }

  lemma {:induction false} EvaluateMatches(w: World, v: World, a: Env, b: Env, e: Expr, s: Core, t: Core)
    requires Pair(w, v, a, b, s, t)
    ensures MatchYield(w, v, a, b, e, s, t)
    decreases Left(w, s), 3, 0
  {
    match e
    case Variable(name) => VariableMatches(w, v, a, b, name, s, t);
    case Resource(name) => ReadMatches(w, v, a, b, name, s, t);
    case Literal(_, _) =>
    case Unary(_, _) => UnaryMatches(w, v, a, b, e, s, t);
    case Filter(_, _, _) => FilterMatches(w, v, a, b, e, s, t);
    case Keyed(_, _, _, _) => KeyedMatches(w, v, a, b, e, s, t);
    case Build(_, _) => BuildMatches(w, v, a, b, e, s, t);
    case Call(_, _) => CallMatches(w, v, a, b, e, s, t);
  }

  lemma VariableMatches(w: World, v: World, a: Env, b: Env, name: string, s: Core, t: Core)
    requires Pair(w, v, a, b, s, t)
    ensures MatchYield(w, v, a, b, Variable(name), s, t)
  {
    var o, p := Lookup(a, name, s), Lookup(b, name, t);
    assert o.st.used == s.used + SourcesOf(a, name) && p.st.used == t.used + SourcesOf(b, name);
    if Comparable(w, v, o, p) { AgreeLess(w, v, o.st.used, SourcesOf(a, name)); }
  }

  lemma ReadMatches(w: World, v: World, a: Env, b: Env, name: string, s: Core, t: Core)
    requires Pair(w, v, a, b, s, t)
    ensures MatchYield(w, v, a, b, Resource(name), s, t)
  {
    ReadKeeps(w, name, s);
  }

  lemma {:induction false} UnaryMatches(w: World, v: World, a: Env, b: Env, e: Expr, s: Core, t: Core)
    requires Pair(w, v, a, b, s, t) && e.Unary?
    ensures MatchYield(w, v, a, b, e, s, t)
    decreases Left(w, s), 2, 0
  {
    var o, p := Expression(w, a, e.value, s), Expression(v, b, e.value, t);
    var x, y := Evaluate(w, a, e, s), Evaluate(v, b, e, t);
    ExpressionMatches(w, v, a, b, e.value, s, t);
    if Comparable(w, v, x, y) {
      assert x.st.used == o.st.used;
      if o.r.Ok? { OperateEqual(w, v, e.op, o.r.value, o.st, p.st); }
    }
  }

  lemma {:induction false} FilterMatches(w: World, v: World, a: Env, b: Env, e: Expr, s: Core, t: Core)
    requires Pair(w, v, a, b, s, t) && e.Filter?
    ensures MatchYield(w, v, a, b, e, s, t)
    decreases Left(w, s), 2, 0
  {
    var o, p := Expression(w, a, e.value, s), Expression(v, b, e.value, t);
    var x, y := Filtered(w, a, e.value, e.item, e.condition, s), Filtered(v, b, e.value, e.item, e.condition, t);
    assert Evaluate(w, a, e, s) == x && Evaluate(v, b, e, t) == y;
    ExpressionMatches(w, v, a, b, e.value, s, t);
    if Comparable(w, v, x, y) {
      if o.r.Ok? {
        var n := Count(w, o.r.value, o.st).r.value;
        var loop := FilterLoop(w, a, o.r.value, n, 0, e.item, e.condition, o.st.used, [], o.st);
        assert x == if loop.r.Ok? then Out(Ok(Array(loop.r.value)), loop.st) else Out(Fail(loop.r), loop.st);
        FilterLoopKeeps(w, a, o.r.value, n, 0, e.item, e.condition, o.st.used, [], o.st);
        Earlier(w, v, o, x);
        FilterLoopMatches(w, v, a, b, o.r.value, n, 0, e.item, e.condition, o.st.used, [], o.st, p.st);
      }
    }
  }

  ghost predicate StepMatches(w: World, v: World, a: Env, b: Env, source: View, i: nat, item: string, condition: Pred,
    sources: set<string>, s: Core, t: Core)
  {
    var o, p := FilterStep(w, a, source, i, item, condition, sources, s), FilterStep(v, b, source, i, item, condition, sources, t);
    Comparable(w, v, o, p) ==> Equal_(o, p)
  }

  lemma {:induction false} FilterStepMatches(w: World, v: World, a: Env, b: Env, source: View, i: nat, item: string, condition: Pred,
    sources: set<string>, s: Core, t: Core)
    requires Pair(w, v, a, b, s, t)
    ensures StepMatches(w, v, a, b, source, i, item, condition, sources, s, t)
    decreases Left(w, s), 0, 2
  {
    var x, y := Tick(w, s), Tick(v, t);
    if x.r.Ok? && y.r.Ok? && Index(source, i).Some? {
      var c, d := PairBind(w, v, a, b, item, Index(source, i).value, sources, s, t);
      PredicateMatches(w, v, c, d, condition, x.st, y.st);
      StepIsPredicate(w, v, a, b, c, d, source, i, item, condition, sources, s, t);
    } else {
      FilterStepStops(w, v, a, b, source, i, item, condition, sources, s, t);
    }
  }

  lemma FilterStepStops(w: World, v: World, a: Env, b: Env, source: View, i: nat, item: string, condition: Pred,
    sources: set<string>, s: Core, t: Core)
    requires !Tick(w, s).r.Ok? || !Tick(v, t).r.Ok? || Index(source, i).None?
    ensures StepMatches(w, v, a, b, source, i, item, condition, sources, s, t)
  {
  }

  lemma StepIsPredicate(w: World, v: World, a: Env, b: Env, c: Env, d: Env, source: View, i: nat, item: string, condition: Pred,
    sources: set<string>, s: Core, t: Core)
    requires Tick(w, s).r.Ok? && Tick(v, t).r.Ok? && Index(source, i).Some?
    requires c == Bind(a, item, Index(source, i).value, sources) && d == Bind(b, item, Index(source, i).value, sources)
    requires MatchTruth(w, v, c, d, condition, Tick(w, s).st, Tick(v, t).st)
    ensures StepMatches(w, v, a, b, source, i, item, condition, sources, s, t)
  {
    FilterStepDecides(w, a, source, i, item, condition, sources, s);
    FilterStepDecides(v, b, source, i, item, condition, sources, t);
  }

  lemma FilterStepDecides(w: World, env: Env, source: View, i: nat, item: string, condition: Pred, sources: set<string>, st: Core)
    requires Tick(w, st).r.Ok? && Index(source, i).Some?
    ensures FilterStep(w, env, source, i, item, condition, sources, st)
      == Predicate(w, Bind(env, item, Index(source, i).value, sources), condition, Tick(w, st).st)
  {
  }

  ghost predicate LoopMatches(w: World, v: World, a: Env, b: Env, source: View, n: nat, i: nat, item: string, condition: Pred,
    sources: set<string>, kept: seq<View>, s: Core, t: Core)
    requires i <= n
  {
    var o := FilterLoop(w, a, source, n, i, item, condition, sources, kept, s);
    var p := FilterLoop(v, b, source, n, i, item, condition, sources, kept, t);
    Comparable(w, v, o, p) ==> Equal_(o, p)
  }

  lemma {:induction false} FilterLoopMatches(w: World, v: World, a: Env, b: Env, source: View, n: nat, i: nat, item: string, condition: Pred,
    sources: set<string>, kept: seq<View>, s: Core, t: Core)
    requires i <= n && Pair(w, v, a, b, s, t)
    ensures LoopMatches(w, v, a, b, source, n, i, item, condition, sources, kept, s, t)
    decreases Left(w, s), 1, n - i
  {
    if i < n {
      var x := FilterStep(w, a, source, i, item, condition, sources, s);
      var y := FilterStep(v, b, source, i, item, condition, sources, t);
      FilterStepMatches(w, v, a, b, source, i, item, condition, sources, s, t);
      if x.r.Ok? {
        var next := if x.r.value then kept + [Index(source, i).value] else kept;
        FilterLoopKeeps(w, a, source, n, i + 1, item, condition, sources, next, x.st);
        if Equal_(x, y) {
          FilterLoopMatches(w, v, a, b, source, n, i + 1, item, condition, sources, next, x.st, y.st);
        }
      }
      LoopMatchesNext(w, v, a, b, source, n, i, item, condition, sources, kept, s, t);
    }
  }

  /** One element followed by the rest. */
  lemma LoopMatchesNext(w: World, v: World, a: Env, b: Env, source: View, n: nat, i: nat, item: string, condition: Pred,
    sources: set<string>, kept: seq<View>, s: Core, t: Core)
    requires i < n && StepMatches(w, v, a, b, source, i, item, condition, sources, s, t)
    requires var x := FilterStep(w, a, source, i, item, condition, sources, s);
      var y := FilterStep(v, b, source, i, item, condition, sources, t);
      x.r.Ok? ==>
        var next := if x.r.value then kept + [Index(source, i).value] else kept;
        && Keeps(x.st, FilterLoop(w, a, source, n, i + 1, item, condition, sources, next, x.st).st)
        && (Equal_(x, y) ==> LoopMatches(w, v, a, b, source, n, i + 1, item, condition, sources, next, x.st, y.st))
    ensures LoopMatches(w, v, a, b, source, n, i, item, condition, sources, kept, s, t)
  {
    FilterTurn(w, a, source, n, i, item, condition, sources, kept, s);
    FilterTurn(v, b, source, n, i, item, condition, sources, kept, t);
  }

  lemma {:induction false} KeyedMatches(w: World, v: World, a: Env, b: Env, e: Expr, s: Core, t: Core)
    requires Pair(w, v, a, b, s, t) && e.Keyed?
    ensures MatchYield(w, v, a, b, e, s, t)
    decreases Left(w, s), 2, 0
  {
    var o, p := Expression(w, a, e.value, s), Expression(v, b, e.value, t);
    var x, y := Rekeyed(w, a, e.keyedOp, e.value, e.item, e.key, s), Rekeyed(v, b, e.keyedOp, e.value, e.item, e.key, t);
    assert Evaluate(w, a, e, s) == x && Evaluate(v, b, e, t) == y;
    ExpressionMatches(w, v, a, b, e.value, s, t);
    if Comparable(w, v, x, y) {
      if o.r.Ok? {
        var n, charged := Count(w, o.r.value, o.st).r.value, !e.keyedOp.MapOp?;
        var loop := KeyedLoop(w, a, o.r.value, n, 0, e.item, e.key, charged, o.st.used, [], o.st);
        assert x == if loop.r.Ok? then Regroup(w, e.keyedOp, loop.r.value, loop.st) else Out(Fail(loop.r), loop.st);
        KeyedLoopKeeps(w, a, o.r.value, n, 0, e.item, e.key, charged, o.st.used, [], o.st);
        Earlier(w, v, o, x);
        KeyedLoopMatches(w, v, a, b, o.r.value, n, 0, e.item, e.key, charged, o.st.used, [], o.st, p.st);
        var pool := KeyedLoop(v, b, o.r.value, n, 0, e.item, e.key, charged, o.st.used, [], p.st);
        assert y == if pool.r.Ok? then Regroup(v, e.keyedOp, pool.r.value, pool.st) else Out(Fail(pool.r), pool.st);
        if loop.r.Ok? { RegroupEqual(w, v, e.keyedOp, loop.r.value, loop.st, pool.st); }
      }
    }
  }

  ghost predicate KeyMatches(w: World, v: World, a: Env, b: Env, source: View, i: nat, item: string, key: Expr, charged: bool,
    sources: set<string>, s: Core, t: Core)
  {
    var o, p := KeyedStep(w, a, source, i, item, key, charged, sources, s), KeyedStep(v, b, source, i, item, key, charged, sources, t);
    Comparable(w, v, o, p) ==> Equal_(o, p)
  }

  lemma {:induction false} KeyedStepMatches(w: World, v: World, a: Env, b: Env, source: View, i: nat, item: string, key: Expr, charged: bool,
    sources: set<string>, s: Core, t: Core)
    requires Pair(w, v, a, b, s, t)
    ensures KeyMatches(w, v, a, b, source, i, item, key, charged, sources, s, t)
    decreases Left(w, s), 0, 2
  {
    var x, y := Tick(w, s), Tick(v, t);
    if x.r.Ok? && y.r.Ok? && Index(source, i).Some? {
      var c, d := PairBind(w, v, a, b, item, Index(source, i).value, sources, s, t);
      ExpressionMatches(w, v, c, d, key, x.st, y.st);
      StepIsKey(w, v, a, b, c, d, source, i, item, key, charged, sources, s, t);
    } else {
      KeyedStepStops(w, v, a, b, source, i, item, key, charged, sources, s, t);
    }
  }

  lemma KeyedStepStops(w: World, v: World, a: Env, b: Env, source: View, i: nat, item: string, key: Expr, charged: bool,
    sources: set<string>, s: Core, t: Core)
    requires !Tick(w, s).r.Ok? || !Tick(v, t).r.Ok? || Index(source, i).None?
    ensures KeyMatches(w, v, a, b, source, i, item, key, charged, sources, s, t)
  {
  }

  lemma StepIsKey(w: World, v: World, a: Env, b: Env, c: Env, d: Env, source: View, i: nat, item: string, key: Expr, charged: bool,
    sources: set<string>, s: Core, t: Core)
    requires Twin(w, v) && Tick(w, s).r.Ok? && Tick(v, t).r.Ok? && Index(source, i).Some?
    requires c == Bind(a, item, Index(source, i).value, sources) && d == Bind(b, item, Index(source, i).value, sources)
    requires Matches(w, v, c, d, key, Tick(w, s).st, Tick(v, t).st)
    ensures KeyMatches(w, v, a, b, source, i, item, key, charged, sources, s, t)
  {
    KeyedStepKeys(w, a, source, i, item, key, charged, sources, s);
    KeyedStepKeys(v, b, source, i, item, key, charged, sources, t);
    KeepMatches(w, v, Expression(w, c, key, Tick(w, s).st), Expression(v, d, key, Tick(v, t).st), Index(source, i).value, charged);
  }

  /** An evaluated key, and keeping it. */
  function Keyed_(w: World, k: Out<View>, value: View, charged: bool): Out<Entry> {
    if k.r.Ok? then Keep(w, k.r.value, value, charged, k.st) else Out(Fail(k.r), k.st)
  }

  lemma KeyedStepKeys(w: World, env: Env, source: View, i: nat, item: string, key: Expr, charged: bool, sources: set<string>, st: Core)
    requires Tick(w, st).r.Ok? && Index(source, i).Some?
    ensures KeyedStep(w, env, source, i, item, key, charged, sources, st)
      == Keyed_(w, Expression(w, Bind(env, item, Index(source, i).value, sources), key, Tick(w, st).st), Index(source, i).value, charged)
  {
  }

  lemma KeepMatches(w: World, v: World, o: Out<View>, p: Out<View>, value: View, charged: bool)
    requires Twin(w, v) && (Comparable(w, v, o, p) ==> Equal_(o, p))
    ensures var x, y := Keyed_(w, o, value, charged), Keyed_(v, p, value, charged);
      Comparable(w, v, x, y) ==> Equal_(x, y)
  {
  }

  ghost predicate KeysMatch(w: World, v: World, a: Env, b: Env, source: View, n: nat, i: nat, item: string, key: Expr, charged: bool,
    sources: set<string>, done: seq<Entry>, s: Core, t: Core)
    requires i <= n
  {
    var o := KeyedLoop(w, a, source, n, i, item, key, charged, sources, done, s);
    var p := KeyedLoop(v, b, source, n, i, item, key, charged, sources, done, t);
    Comparable(w, v, o, p) ==> Equal_(o, p)
  }

  lemma {:induction false} KeyedLoopMatches(w: World, v: World, a: Env, b: Env, source: View, n: nat, i: nat, item: string, key: Expr, charged: bool,
    sources: set<string>, done: seq<Entry>, s: Core, t: Core)
    requires i <= n && Pair(w, v, a, b, s, t)
    ensures KeysMatch(w, v, a, b, source, n, i, item, key, charged, sources, done, s, t)
    decreases Left(w, s), 1, n - i
  {
    if i < n {
      var x := KeyedStep(w, a, source, i, item, key, charged, sources, s);
      var y := KeyedStep(v, b, source, i, item, key, charged, sources, t);
      KeyedStepMatches(w, v, a, b, source, i, item, key, charged, sources, s, t);
      if x.r.Ok? {
        KeyedLoopKeeps(w, a, source, n, i + 1, item, key, charged, sources, done + [x.r.value], x.st);
        if Equal_(x, y) {
          KeyedLoopMatches(w, v, a, b, source, n, i + 1, item, key, charged, sources, done + [x.r.value], x.st, y.st);
        }
      }
      KeysMatchNext(w, v, a, b, source, n, i, item, key, charged, sources, done, s, t);
    }
  }

  /** One element followed by the rest. */
  lemma KeysMatchNext(w: World, v: World, a: Env, b: Env, source: View, n: nat, i: nat, item: string, key: Expr, charged: bool,
    sources: set<string>, done: seq<Entry>, s: Core, t: Core)
    requires i < n && KeyMatches(w, v, a, b, source, i, item, key, charged, sources, s, t)
    requires var x := KeyedStep(w, a, source, i, item, key, charged, sources, s);
      var y := KeyedStep(v, b, source, i, item, key, charged, sources, t);
      x.r.Ok? ==>
        && Keeps(x.st, KeyedLoop(w, a, source, n, i + 1, item, key, charged, sources, done + [x.r.value], x.st).st)
        && (Equal_(x, y) ==> KeysMatch(w, v, a, b, source, n, i + 1, item, key, charged, sources, done + [x.r.value], x.st, y.st))
    ensures KeysMatch(w, v, a, b, source, n, i, item, key, charged, sources, done, s, t)
  {
    KeyedTurn(w, a, source, n, i, item, key, charged, sources, done, s);
    KeyedTurn(v, b, source, n, i, item, key, charged, sources, done, t);
  }

  ghost predicate ArgsMatch(w: World, v: World, a: Env, b: Env, args: seq<Arg>, i: nat, done: seq<Bound>, s: Core, t: Core)
    requires i == |done| <= |args|
  {
    var o, p := Arguments(w, a, args, i, done, s), Arguments(v, b, args, i, done, t);
    Comparable(w, v, o, p) ==> Equal_(o, p)
  }

  lemma {:induction false} ArgumentsMatch(w: World, v: World, a: Env, b: Env, args: seq<Arg>, i: nat, done: seq<Bound>, s: Core, t: Core)
    requires i == |done| <= |args| && Pair(w, v, a, b, s, t)
    ensures ArgsMatch(w, v, a, b, args, i, done, s, t)
    decreases Left(w, s), 1, |args| - i
  {
    if i < |args| {
      var x, y := Expression(w, a, args[i].value, s), Expression(v, b, args[i].value, t);
      ExpressionMatches(w, v, a, b, args[i].value, s, t);
      if x.r.Ok? {
        var next := done + [Bound(x.r.value, x.st.used)];
        ArgumentsKeep(w, a, args, i + 1, next, x.st);
        if x.st.used == y.st.used { ArgumentsMatch(w, v, a, b, args, i + 1, next, x.st, y.st); }
      }
    }
  }

  lemma {:induction false} BuildMatches(w: World, v: World, a: Env, b: Env, e: Expr, s: Core, t: Core)
    requires Pair(w, v, a, b, s, t) && e.Build?
    ensures MatchYield(w, v, a, b, e, s, t)
    decreases Left(w, s), 2, 0
  {
    var x, y := Built(w, a, e.buildOp, e.args, s), Built(v, b, e.buildOp, e.args, t);
    assert Evaluate(w, a, e, s) == x && Evaluate(v, b, e, t) == y;
    var f, h := Refused(w, e.buildOp, e.args, s), Refused(v, e.buildOp, e.args, t);
    if f.r.Ok? && h.r.Ok? {
      var o, p := Arguments(w, a, e.args, 0, [], f.st), Arguments(v, b, e.args, 0, [], h.st);
      ArgumentsMatch(w, v, a, b, e.args, 0, [], f.st, h.st);
      if Comparable(w, v, x, y) && o.r.Ok? { AssembleEqual(w, v, e.buildOp, e.args, o.r.value, o.st, p.st); }
    }
  }

  lemma {:induction false} CallMatches(w: World, v: World, a: Env, b: Env, e: Expr, s: Core, t: Core)
    requires Pair(w, v, a, b, s, t) && e.Call?
    ensures MatchYield(w, v, a, b, e, s, t)
    decreases Left(w, s), 2, 0
  {
    var x, y := Called(w, a, e.function_, e.args, s), Called(v, b, e.function_, e.args, t);
    assert Evaluate(w, a, e, s) == x && Evaluate(v, b, e, t) == y;
    if e.function_ in w.g.library {
      var o, p := Arguments(w, a, e.args, 0, [], s), Arguments(v, b, e.args, 0, [], t);
      ArgumentsMatch(w, v, a, b, e.args, 0, [], s, t);
      if Comparable(w, v, x, y) && o.r.Ok? {
        var inner := Env(BoundValues(e.args, o.r.value), BoundReads(e.args, o.r.value));
        ExpressionKeeps(w, inner, w.g.library[e.function_].body, o.st);
        Earlier(w, v, o, x);
        ExpressionMatches(w, v, inner, inner, w.g.library[e.function_].body, o.st, p.st);
      }
    }
  }

  /** Both bind the same element, after counting a step. */
  lemma PairBind(w: World, v: World, a: Env, b: Env, item: string, value: View, sources: set<string>, s: Core, t: Core)
    returns (c: Env, d: Env)
    requires Pair(w, v, a, b, s, t)
    ensures c == Bind(a, item, value, sources) && d == Bind(b, item, value, sources)
    ensures Pair(w, v, c, d, Tick(w, s).st, Tick(v, t).st)
  {
    c, d := Bind(a, item, value, sources), Bind(b, item, value, sources);
    KinBind(w, v, a, b, item, value, sources);
  }

  // ----- Conditions -----

  ghost predicate MatchTruth(w: World, v: World, a: Env, b: Env, p: Pred, s: Core, t: Core) {
    var x, y := Predicate(w, a, p, s), Predicate(v, b, p, t);
    Comparable(w, v, x, y) ==> Equal_(x, y)
  }

  ghost predicate MatchTest(w: World, v: World, a: Env, b: Env, p: Pred, s: Core, t: Core) {
    var x, y := Test(w, a, p, s), Test(v, b, p, t);
    Comparable(w, v, x, y) ==> Equal_(x, y)
  }

  lemma {:induction false} PredicateMatches(w: World, v: World, a: Env, b: Env, p: Pred, s: Core, t: Core)
    requires Pair(w, v, a, b, s, t)
    ensures MatchTruth(w, v, a, b, p, s, t)
    decreases Left(w, s), 0, 1
  {
    var x, y := Tick(w, s), Tick(v, t);
    if x.r.Ok? && y.r.Ok? { TestMatches(w, v, a, b, p, x.st, y.st); }
  }

  lemma {:induction false} TestMatches(w: World, v: World, a: Env, b: Env, p: Pred, s: Core, t: Core)
    requires Pair(w, v, a, b, s, t)
    ensures MatchTest(w, v, a, b, p, s, t)
    decreases Left(w, s), 3, 0
  {
    match p
    case Compare(_, _, _) => ComparisonMatches(w, v, a, b, p, s, t);
    case Eq(_, _) => ComparisonMatches(w, v, a, b, p, s, t);
    case Contains(_, _) => ContainsMatches(w, v, a, b, p, s, t);
    case Present(value) => ExpressionMatches(w, v, a, b, value, s, t);
    case And(items) => JunctionMatches(w, v, a, b, items, 0, true, s, t);
    case Or(items) => JunctionMatches(w, v, a, b, items, 0, false, s, t);
    case Not(item) => PredicateMatches(w, v, a, b, item, s, t);
  }

  /** Two operands, one after the other. */
  lemma {:induction false} OperandsMatch(w: World, v: World, a: Env, b: Env, left: Expr, right: Expr, s: Core, t: Core)
    requires Pair(w, v, a, b, s, t)
    ensures Matches(w, v, a, b, left, s, t)
    ensures var o, p := Expression(w, a, left, s), Expression(v, b, left, t);
      o.r.Ok? ==> Keeps(o.st, Expression(w, a, right, o.st).st) && (Equal_(o, p) ==> Matches(w, v, a, b, right, o.st, p.st))
    decreases Left(w, s), 2, 0
  {
    ExpressionMatches(w, v, a, b, left, s, t);
    var o, p := Expression(w, a, left, s), Expression(v, b, left, t);
    if o.r.Ok? {
      ExpressionKeeps(w, a, right, o.st);
      if Equal_(o, p) { ExpressionMatches(w, v, a, b, right, o.st, p.st); }
    }
  }

  lemma {:induction false} ComparisonMatches(w: World, v: World, a: Env, b: Env, p: Pred, s: Core, t: Core)
    requires Pair(w, v, a, b, s, t) && (p.Compare? || p.Eq?)
    ensures MatchTest(w, v, a, b, p, s, t)
    decreases Left(w, s), 2, 1
  {
    OperandsMatch(w, v, a, b, p.left, p.right, s, t);
    TestCompares(w, a, p, s);
    TestCompares(v, b, p, t);
  }

  /** What comparing makes of two outcomes. */
  ghost function Compared(w: World, env: Env, p: Pred, l: Out<View>): Out<bool>
    requires p.Compare? || p.Eq?
  {
    if !l.r.Ok? then Out(Fail(l.r), l.st)
    else
      var r := Expression(w, env, p.right, l.st);
      if !r.r.Ok? then Out(Fail(r.r), r.st)
      else if p.Compare? then CompareOut(p.operator, l.r.value, r.r.value, r.st)
      else Out(Ok(Equivalent(l.r.value, r.r.value)), r.st)
  }

  lemma TestCompares(w: World, env: Env, p: Pred, st: Core)
    requires p.Compare? || p.Eq?
    ensures Test(w, env, p, st) == Compared(w, env, p, Expression(w, env, p.left, st))
  {
  }

  lemma {:induction false} ContainsMatches(w: World, v: World, a: Env, b: Env, p: Pred, s: Core, t: Core)
    requires Pair(w, v, a, b, s, t) && p.Contains?
    ensures MatchTest(w, v, a, b, p, s, t)
    decreases Left(w, s), 2, 1
  {
    OperandsMatch(w, v, a, b, p.value, p.element, s, t);
    var x, y := Test(w, a, p, s), Test(v, b, p, t);
    var l, l1 := Expression(w, a, p.value, s), Expression(v, b, p.value, t);
    if Comparable(w, v, x, y) && l.r.Ok? && l1.r.Ok? {
      var r, r1 := Expression(w, a, p.element, l.st), Expression(v, b, p.element, l1.st);
      assert x.st.used == r.st.used;
      if r.r.Ok? && r1.r.Ok? { MemberEqual(w, v, l.r.value, r.r.value, r.st, r1.st); }
    }
  }

  lemma MemberEqual(w: World, v: World, x: View, y: View, s: Core, t: Core)
    requires Twin(w, v) && s.used == t.used && !Member(w, x, y, s).r.Invalid? && !Member(v, x, y, t).r.Invalid?
    ensures Equal_(Member(w, x, y, s), Member(v, x, y, t))
  {
    if !(AsValue(x).Some? && AsValue(x).value.Str?) {
      var n := Count(w, x, s).r.value;
      ContainsEqual(w, v, x, y, n, 0, s, t);
    }
  }

  lemma {:induction false} ContainsEqual(w: World, v: World, x: View, y: View, n: nat, i: nat, s: Core, t: Core)
    requires Twin(w, v) && i <= n && !ContainsLoop(w, x, y, n, i, s).r.Invalid? && !ContainsLoop(v, x, y, n, i, t).r.Invalid?
    ensures ContainsLoop(w, x, y, n, i, s).r == ContainsLoop(v, x, y, n, i, t).r
    decreases n - i
  {
    if i < n {
      var found := Index(x, i).Some? && Equivalent(Index(x, i).value, y);
      if !found { ContainsEqual(w, v, x, y, n, i + 1, Tick(w, s).st, Tick(v, t).st); }
    }
  }

  ghost predicate JunctionsMatch(w: World, v: World, a: Env, b: Env, items: seq<Pred>, i: nat, all: bool, s: Core, t: Core)
    requires i <= |items|
  {
    var x, y := Junction(w, a, items, i, all, s), Junction(v, b, items, i, all, t);
    Comparable(w, v, x, y) ==> Equal_(x, y)
  }

  lemma {:induction false} JunctionMatches(w: World, v: World, a: Env, b: Env, items: seq<Pred>, i: nat, all: bool, s: Core, t: Core)
    requires i <= |items| && Pair(w, v, a, b, s, t)
    ensures JunctionsMatch(w, v, a, b, items, i, all, s, t)
    decreases Left(w, s), 1, |items| - i
  {
    if i < |items| {
      var x, y := Predicate(w, a, items[i], s), Predicate(v, b, items[i], t);
      PredicateMatches(w, v, a, b, items[i], s, t);
      if x.r.Ok? && x.r.value == all {
        JunctionKeeps(w, a, items, i + 1, all, x.st);
        if x.st.used == y.st.used { JunctionMatches(w, v, a, b, items, i + 1, all, x.st, y.st); }
      }
    }
  }

  // ----- Blocks -----

  /** A fragment's sources determine it: evaluated in a world that agrees on them, with variables
      whose values their own sources determine, the same block gives the same value and sources. */
  lemma FragmentDependsOnSources(w: World, v: World, a: Env, b: Env, its: seq<Iteration>, block: Block, path: string, run: Run, other: Run)
    requires Twin(w, v) && Kin(w, v, a, b) && block.Emit?
    requires var x, y := One(w, a, its, block, path, run).items, One(v, b, its, block, path, other).items;
      |x| == 1 && |y| == 1 && x[0].Fragment? && Agree(w, v, x[0].sources)
    ensures var x, y := One(w, a, its, block, path, run).items[0], One(v, b, its, block, path, other).items[0];
      x.Fragment? && y.Fragment? && y.value == x.value && y.sources == x.sources && y.role == x.role && y.format == x.format
  {
    var s, t := run.core.(used := {}), other.core.(used := {});
    ExpressionMatches(w, v, a, b, block.value, s, t);
  }

  /** Every turn of a loop binds its variable together with the sources that determine it. */
  lemma TurnsStayKin(w: World, v: World, a: Env, b: Env, block: Block, i: nat, s: Core, t: Core)
    requires Twin(w, v) && Kin(w, v, a, b) && block.ForEach? && s.used == {} && t.used == {}
    requires var o, p := Expression(w, a, block.value, s), Expression(v, b, block.value, t);
      o.r.Ok? && p.r.Ok? && Index(o.r.value, i).Some? && Index(p.r.value, i).Some?
    ensures var o, p := Expression(w, a, block.value, s), Expression(v, b, block.value, t);
      Kin(w, v, Bind(a, block.item, Index(o.r.value, i).value, o.st.used), Bind(b, block.item, Index(p.r.value, i).value, p.st.used))
  {
    ExpressionMatches(w, v, a, b, block.value, s, t);
    var o, p := Expression(w, a, block.value, s), Expression(v, b, block.value, t);
    var c := Bind(a, block.item, Index(o.r.value, i).value, o.st.used);
    var d := Bind(b, block.item, Index(p.r.value, i).value, p.st.used);
    forall x | x in c.values && Agree(w, v, SourcesOf(c, x)) ensures d.values[x] == c.values[x] && SourcesOf(d, x) == SourcesOf(c, x) {
      if x != block.item { assert SourcesOf(c, x) == SourcesOf(a, x) && SourcesOf(d, x) == SourcesOf(b, x); }
    }
  }
}
