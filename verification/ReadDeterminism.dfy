/** An evaluation depends on the resources it reports having consulted, and on no others. */
module ReadDeterminism {
  import opened Base
  import opened Pointers
  import opened Views
  import opened Syntax
  import opened Evaluation
  import opened Blocks

  /** The same world but for its resources. */
  ghost predicate Twin(w: World, v: World) {
    v.g == w.g && v.limits == w.limits && v.encode == w.encode
  }

  /** Both have each named resource, with the same content, or neither has it. */
  predicate Agree(w: World, v: World, names: set<string>) {
    forall n | n in names :: (n in w.resources <==> n in v.resources) && (n in w.resources ==> w.resources[n] == v.resources[n])
  }

  lemma AgreeLess(w: World, v: World, names: set<string>, some: set<string>)
    requires Agree(w, v, names) && some <= names
    ensures Agree(w, v, some)
  {
  }

  lemma ReadSame(w: World, v: World, name: string, st: Core)
    requires Twin(w, v) && Agree(w, v, Read(w, name, st).st.allReads)
    ensures Read(v, name, st) == Read(w, name, st)
  {
    assert name in Read(w, name, st).st.allReads;
  }

  lemma {:induction false} FillSame(w: World, v: World, parts: seq<Part>, i: nat, values: map<string, View>, text: string, st: Core)
    requires Twin(w, v) && i <= |parts|
    ensures Fill(v, parts, i, values, text, st) == Fill(w, parts, i, values, text, st)
    decreases |parts| - i
  {
    if i < |parts| {
      match parts[i]
      case Plain(t) => FillSame(w, v, parts, i + 1, values, text + t, st);
      case Hole(name) =>
        if name in values && AsValue(values[name]).Some? && AsValue(values[name]).value.Str? {
          FillSame(w, v, parts, i + 1, values, text + AsValue(values[name]).value.s, st);
        }
    }
  }

  lemma {:induction false} ChargeCodesSame(w: World, v: World, codes: seq<(string, Entry)>, i: nat, st: Core)
    requires Twin(w, v) && i <= |codes|
    ensures ChargeCodes(v, codes, i, st) == ChargeCodes(w, codes, i, st)
    decreases |codes| - i
  {
    if i < |codes| {
      var o := Charge(w, Utf8Len(codes[i].0), st);
      assert o == Charge(v, Utf8Len(codes[i].0), st);
      if o.r.Ok? { ChargeCodesSame(w, v, codes, i + 1, o.st); }
    }
  }

  lemma OperateSame(w: World, v: World, op: UnaryOp, x: View, st: Core)
    requires Twin(w, v)
    ensures Operate(v, op, x, st) == Operate(w, op, x, st)
  {
    assert Weigh(v, x, st) == Weigh(w, x, st) && Count(v, x, st) == Count(w, x, st);
    match op
    case Construct(_) => assert ChargeValue(v, x, st) == ChargeValue(w, x, st);
    case Take(_) =>
    case Truncate(_) =>
    case ToJson =>
    case Measure(_) =>
    case FieldOf(_) =>
    case Project(_) =>
  }

  lemma AssembleSame(w: World, v: World, op: BuildOp, args: seq<Arg>, bs: seq<Bound>, st: Core)
    requires Twin(w, v) && |bs| == |args|
    ensures Assemble(v, op, args, bs, st) == Assemble(w, op, args, bs, st)
  {
    if op.Template? && TemplateParts(op.text).Some? {
      FillSame(w, v, TemplateParts(op.text).value, 0, BoundValues(args, bs), "", st);
    }
  }

  lemma RegroupSame(w: World, v: World, op: KeyedOp, es: seq<Entry>, st: Core)
    requires Twin(w, v)
    ensures Regroup(v, op, es, st) == Regroup(w, op, es, st)
  {
    assert Codes(v, es) == Codes(w, es);
    ChargeCodesSame(w, v, Codes(w, es), 0, st);
  }

  lemma KeepSame(w: World, v: World, key: View, value: View, charged: bool, st: Core)
    requires Twin(w, v)
    ensures Keep(v, key, value, charged, st) == Keep(w, key, value, charged, st)
  {
  }

  // ----- Expressions -----

  ghost predicate Same(w: World, v: World, env: Env, e: Expr, st: Core) {
    Expression(v, env, e, st) == Expression(w, env, e, st)
  }

  ghost predicate SameYield(w: World, v: World, env: Env, e: Expr, st: Core) {
    Evaluate(v, env, e, st) == Evaluate(w, env, e, st)
  }

  lemma {:induction false} ExpressionSame(w: World, v: World, env: Env, e: Expr, st: Core)
    requires Twin(w, v) && Agree(w, v, Expression(w, env, e, st).st.allReads)
    ensures Same(w, v, env, e, st)
    decreases Left(w, st), 0, 1
  {
    var tick := Tick(w, st);
    assert tick == Tick(v, st);
    if tick.r.Ok? { EvaluateSame(w, v, env, e, tick.st); }
  }

  lemma {:induction false} EvaluateSame(w: World, v: World, env: Env, e: Expr, st: Core)
    requires Twin(w, v) && Agree(w, v, Evaluate(w, env, e, st).st.allReads)
    ensures SameYield(w, v, env, e, st)
    decreases Left(w, st), 3, 0
  {
    match e
    case Variable(_) =>
    case Resource(name) => ReadSame(w, v, name, st);
    case Literal(_, _) =>
    case Unary(op, value) =>
      var o := Expression(w, env, value, st);
      AgreeLess(w, v, Evaluate(w, env, e, st).st.allReads, o.st.allReads);
      ExpressionSame(w, v, env, value, st);
      if o.r.Ok? { OperateSame(w, v, op, o.r.value, o.st); }
    case Filter(_, _, _) => FilterSame(w, v, env, e, st);
    case Keyed(_, _, _, _) => KeyedSame(w, v, env, e, st);
    case Build(_, _) => BuildSame(w, v, env, e, st);
    case Call(_, _) => CallSame(w, v, env, e, st);
  }

  lemma {:induction false} FilterSame(w: World, v: World, env: Env, e: Expr, st: Core)
    requires e.Filter? && Twin(w, v) && Agree(w, v, Filtered(w, env, e.value, e.item, e.condition, st).st.allReads)
    ensures Filtered(v, env, e.value, e.item, e.condition, st) == Filtered(w, env, e.value, e.item, e.condition, st)
    decreases Left(w, st), 2, 0
  {
    var all := Filtered(w, env, e.value, e.item, e.condition, st).st.allReads;
    var o := Expression(w, env, e.value, st);
    AgreeLess(w, v, all, o.st.allReads);
    ExpressionSame(w, v, env, e.value, st);
    if o.r.Ok? {
      var n := Count(w, o.r.value, o.st);
      assert n == Count(v, o.r.value, o.st);
      if n.r.Ok? {
        FilterLoopSame(w, v, env, o.r.value, n.r.value, 0, e.item, e.condition, n.st.used, [], n.st);
      }
    }
  }

  lemma {:induction false} FilterLoopSame(w: World, v: World, env: Env, source: View, n: nat, i: nat, item: string, condition: Pred,
    sources: set<string>, kept: seq<View>, st: Core)
    requires i <= n && Twin(w, v)
    requires Agree(w, v, FilterLoop(w, env, source, n, i, item, condition, sources, kept, st).st.allReads)
    ensures FilterLoop(v, env, source, n, i, item, condition, sources, kept, st)
         == FilterLoop(w, env, source, n, i, item, condition, sources, kept, st)
    decreases Left(w, st), 1, n - i
  {
    if i < n {
      var all := FilterLoop(w, env, source, n, i, item, condition, sources, kept, st).st.allReads;
      var keep := FilterStep(w, env, source, i, item, condition, sources, st);
      AgreeLess(w, v, all, keep.st.allReads);
      FilterStepSame(w, v, env, source, i, item, condition, sources, st);
      if keep.r.Ok? {
        FilterLoopSame(w, v, env, source, n, i + 1, item, condition, sources,
          if keep.r.value then kept + [Index(source, i).value] else kept, keep.st);
      }
    }
  }

  lemma {:induction false} FilterStepSame(w: World, v: World, env: Env, source: View, i: nat, item: string, condition: Pred,
    sources: set<string>, st: Core)
    requires Twin(w, v) && Agree(w, v, FilterStep(w, env, source, i, item, condition, sources, st).st.allReads)
    ensures FilterStep(v, env, source, i, item, condition, sources, st) == FilterStep(w, env, source, i, item, condition, sources, st)
    decreases Left(w, st), 0, 2
  {
    var tick := Tick(w, st);
    assert tick == Tick(v, st);
    if tick.r.Ok? && Index(source, i).Some? {
      PredicateSame(w, v, Bind(env, item, Index(source, i).value, sources), condition, tick.st);
    }
  }

  lemma {:induction false} KeyedSame(w: World, v: World, env: Env, e: Expr, st: Core)
    requires e.Keyed? && Twin(w, v) && Agree(w, v, Rekeyed(w, env, e.keyedOp, e.value, e.item, e.key, st).st.allReads)
    ensures Rekeyed(v, env, e.keyedOp, e.value, e.item, e.key, st) == Rekeyed(w, env, e.keyedOp, e.value, e.item, e.key, st)
    decreases Left(w, st), 2, 0
  {
    var all := Rekeyed(w, env, e.keyedOp, e.value, e.item, e.key, st).st.allReads;
    var o := Expression(w, env, e.value, st);
    AgreeLess(w, v, all, o.st.allReads);
    ExpressionSame(w, v, env, e.value, st);
    if o.r.Ok? {
      var n := Count(w, o.r.value, o.st);
      assert n == Count(v, o.r.value, o.st);
      if n.r.Ok? {
        var es := KeyedLoop(w, env, o.r.value, n.r.value, 0, e.item, e.key, !e.keyedOp.MapOp?, n.st.used, [], n.st);
        AgreeLess(w, v, all, es.st.allReads);
        KeyedLoopSame(w, v, env, o.r.value, n.r.value, 0, e.item, e.key, !e.keyedOp.MapOp?, n.st.used, [], n.st);
        if es.r.Ok? { RegroupSame(w, v, e.keyedOp, es.r.value, es.st); }
      }
    }
  }

  lemma {:induction false} KeyedLoopSame(w: World, v: World, env: Env, source: View, n: nat, i: nat, item: string, key: Expr, charged: bool,
    sources: set<string>, done: seq<Entry>, st: Core)
    requires i <= n && Twin(w, v)
    requires Agree(w, v, KeyedLoop(w, env, source, n, i, item, key, charged, sources, done, st).st.allReads)
    ensures KeyedLoop(v, env, source, n, i, item, key, charged, sources, done, st)
         == KeyedLoop(w, env, source, n, i, item, key, charged, sources, done, st)
    decreases Left(w, st), 1, n - i
  {
    if i < n {
      var all := KeyedLoop(w, env, source, n, i, item, key, charged, sources, done, st).st.allReads;
      var o := KeyedStep(w, env, source, i, item, key, charged, sources, st);
      AgreeLess(w, v, all, o.st.allReads);
      KeyedStepSame(w, v, env, source, i, item, key, charged, sources, st);
      if o.r.Ok? {
        KeyedLoopSame(w, v, env, source, n, i + 1, item, key, charged, sources, done + [o.r.value], o.st);
      }
    }
  }

  lemma {:induction false} KeyedStepSame(w: World, v: World, env: Env, source: View, i: nat, item: string, key: Expr, charged: bool,
    sources: set<string>, st: Core)
    requires Twin(w, v) && Agree(w, v, KeyedStep(w, env, source, i, item, key, charged, sources, st).st.allReads)
    ensures KeyedStep(v, env, source, i, item, key, charged, sources, st) == KeyedStep(w, env, source, i, item, key, charged, sources, st)
    decreases Left(w, st), 0, 2
  {
    var all := KeyedStep(w, env, source, i, item, key, charged, sources, st).st.allReads;
    var tick := Tick(w, st);
    assert tick == Tick(v, st);
    if tick.r.Ok? && Index(source, i).Some? {
      var inner := Bind(env, item, Index(source, i).value, sources);
      AgreeLess(w, v, all, Expression(w, inner, key, tick.st).st.allReads);
      ExpressionSame(w, v, inner, key, tick.st);
      var k := Expression(w, inner, key, tick.st);
      if k.r.Ok? { KeepSame(w, v, k.r.value, Index(source, i).value, charged, k.st); }
    }
  }

  lemma {:induction false} ArgumentsSame(w: World, v: World, env: Env, args: seq<Arg>, i: nat, done: seq<Bound>, st: Core)
    requires i == |done| <= |args| && Twin(w, v) && Agree(w, v, Arguments(w, env, args, i, done, st).st.allReads)
    ensures Arguments(v, env, args, i, done, st) == Arguments(w, env, args, i, done, st)
    decreases Left(w, st), 1, |args| - i
  {
    if i < |args| {
      var o := Expression(w, env, args[i].value, st);
      AgreeLess(w, v, Arguments(w, env, args, i, done, st).st.allReads, o.st.allReads);
      ExpressionSame(w, v, env, args[i].value, st);
      if o.r.Ok? { ArgumentsSame(w, v, env, args, i + 1, done + [Bound(o.r.value, o.st.used)], o.st); }
    }
  }

  lemma {:induction false} BuildSame(w: World, v: World, env: Env, e: Expr, st: Core)
    requires e.Build? && Twin(w, v) && Agree(w, v, Built(w, env, e.buildOp, e.args, st).st.allReads)
    ensures Built(v, env, e.buildOp, e.args, st) == Built(w, env, e.buildOp, e.args, st)
    decreases Left(w, st), 2, 0
  {
    var refused := Refused(w, e.buildOp, e.args, st);
    assert refused == Refused(v, e.buildOp, e.args, st);
    if refused.r.Ok? {
      var bs := Arguments(w, env, e.args, 0, [], refused.st);
      AgreeLess(w, v, Built(w, env, e.buildOp, e.args, st).st.allReads, bs.st.allReads);
      ArgumentsSame(w, v, env, e.args, 0, [], refused.st);
      if bs.r.Ok? { AssembleSame(w, v, e.buildOp, e.args, bs.r.value, bs.st); }
    }
  }

  lemma {:induction false} CallSame(w: World, v: World, env: Env, e: Expr, st: Core)
    requires e.Call? && Twin(w, v) && Agree(w, v, Called(w, env, e.function_, e.args, st).st.allReads)
    ensures Called(v, env, e.function_, e.args, st) == Called(w, env, e.function_, e.args, st)
    decreases Left(w, st), 2, 0
  {
    if e.function_ in w.g.library {
      var bs := Arguments(w, env, e.args, 0, [], st);
      AgreeLess(w, v, Called(w, env, e.function_, e.args, st).st.allReads, bs.st.allReads);
      ArgumentsSame(w, v, env, e.args, 0, [], st);
      if bs.r.Ok? {
        ExpressionSame(w, v, Env(BoundValues(e.args, bs.r.value), BoundReads(e.args, bs.r.value)),
          w.g.library[e.function_].body, bs.st);
      }
    }
  }

  // ----- Conditions -----

  ghost predicate SameTest(w: World, v: World, env: Env, p: Pred, st: Core) {
    Test(v, env, p, st) == Test(w, env, p, st)
  }

  lemma {:induction false} PredicateSame(w: World, v: World, env: Env, p: Pred, st: Core)
    requires Twin(w, v) && Agree(w, v, Predicate(w, env, p, st).st.allReads)
    ensures Predicate(v, env, p, st) == Predicate(w, env, p, st)
    decreases Left(w, st), 0, 1
  {
    var tick := Tick(w, st);
    assert tick == Tick(v, st);
    if tick.r.Ok? { TestSame(w, v, env, p, tick.st); }
  }

  lemma {:induction false} TestSame(w: World, v: World, env: Env, p: Pred, st: Core)
    requires Twin(w, v) && Agree(w, v, Test(w, env, p, st).st.allReads)
    ensures SameTest(w, v, env, p, st)
    decreases Left(w, st), 3, 0
  {
    match p
    case Compare(left, _, right) => PairSame(w, v, env, p, left, right, st);
    case Eq(left, right) => PairSame(w, v, env, p, left, right, st);
    case Contains(value, element) => PairSame(w, v, env, p, value, element, st);
    case Present(value) => ExpressionSame(w, v, env, value, st);
    case And(items) => JunctionSame(w, v, env, items, 0, true, st);
    case Or(items) => JunctionSame(w, v, env, items, 0, false, st);
    case Not(item) => PredicateSame(w, v, env, item, st);
  }

  lemma {:induction false} PairSame(w: World, v: World, env: Env, p: Pred, a: Expr, b: Expr, st: Core)
    requires Twin(w, v) && Agree(w, v, Test(w, env, p, st).st.allReads)
    requires (p.Compare? && a == p.left && b == p.right) || (p.Eq? && a == p.left && b == p.right)
          || (p.Contains? && a == p.value && b == p.element)
    ensures SameTest(w, v, env, p, st)
    decreases Left(w, st), 2, 0
  {
    var all := Test(w, env, p, st).st.allReads;
    var l := Expression(w, env, a, st);
    AgreeLess(w, v, all, l.st.allReads);
    ExpressionSame(w, v, env, a, st);
    if l.r.Ok? {
      var r := Expression(w, env, b, l.st);
      AgreeLess(w, v, all, r.st.allReads);
      ExpressionSame(w, v, env, b, l.st);
      if r.r.Ok? && p.Contains? { MemberSame(w, v, l.r.value, r.r.value, r.st); }
    }
  }

  lemma MemberSame(w: World, v: World, x: View, y: View, st: Core)
    requires Twin(w, v)
    ensures Member(v, x, y, st) == Member(w, x, y, st)
  {
    var n := Count(w, x, st);
    assert n == Count(v, x, st);
    if n.r.Ok? { ContainsLoopSame(w, v, x, y, n.r.value, 0, n.st); }
  }

  lemma {:induction false} ContainsLoopSame(w: World, v: World, x: View, y: View, n: nat, i: nat, st: Core)
    requires Twin(w, v) && i <= n
    ensures ContainsLoop(v, x, y, n, i, st) == ContainsLoop(w, x, y, n, i, st)
    decreases n - i
  {
    if i < n {
      var tick := Tick(w, st);
      assert tick == Tick(v, st);
      if tick.r.Ok? { ContainsLoopSame(w, v, x, y, n, i + 1, tick.st); }
    }
  }

  lemma {:induction false} JunctionSame(w: World, v: World, env: Env, items: seq<Pred>, i: nat, all: bool, st: Core)
    requires i <= |items| && Twin(w, v) && Agree(w, v, Junction(w, env, items, i, all, st).st.allReads)
    ensures Junction(v, env, items, i, all, st) == Junction(w, env, items, i, all, st)
    decreases Left(w, st), 1, |items| - i
  {
    if i < |items| {
      var p := Predicate(w, env, items[i], st);
      AgreeLess(w, v, Junction(w, env, items, i, all, st).st.allReads, p.st.allReads);
      PredicateSame(w, v, env, items[i], st);
      if p.r.Ok? && p.r.value == all { JunctionSame(w, v, env, items, i + 1, all, p.st); }
    }
  }

  // ----- Blocks -----

  lemma {:induction false} AllSame(w: World, v: World, env: Env, its: seq<Iteration>, blocks: seq<Block>, i: nat, path: string, done: seq<Item>, run: Run)
    requires i <= |blocks| && Twin(w, v) && Agree(w, v, All(w, env, its, blocks, i, path, done, run).1.core.allReads)
    ensures All(v, env, its, blocks, i, path, done, run) == All(w, env, its, blocks, i, path, done, run)
    decreases Left(w, run.core), 1, |blocks| - i
  {
    if i < |blocks| {
      var tick := Tick(w, run.core);
      assert tick == Tick(v, run.core);
      var r := run.(core := tick.st);
      if tick.r.Ok? && |r.trace| < w.limits.maxItems {
        var b := One(w, env, its, blocks[i], At(path, i), r);
        AgreeLess(w, v, All(w, env, its, blocks, i, path, done, run).1.core.allReads, b.run.core.allReads);
        OneSame(w, v, env, its, blocks[i], At(path, i), r);
        AllSame(w, v, env, its, blocks, i + 1, path, done + b.items, b.run);
      }
    }
  }

  lemma {:induction false} OneSame(w: World, v: World, env: Env, its: seq<Iteration>, b: Block, path: string, run: Run)
    requires Twin(w, v) && Agree(w, v, One(w, env, its, b, path, run).run.core.allReads)
    ensures One(v, env, its, b, path, run) == One(w, env, its, b, path, run)
    decreases Left(w, run.core), 3, 0
  {
    var (id, ids) := OccurrenceId(run.ids, b.id, path, its != []);
    var inner := run.(ids := ids, core := run.core.(used := {}));
    var body := Body(w, env, its, b, id, path, inner);
    AgreeLess(w, v, One(w, env, its, b, path, run).run.core.allReads, body.run.core.allReads);
    BodySame(w, v, env, its, b, id, path, inner);
    assert Record_(v, b, id, path, its, body) == Record_(w, b, id, path, its, body);
  }

  ghost predicate SameBody(w: World, v: World, env: Env, its: seq<Iteration>, b: Block, id: string, path: string, run: Run) {
    Body(v, env, its, b, id, path, run) == Body(w, env, its, b, id, path, run)
  }

  lemma {:induction false} BodySame(w: World, v: World, env: Env, its: seq<Iteration>, b: Block, id: string, path: string, run: Run)
    requires Twin(w, v) && Agree(w, v, Body(w, env, its, b, id, path, run).run.core.allReads)
    ensures SameBody(w, v, env, its, b, id, path, run)
    decreases Left(w, run.core), 2, 1
  {
    match b
    case Group(_, _, items) =>
      var (ok, r) := CountOutput(w, run);
      assert (ok, r) == CountOutput(v, run);
      if ok { AllSame(w, v, env, its, items, 0, path + ".items", [], r); }
    case Emit(_, _, _, value) =>
      var o := Expression(w, env, value, run.core);
      AgreeLess(w, v, Body(w, env, its, b, id, path, run).run.core.allReads, o.st.allReads);
      ExpressionSame(w, v, env, value, run.core);
      if o.r.Ok? { assert Output(v, b, id, o.r.value, run.(core := o.st)) == Output(w, b, id, o.r.value, run.(core := o.st)); }
    case If(_, condition, yes, no) =>
      var o := Predicate(w, env, condition, run.core);
      AgreeLess(w, v, Body(w, env, its, b, id, path, run).run.core.allReads, o.st.allReads);
      PredicateSame(w, v, env, condition, run.core);
      if o.r.Ok? {
        AllSame(w, v, env, its, if o.r.value then yes else no, 0, path + (if o.r.value then ".then" else ".else"), [], run.(core := o.st));
      }
    case ForEach(_, _, _, _) => ForEachSame(w, v, env, its, b, id, path, run);
  }

  lemma {:induction false} ForEachSame(w: World, v: World, env: Env, its: seq<Iteration>, b: Block, id: string, path: string, run: Run)
    requires b.ForEach? && Twin(w, v) && Agree(w, v, Body(w, env, its, b, id, path, run).run.core.allReads)
    ensures SameBody(w, v, env, its, b, id, path, run)
    decreases Left(w, run.core), 2, 0
  {
    var o := Expression(w, env, b.value, run.core);
    AgreeLess(w, v, Body(w, env, its, b, id, path, run).run.core.allReads, o.st.allReads);
    ExpressionSame(w, v, env, b.value, run.core);
    if o.r.Ok? {
      var n := Count(w, o.r.value, o.st);
      assert n == Count(v, o.r.value, o.st);
      if n.r.Ok? { LoopSame(w, v, env, its, b, o.r.value, n.r.value, 0, o.st.used, path, [], run.(core := o.st)); }
    }
  }

  lemma {:induction false} LoopSame(w: World, v: World, env: Env, its: seq<Iteration>, b: Block, source: View, n: nat, i: nat,
    sources: set<string>, path: string, done: seq<Item>, run: Run)
    requires b.ForEach? && i <= n && Twin(w, v)
    requires Agree(w, v, Loop(w, env, its, b, source, n, i, sources, path, done, run).1.core.allReads)
    ensures Loop(v, env, its, b, source, n, i, sources, path, done, run) == Loop(w, env, its, b, source, n, i, sources, path, done, run)
    decreases Left(w, run.core), 1, n - i
  {
    if i < n {
      var tick := Tick(w, run.core);
      assert tick == Tick(v, run.core);
      var r := run.(core := tick.st);
      if tick.r.Ok? && |r.trace| < w.limits.maxItems {
        var x := Index(source, i);
        if x.None? {
          LoopSame(w, v, env, its, b, source, n, i + 1, sources, path, done, r);
        } else {
          var (items, r1) := Turn(w, env, its, b, x.value, i, sources, path, r);
          AgreeLess(w, v, Loop(w, env, its, b, source, n, i, sources, path, done, run).1.core.allReads, r1.core.allReads);
          AllSame(w, v, Bind(env, b.item, x.value, sources), its + [Iteration(b.id, i)], b.items, 0,
            path + ".iterations[" + Decimal(i) + "].items", [], r);
          LoopSame(w, v, env, its, b, source, n, i + 1, sources, path, done + items, r1);
        }
      }
    }
  }

  /** If two resource maps agree on every resource that one evaluation consulted, present or absent, the
      other evaluation is the same: items, needs, reports, consulted resources and trace. */
  lemma EvaluationDependsOnReads(w: World, v: World, program: seq<Block>)
    requires Twin(w, v) && Agree(w, v, Evaluation_(w, program).run.core.allReads)
    ensures Evaluation_(v, program) == Evaluation_(w, program)
  {
    var ids := set i | 0 <= i < |BlockIds(program)| :: BlockIds(program)[i];
    AllSame(w, v, Env(map[], map[]), [], program, 0, "program", [], Run(EMPTY, map[], 0, 0, ids, []));
  }
}
