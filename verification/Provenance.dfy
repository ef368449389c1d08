/** Recorded provenance is covered by the consulted resources. */
module Provenance {
  import opened Base
  import opened Pointers
  import opened Views
  import opened Syntax
  import opened Evaluation
  import opened Blocks
  import opened Outputs

  /** What is in use, and what variables came from, has been consulted. */
  ghost predicate Sourced(env: Env, st: Core) {
    st.used <= st.allReads && forall x | x in env.sources :: env.sources[x] <= st.allReads
  }

  lemma SourcedLater(w: World, env: Env, a: Core, b: Core)
    requires Sourced(env, a) && Later(w, a, b) && b.used <= b.allReads
    ensures Sourced(env, b)
  {
  }

  lemma BindSourced(w: World, env: Env, item: string, v: View, sources: set<string>, st: Core)
    requires Sourced(env, st) && sources <= st.allReads
    ensures Sourced(Bind(env, item, v, sources), st)
  {
  }

  lemma {:induction false} ExpressionSourced(w: World, env: Env, e: Expr, st: Core)
    requires Sourced(env, st)
    ensures var o := Expression(w, env, e, st); o.st.used <= o.st.allReads
    decreases Left(w, st), 0, 1
  {
    var tick := Tick(w, st);
    if tick.r.Ok? { EvaluateSourced(w, env, e, tick.st); }
  }

  lemma {:induction false} EvaluateSourced(w: World, env: Env, e: Expr, st: Core)
    requires Sourced(env, st)
    ensures var o := Evaluate(w, env, e, st); o.st.used <= o.st.allReads
    decreases Left(w, st), 3, 0
  {
    match e
    case Variable(_) =>
    case Resource(_) =>
    case Literal(_, _) =>
    case Unary(_, value) => ExpressionSourced(w, env, value, st);
    case Filter(value, item, condition) =>
      ExpressionSourced(w, env, value, st);
      var o := Expression(w, env, value, st);
      if o.r.Ok? {
        var n := Count(w, o.r.value, o.st);
        SourcedLater(w, env, st, o.st);
        if n.r.Ok? { FilterLoopSourced(w, env, o.r.value, n.r.value, 0, item, condition, n.st.used, [], n.st); }
      }
      FilteredUnfolds(w, env, e, st);
    case Keyed(op, value, item, key) =>
      ExpressionSourced(w, env, value, st);
      var o := Expression(w, env, value, st);
      if o.r.Ok? {
        var n := Count(w, o.r.value, o.st);
        SourcedLater(w, env, st, o.st);
        if n.r.Ok? { KeyedLoopSourced(w, env, o.r.value, n.r.value, 0, item, key, !op.MapOp?, n.st.used, [], n.st); }
      }
      FilteredUnfolds(w, env, e, st);
    case Build(op, args) =>
      var refused := Refused(w, op, args, st);
      if refused.r.Ok? { ArgumentsSourced(w, env, args, 0, [], refused.st); }
      FilteredUnfolds(w, env, e, st);
    case Call(key, args) =>
      if key in w.g.library {
        ArgumentsSourced(w, env, args, 0, [], st);
        var bs := Arguments(w, env, args, 0, [], st);
        if bs.r.Ok? {
          BoundSourced(args, bs.r.value, bs.st);
          ExpressionSourced(w, Env(BoundValues(args, bs.r.value), BoundReads(args, bs.r.value)), w.g.library[key].body, bs.st);
        }
      }
      FilteredUnfolds(w, env, e, st);
  }

  /** The evaluation of a compound expression is that of its own function. */
  lemma FilteredUnfolds(w: World, env: Env, e: Expr, st: Core)
    ensures e.Filter? ==> Evaluate(w, env, e, st) == Filtered(w, env, e.value, e.item, e.condition, st)
    ensures e.Keyed? ==> Evaluate(w, env, e, st) == Rekeyed(w, env, e.keyedOp, e.value, e.item, e.key, st)
    ensures e.Build? ==> Evaluate(w, env, e, st) == Built(w, env, e.buildOp, e.args, st)
    ensures e.Call? ==> Evaluate(w, env, e, st) == Called(w, env, e.function_, e.args, st)
  {
  }

  lemma {:induction false} FilterLoopSourced(w: World, env: Env, source: View, n: nat, i: nat, item: string, condition: Pred,
    sources: set<string>, kept: seq<View>, st: Core)
    requires i <= n && Sourced(env, st) && sources <= st.allReads
    ensures var o := FilterLoop(w, env, source, n, i, item, condition, sources, kept, st); o.st.used <= o.st.allReads
    decreases Left(w, st), 1, n - i
  {
    if i < n {
      var tick := Tick(w, st);
      if tick.r.Ok? && Index(source, i).Some? {
        BindSourced(w, env, item, Index(source, i).value, sources, tick.st);
        PredicateSourced(w, Bind(env, item, Index(source, i).value, sources), condition, tick.st);
      }
      var keep := FilterStep(w, env, source, i, item, condition, sources, st);
      if keep.r.Ok? {
        SourcedLater(w, env, st, keep.st);
        FilterLoopSourced(w, env, source, n, i + 1, item, condition, sources,
          if keep.r.value then kept + [Index(source, i).value] else kept, keep.st);
      }
    }
  }

  lemma {:induction false} KeyedLoopSourced(w: World, env: Env, source: View, n: nat, i: nat, item: string, key: Expr, charged: bool,
    sources: set<string>, done: seq<Entry>, st: Core)
    requires i <= n && Sourced(env, st) && sources <= st.allReads
    ensures var o := KeyedLoop(w, env, source, n, i, item, key, charged, sources, done, st); o.st.used <= o.st.allReads
    decreases Left(w, st), 1, n - i
  {
    if i < n {
      KeyedStepSourced(w, env, source, i, item, key, charged, sources, st);
      var o := KeyedStep(w, env, source, i, item, key, charged, sources, st);
      if o.r.Ok? {
        SourcedLater(w, env, st, o.st);
        KeyedLoopSourced(w, env, source, n, i + 1, item, key, charged, sources, done + [o.r.value], o.st);
      }
    }
  }

  lemma {:induction false} KeyedStepSourced(w: World, env: Env, source: View, i: nat, item: string, key: Expr, charged: bool,
    sources: set<string>, st: Core)
    requires Sourced(env, st) && sources <= st.allReads
    ensures var o := KeyedStep(w, env, source, i, item, key, charged, sources, st); o.st.used <= o.st.allReads
    decreases Left(w, st), 0, 2
  {
    var tick := Tick(w, st);
    if tick.r.Ok? && Index(source, i).Some? {
      var inner := Bind(env, item, Index(source, i).value, sources);
      BindSourced(w, env, item, Index(source, i).value, sources, tick.st);
      ExpressionSourced(w, inner, key, tick.st);
      var k := Expression(w, inner, key, tick.st);
      if k.r.Ok? { assert Quiet(k.st, Keep(w, k.r.value, Index(source, i).value, charged, k.st).st); }
    }
  }

  ghost predicate AllRead(bs: seq<Bound>, st: Core) {
    forall i | 0 <= i < |bs| :: bs[i].used <= st.allReads
  }

  lemma {:induction false} ArgumentsSourced(w: World, env: Env, args: seq<Arg>, i: nat, done: seq<Bound>, st: Core)
    requires i == |done| <= |args| && Sourced(env, st) && AllRead(done, st)
    ensures var o := Arguments(w, env, args, i, done, st);
      o.st.used <= o.st.allReads && (o.r.Ok? ==> AllRead(o.r.value, o.st))
    decreases Left(w, st), 1, |args| - i
  {
    if i < |args| {
      ExpressionSourced(w, env, args[i].value, st);
      var o := Expression(w, env, args[i].value, st);
      if o.r.Ok? {
        SourcedLater(w, env, st, o.st);
        ArgumentsSourced(w, env, args, i + 1, done + [Bound(o.r.value, o.st.used)], o.st);
      }
    }
  }

  lemma {:induction false} BoundSourced(args: seq<Arg>, bs: seq<Bound>, st: Core)
    requires |bs| == |args| && AllRead(bs, st)
    ensures forall x | x in BoundReads(args, bs) :: BoundReads(args, bs)[x] <= st.allReads
  {
    if args != [] {
      var n := |args| - 1;
      BoundSourced(args[..n], bs[..n], st);
    }
  }

  lemma {:induction false} PredicateSourced(w: World, env: Env, p: Pred, st: Core)
    requires Sourced(env, st)
    ensures var o := Predicate(w, env, p, st); o.st.used <= o.st.allReads
    decreases Left(w, st), 0, 1
  {
    var tick := Tick(w, st);
    if tick.r.Ok? { TestSourced(w, env, p, tick.st); }
  }

  lemma {:induction false} TestSourced(w: World, env: Env, p: Pred, st: Core)
    requires Sourced(env, st)
    ensures var o := Test(w, env, p, st); o.st.used <= o.st.allReads
    decreases Left(w, st), 3, 0
  {
    match p
    case Compare(left, _, right) => PairSourced(w, env, left, right, st);
    case Eq(left, right) => PairSourced(w, env, left, right, st);
    case Contains(value, element) => PairSourced(w, env, value, element, st);
    case Present(value) => ExpressionSourced(w, env, value, st);
    case And(items) => JunctionSourced(w, env, items, 0, true, st);
    case Or(items) => JunctionSourced(w, env, items, 0, false, st);
    case Not(item) => PredicateSourced(w, env, item, st);
  }

  lemma {:induction false} PairSourced(w: World, env: Env, a: Expr, b: Expr, st: Core)
    requires Sourced(env, st)
    ensures var l := Expression(w, env, a, st);
      l.st.used <= l.st.allReads
      && (l.r.Ok? ==> var r := Expression(w, env, b, l.st); r.st.used <= r.st.allReads)
    decreases Left(w, st), 2, 0
  {
    ExpressionSourced(w, env, a, st);
    var l := Expression(w, env, a, st);
    if l.r.Ok? {
      SourcedLater(w, env, st, l.st);
      ExpressionSourced(w, env, b, l.st);
    }
  }

  lemma {:induction false} JunctionSourced(w: World, env: Env, items: seq<Pred>, i: nat, all: bool, st: Core)
    requires i <= |items| && Sourced(env, st)
    ensures var o := Junction(w, env, items, i, all, st); o.st.used <= o.st.allReads
    decreases Left(w, st), 1, |items| - i
  {
    if i < |items| {
      PredicateSourced(w, env, items[i], st);
      var p := Predicate(w, env, items[i], st);
      SourcedLater(w, env, st, p.st);
      if p.r.Ok? && p.r.value == all { JunctionSourced(w, env, items, i + 1, all, p.st); }
    }
  }

  // ----- Blocks -----

  predicate Covers(x: Item, names: set<string>) {
    match x
    case ItemGroup(_, _, items) => CoversAll(items, names)
    case Fragment(_, _, _, _, sources) => sources <= names
  }

  /** Every fragment came from the named resources. */
  predicate CoversAll(items: seq<Item>, names: set<string>) {
    forall i | 0 <= i < |items| :: Covers(items[i], names)
  }

  lemma {:induction false} CoversMore(items: seq<Item>, names: set<string>, more: set<string>)
    requires CoversAll(items, names) && names <= more
    ensures CoversAll(items, more)
  {
    forall i | 0 <= i < |items| ensures Covers(items[i], more) {
      if items[i].ItemGroup? { CoversMore(items[i].items, names, more); }
    }
  }

  /** After a part of the traversal, the items `xs` it added are covered. */
  ghost predicate Traced(w: World, a: Run, b: Run, xs: seq<Item>) {
    b.core.used <= b.core.allReads && Later(w, a.core, b.core) && CoversAll(xs, b.core.allReads)
  }

  lemma TracedTwice(w: World, a: Run, b: Run, c: Run, xs: seq<Item>, ys: seq<Item>)
    requires Traced(w, a, b, xs) && Traced(w, b, c, ys)
    ensures Traced(w, a, c, xs + ys)
  {
    CoversMore(xs, b.core.allReads, c.core.allReads);
  }

  lemma {:induction false} AllTraced(w: World, env: Env, its: seq<Iteration>, blocks: seq<Block>, i: nat, path: string, done: seq<Item>, run: Run)
    requires i <= |blocks| && Sourced(env, run.core)
    ensures var (items, r) := All(w, env, its, blocks, i, path, done, run);
      Extends_(items, done) && Traced(w, run, r, items[|done|..])
    decreases Left(w, run.core), 1, |blocks| - i
  {
    if i < |blocks| {
      var tick := Tick(w, run.core);
      var r := run.(core := tick.st);
      if tick.r.Ok? && |r.trace| < w.limits.maxItems {
        var b := One(w, env, its, blocks[i], At(path, i), r);
        OneTraced(w, env, its, blocks[i], At(path, i), r);
        SourcedLater(w, env, r.core, b.run.core);
        AllTraced(w, env, its, blocks, i + 1, path, done + b.items, b.run);
        var (items, last) := All(w, env, its, blocks, i + 1, path, done + b.items, b.run);
        ExtendsMore(items, done, b.items);
        TracedTwice(w, r, b.run, last, b.items, items[|done + b.items|..]);
      }
    }
  }

  lemma {:induction false} OneTraced(w: World, env: Env, its: seq<Iteration>, b: Block, path: string, run: Run)
    requires Sourced(env, run.core)
    ensures var r := One(w, env, its, b, path, run); Traced(w, run, r.run, r.items)
    decreases Left(w, run.core), 3, 0
  {
    var (id, ids) := OccurrenceId(run.ids, b.id, path, its != []);
    BodyTraced(w, env, its, b, id, path, run.(ids := ids, core := run.core.(used := {})));
  }

  lemma {:induction false} BodyTraced(w: World, env: Env, its: seq<Iteration>, b: Block, id: string, path: string, run: Run)
    requires Sourced(env, run.core)
    ensures var r := Body(w, env, its, b, id, path, run); Traced(w, run, r.run, r.items)
    decreases Left(w, run.core), 2, 1
  {
    var result := Body(w, env, its, b, id, path, run);
    match b
    case Group(_, title, items) =>
      var (ok, r) := CountOutput(w, run);
      if ok {
        AllTraced(w, env, its, items, 0, path + ".items", [], r);
        var (children, last) := All(w, env, its, items, 0, path + ".items", [], r);
        assert children[0..] == children;
      }
    case Emit(_, _, _, value) =>
      ExpressionSourced(w, env, value, run.core);
    case If(_, condition, yes, no) =>
      PredicateSourced(w, env, condition, run.core);
      var o := Predicate(w, env, condition, run.core);
      SourcedLater(w, env, run.core, o.st);
      if o.r.Ok? {
        AllTraced(w, env, its, if o.r.value then yes else no, 0, path + (if o.r.value then ".then" else ".else"), [], run.(core := o.st));
        assert result.items[0..] == result.items;
      }
    case ForEach(_, value, _, _) =>
      ExpressionSourced(w, env, value, run.core);
      var o := Expression(w, env, value, run.core);
      SourcedLater(w, env, run.core, o.st);
      if o.r.Ok? {
        var n := Count(w, o.r.value, o.st);
        if n.r.Ok? {
          LoopTraced(w, env, its, b, o.r.value, n.r.value, 0, o.st.used, path, [], run.(core := o.st));
          assert result.items[0..] == result.items;
        }
      }
  }

  lemma {:induction false} LoopTraced(w: World, env: Env, its: seq<Iteration>, b: Block, source: View, n: nat, i: nat,
    sources: set<string>, path: string, done: seq<Item>, run: Run)
    requires b.ForEach? && i <= n && Sourced(env, run.core) && sources <= run.core.allReads
    ensures var (items, r) := Loop(w, env, its, b, source, n, i, sources, path, done, run);
      Extends_(items, done) && Traced(w, run, r, items[|done|..])
    decreases Left(w, run.core), 1, n - i
  {
    if i < n {
      var tick := Tick(w, run.core);
      var r := run.(core := tick.st);
      if tick.r.Ok? && |r.trace| < w.limits.maxItems {
        var x := Index(source, i);
        if x.None? {
          LoopTraced(w, env, its, b, source, n, i + 1, sources, path, done, r);
        } else {
          var (xs, r1) := Turn(w, env, its, b, x.value, i, sources, path, r);
          BindSourced(w, env, b.item, x.value, sources, r.core);
          AllTraced(w, Bind(env, b.item, x.value, sources), its + [Iteration(b.id, i)], b.items, 0,
            path + ".iterations[" + Decimal(i) + "].items", [], r);
          assert xs[0..] == xs;
          SourcedLater(w, env, r.core, r1.core);
          LoopTraced(w, env, its, b, source, n, i + 1, sources, path, done + xs, r1);
          var (items, last) := Loop(w, env, its, b, source, n, i + 1, sources, path, done + xs, r1);
          ExtendsMore(items, done, xs);
          TracedTwice(w, r, r1, last, xs, items[|done + xs|..]);
        }
      }
    }
  }

  /** Every fragment's sources are among the resources the evaluation consulted. */
  lemma SourcesAreCovered(w: World, program: seq<Block>)
    ensures var ev := Evaluation_(w, program); CoversAll(ev.items, ev.run.core.allReads)
  {
    var ids := set i | 0 <= i < |BlockIds(program)| :: BlockIds(program)[i];
    AllTraced(w, Env(map[], map[]), [], program, 0, "program", [], Run(EMPTY, map[], 0, 0, ids, []));
    var ev := Evaluation_(w, program);
    assert ev.items[0..] == ev.items;
  }
}
