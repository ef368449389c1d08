/** The checker refuses nothing else: a well-typed strategy is accepted exactly if its tour stays within
    the limits (rust/crates/zf-context/src/context.rs, `check`). */
module Completeness {
  import opened Base
  import opened Types
  import opened Syntax
  import opened Tours
  import opened Typing
  import opened Checker
  import opened CheckerSound
  import opened Acceptance

  /** Functions that have been checked or are being checked. */
  function Seen(st: State): set<Key> {
    (set k | k in st.done) + st.active
  }

  predicate Fits(depth: nat, nodes: nat, t: Tour) {
    (t.nodes == 0 || depth + t.levels <= MAX_DEPTH) && nodes + t.nodes <= MAX_BLOCKS
  }

  /** From `st` to `r` exactly the nodes of the tour were met, and nothing was reported; or the tour
      does not fit, and that was. */
  predicate Met(st: State, r: State, depth: nat, t: Tour) {
    if Fits(depth, st.nodes, t) then !r.failed && r.nodes == st.nodes + t.nodes && Seen(r) == t.seen else r.failed
  }

  predicate Sane(st: State) { !st.failed && st.nodes <= MAX_BLOCKS }

  predicate Flat(t: Tour) { t.nodes == 0 ==> t.levels == 0 }

  lemma MetNothing(st: State, depth: nat)
    requires Sane(st)
    ensures Met(st, st, depth, Nothing(Seen(st)))
  {
  }

  lemma MetThen(st: State, s: State, r: State, depth: nat, a: Tour, b: Tour)
    requires Sane(st) && Met(st, s, depth, a) && (s.failed ==> r.failed) && (!s.failed ==> Met(s, r, depth, b)) && Flat(a) && Flat(b)
    ensures Met(st, r, depth, Then(a, b))
  {
  }

  lemma MetUnder(st: State, r: State, depth: nat, inner: Tour)
    requires Sane(st) && Flat(inner)
    requires if Enter(depth, st).0 then Met(Enter(depth, st).1, r, depth + 1, inner) else r.failed
    ensures Met(st, r, depth, Under(inner))
  {
  }

  /** Functions that call only earlier ones, each once, and all as they should be. */
  ghost predicate Known(g: Linked, order: seq<Key>) {
    Ordered(g.library, order) && DistinctKeys(order) && AllOk(g, order)
  }

  /** None of the functions is being checked. */
  predicate Clear(st: State, order: seq<Key>) {
    forall k | k in order :: k !in st.active
  }

  ghost predicate Setting(g: Linked, scope: Scope, st: State, order: seq<Key>) {
    Ready(g, scope, st) && Sane(st) && Known(g, order) && Clear(st, order)
  }

  /** Going on after a part that was met without a report. */
  lemma SettingAfter(g: Linked, scope: Scope, st: State, r: State, depth: nat, t: Tour, inner: Scope, order: seq<Key>)
    requires Setting(g, scope, st, order) && Extends(st, r) && Good(g, r) && Met(st, r, depth, t) && !r.failed && ScopeWf(g, inner)
    ensures Setting(g, inner, r, order)
  {
  }

  lemma SettingBare(g: Linked, scope: Scope, st: State, order: seq<Key>)
    requires Setting(g, scope, st, order)
    ensures Setting(g, map[], st, order)
  {
  }

  lemma SettingInside(g: Linked, scope: Scope, st: State, depth: nat, order: seq<Key>)
    requires Setting(g, scope, st, order) && Enter(depth, st).0
    ensures Setting(g, scope, Enter(depth, st).1, order) && Seen(Enter(depth, st).1) == Seen(st)
  {
  }

  // ----- No check that follows the operands reports anything -----

  lemma OperatePasses(g: Linked, op: UnaryOp, t: DataType)
    requires UnaryType(g, op, t).Some?
    ensures !Operate(g, op, t).bad
  {
  }

  lemma AssemblePasses(g: Linked, op: BuildOp, args: seq<Arg>, os: seq<Option<DataType>>, ts: seq<DataType>)
    requires |os| == |ts| == |args| && forall i | 0 <= i < |ts| :: os[i] == Some(ts[i])
    requires BuildType(g, op, args, ts).Some?
    ensures !Assemble(g, op, args, os).bad
  {
  }

  lemma AppliedPasses(g: Linked, key: Key, args: seq<Arg>, os: seq<Option<DataType>>, ts: seq<DataType>)
    requires |os| == |ts| == |args| && forall i | 0 <= i < |ts| :: os[i] == Some(ts[i])
    requires CallType(g, key, args, ts).Some?
    ensures !Misapplied(g, key, args, os)
  {
  }

  lemma BuildPasses(g: Linked, scope: Scope, inFunction: bool, e: Expr, os: seq<Option<DataType>>)
    requires e.Build? && Inferred(g, scope, inFunction, e.args, os) && Infer(g, scope, inFunction, e).Some?
    ensures !Assemble(g, e.buildOp, e.args, os).bad
  {
    AssemblePasses(g, e.buildOp, e.args, os, ArgTypes(g, scope, inFunction, e.args));
  }

  lemma CallPasses(g: Linked, scope: Scope, inFunction: bool, e: Expr, os: seq<Option<DataType>>)
    requires e.Call? && Inferred(g, scope, inFunction, e.args, os) && Infer(g, scope, inFunction, e).Some?
    ensures !Misapplied(g, e.function_, e.args, os)
  {
    AppliedPasses(g, e.function_, e.args, os, ArgTypes(g, scope, inFunction, e.args));
  }

  lemma RegroupPasses(g: Linked, op: KeyedOp, ty: DataType, t: DataType)
    requires KeyedType(g, op, ty, t).Some?
    ensures !Regroup(g, op, ty, t).bad
  {
  }

  // ----- The traversal -----

  lemma {:induction false} FunctionComplete(g: Linked, key: Key, depth: nat, st: State, order: seq<Key>)
    requires Setting(g, map[], st, order) && key in order
    ensures Met(st, Function_(g, key, depth, st).st, depth, FunctionTour(g.library, key, Seen(st)))
    decreases Room(depth), 0, 1
  {
    var (ok, s) := Enter(depth, st);
    var before := CalledBefore(g.library, order, key);
    DoneIsOk(g, order, key);
    NotBefore(g, order, key, before);
    if ok {
      SettingInside(g, map[], st, depth, order);
      if key in s.done {
        MetNothing(s, depth + 1);
        MetUnder(st, s, depth, Nothing(Seen(s)));
      } else {
        BodyComplete(g, key, depth, st, order, before);
      }
    } else {
      assert Function_(g, key, depth, st).st.failed;
      MetFails(st, Function_(g, key, depth, st).st, depth, FunctionTour(g.library, key, Seen(st)));
    }
  }

  lemma NotBefore(g: Linked, order: seq<Key>, key: Key, before: seq<Key>)
    requires DistinctKeys(order) && before < order && order[|before|] == key
    ensures key !in before
  {
  }

  /** A tour with at least one node fails where not even that fits. */
  lemma MetFails(st: State, r: State, depth: nat, t: Tour)
    requires Sane(st) && !Enter(depth, st).0 && r.failed && t.nodes > 0
    ensures Met(st, r, depth, t)
  {
  }

  lemma {:induction false} BodyComplete(g: Linked, key: Key, depth: nat, st: State, order: seq<Key>, before: seq<Key>)
    requires Setting(g, map[], st, order) && key in order && Enter(depth, st).0 && key !in st.done
    requires before < order && Ordered(g.library, before) && key in g.library && Within(Calls(g.library[key].body), before)
    requires key !in before && FunctionOk(g, g.library[key]) && ValidId(key.name)
    ensures Met(st, Function_(g, key, depth, st).st, depth, FunctionTour(g.library, key, Seen(st)))
    decreases Room(depth), 0, 0
  {
    var f, s := g.library[key], Enter(depth, st).1;
    var s1 := s.(active := s.active + {key});
    forall p | p in f.parameters ensures Wf(f.parameters[p], g.types) { TypeOkWf(f.parameters[p], g.types); }
    BodySetting(g, key, st, s1, order, before);
    ExpressionComplete(g, f.parameters, true, f.body, depth + 1, s1, before);
    ExpressionSound(g, f.parameters, true, f.body, depth + 1, s1);
    var body := Expression(g, f.parameters, true, f.body, depth + 1, s1);
    var r := Function_(g, key, depth, st).st;
    assert s1 == s.(active := s.active + {key}).Fail(Misdeclared(g, key, f));
    assert Seen(s1) == Seen(st) + {key};
    BodyDone(s, s1, body.st, r, key, depth + 1, ExprTour(g.library, f.body, Seen(s1)));
    MetUnder(st, r, depth, ExprTour(g.library, f.body, Seen(s1)));
  }

  lemma BodySetting(g: Linked, key: Key, st: State, s1: State, order: seq<Key>, before: seq<Key>)
    requires Setting(g, map[], st, order) && s1 == st.(nodes := st.nodes + 1, active := st.active + {key}) && s1.nodes <= MAX_BLOCKS
    requires before < order && Ordered(g.library, before) && key !in before && key in g.library
    requires ScopeWf(g, g.library[key].parameters)
    ensures Setting(g, g.library[key].parameters, s1, before)
  {
    forall k | k in before ensures k !in s1.active { assert k in order; }
  }

  /** Moving the function from those being checked to those that have been. */
  lemma BodyDone(s: State, s1: State, body: State, r: State, key: Key, depth: nat, t: Tour)
    requires Met(s1, body, depth, t) && s1 == s.(active := s.active + {key}) && key !in s.active
    requires body.active == s1.active && (body.failed ==> r.failed)
    requires !body.failed ==> r == body.(active := body.active - {key}, done := body.done + [key])
    ensures Met(s, r, depth, t)
  {
    if !body.failed { assert Seen(r) == Seen(body); }
  }

  /** What is shown of every expression. */
  ghost predicate Complete(g: Linked, scope: Scope, inFunction: bool, e: Expr, depth: nat, st: State) {
    Met(st, Expression(g, scope, inFunction, e, depth, st).st, depth, ExprTour(g.library, e, Seen(st)))
  }

  ghost predicate CompletePred(g: Linked, scope: Scope, inFunction: bool, p: Pred, depth: nat, st: State) {
    Met(st, Predicate(g, scope, inFunction, p, depth, st), depth, PredTour(g.library, p, Seen(st)))
  }

  lemma {:induction false} ExpressionComplete(g: Linked, scope: Scope, inFunction: bool, e: Expr, depth: nat, st: State, order: seq<Key>)
    requires Setting(g, scope, st, order) && Infer(g, scope, inFunction, e).Some? && Within(Calls(e), order)
    ensures Complete(g, scope, inFunction, e, depth, st)
    decreases Room(depth), 0, 1
  {
    var (ok, s) := Enter(depth, st);
    if ok {
      SettingInside(g, scope, st, depth, order);
      match e
      case Unary(_, _) => UnaryComplete(g, scope, inFunction, e, depth, st, order);
      case Filter(_, _, _) => FilterComplete(g, scope, inFunction, e, depth, st, order);
      case Keyed(_, _, _, _) => KeyedComplete(g, scope, inFunction, e, depth, st, order);
      case Build(_, _) => BuildComplete(g, scope, inFunction, e, depth, st, order);
      case Call(_, _) => CallComplete(g, scope, inFunction, e, depth, st, order);
      case _ =>
        MetNothing(s, depth + 1);
        MetUnder(st, s, depth, Nothing(Seen(s)));
    } else {
      MetFails(st, Expression(g, scope, inFunction, e, depth, st).st, depth, ExprTour(g.library, e, Seen(st)));
    }
  }

  lemma {:induction false} UnaryComplete(g: Linked, scope: Scope, inFunction: bool, e: Expr, depth: nat, st: State, order: seq<Key>)
    requires Setting(g, scope, st, order) && Infer(g, scope, inFunction, e).Some? && Within(Calls(e), order)
    requires e.Unary? && Enter(depth, st).0
    ensures Complete(g, scope, inFunction, e, depth, st)
    decreases Room(depth), 0, 0
  {
    SettingInside(g, scope, st, depth, order);
    var s := Enter(depth, st).1;
    ExpressionComplete(g, scope, inFunction, e.value, depth + 1, s, order);
    ExpressionSound(g, scope, inFunction, e.value, depth + 1, s);
    var source := Expression(g, scope, inFunction, e.value, depth + 1, s);
    var r := Expression(g, scope, inFunction, e, depth, st).st;
    if !source.st.failed { OperatePasses(g, e.op, source.t.value); }
    assert r == source.st || (source.st.failed && r.failed);
    MetUnder(st, r, depth, ExprTour(g.library, e.value, Seen(s)));
  }

  lemma CollectionPasses(g: Linked, scope: Scope, inFunction: bool, value: Expr, item: string, depth: nat, st: State)
    requires Ready(g, scope, st) && !st.failed && ItemType(g, Infer(g, scope, inFunction, value)).Some? && ValidId(item)
    ensures var source, r := Expression(g, scope, inFunction, value, depth, st), CollectionItem(g, scope, inFunction, value, item, depth, st);
      r.st == source.st || (source.st.failed && r.st.failed)
  {
    ExpressionSound(g, scope, inFunction, value, depth, st);
  }

  /** The collection of an operation over items. */
  lemma {:induction false} CollectionComplete(g: Linked, scope: Scope, inFunction: bool, value: Expr, item: string, depth: nat, st: State, order: seq<Key>)
    requires Setting(g, scope, st, order) && Within(Calls(value), order)
    requires ItemType(g, Infer(g, scope, inFunction, value)).Some? && ValidId(item)
    ensures var r := CollectionItem(g, scope, inFunction, value, item, depth, st);
      && Met(st, r.st, depth, ExprTour(g.library, value, Seen(st)))
      && (!r.st.failed ==>
            r.t == ItemType(g, Infer(g, scope, inFunction, value)) && Setting(g, scope[item := r.t.value], r.st, order))
    decreases Room(depth), 1, 0
  {
    ExpressionComplete(g, scope, inFunction, value, depth, st, order);
    ExpressionSound(g, scope, inFunction, value, depth, st);
    CollectionSound(g, scope, inFunction, value, item, depth, st);
    var r := CollectionItem(g, scope, inFunction, value, item, depth, st);
    var source := Expression(g, scope, inFunction, value, depth, st);
    CollectionPasses(g, scope, inFunction, value, item, depth, st);
    if !r.st.failed {
      SettingAfter(g, scope, st, r.st, depth, ExprTour(g.library, value, Seen(st)), scope[item := r.t.value], order);
    }
  }

  lemma FilterUnfolds(g: Linked, scope: Scope, inFunction: bool, e: Expr, depth: nat, st: State)
    requires e.Filter? && Enter(depth, st).0
    ensures var ty := CollectionItem(g, scope, inFunction, e.value, e.item, depth + 1, Enter(depth, st).1);
      Expression(g, scope, inFunction, e, depth, st).st
        == if ty.t.None? then ty.st else Predicate(g, scope[e.item := ty.t.value], inFunction, e.condition, depth + 1, ty.st)
  {
  }

  lemma {:induction false} FilterComplete(g: Linked, scope: Scope, inFunction: bool, e: Expr, depth: nat, st: State, order: seq<Key>)
    requires Setting(g, scope, st, order) && Infer(g, scope, inFunction, e).Some? && Within(Calls(e), order)
    requires e.Filter? && Enter(depth, st).0
    ensures Complete(g, scope, inFunction, e, depth, st)
    decreases Room(depth), 0, 0
  {
    SettingInside(g, scope, st, depth, order);
    var s := Enter(depth, st).1;
    CollectionComplete(g, scope, inFunction, e.value, e.item, depth + 1, s, order);
    CollectionSound(g, scope, inFunction, e.value, e.item, depth + 1, s);
    var ty := CollectionItem(g, scope, inFunction, e.value, e.item, depth + 1, s);
    var r := Expression(g, scope, inFunction, e, depth, st).st;
    var first := ExprTour(g.library, e.value, Seen(s));
    FilterUnfolds(g, scope, inFunction, e, depth, st);
    if ty.t.Some? {
      var inner := scope[e.item := ty.t.value];
      PredicateSound(g, inner, inFunction, e.condition, depth + 1, ty.st);
      if !ty.st.failed { PredicateComplete(g, inner, inFunction, e.condition, depth + 1, ty.st, order); }
    }
    MetThen(s, ty.st, r, depth + 1, first, PredTour(g.library, e.condition, first.seen));
    MetUnder(st, r, depth, Then(first, PredTour(g.library, e.condition, first.seen)));
  }

  lemma {:induction false} KeyedComplete(g: Linked, scope: Scope, inFunction: bool, e: Expr, depth: nat, st: State, order: seq<Key>)
    requires Setting(g, scope, st, order) && Infer(g, scope, inFunction, e).Some? && Within(Calls(e), order)
    requires e.Keyed? && Enter(depth, st).0
    ensures Complete(g, scope, inFunction, e, depth, st)
    decreases Room(depth), 0, 0
  {
    SettingInside(g, scope, st, depth, order);
    var s := Enter(depth, st).1;
    CollectionComplete(g, scope, inFunction, e.value, e.item, depth + 1, s, order);
    CollectionSound(g, scope, inFunction, e.value, e.item, depth + 1, s);
    var ty := CollectionItem(g, scope, inFunction, e.value, e.item, depth + 1, s);
    var r := Expression(g, scope, inFunction, e, depth, st).st;
    var first := ExprTour(g.library, e.value, Seen(s));
    if ty.t.Some? {
      var inner := scope[e.item := ty.t.value];
      ExpressionSound(g, inner, inFunction, e.key, depth + 1, ty.st);
      var key := Expression(g, inner, inFunction, e.key, depth + 1, ty.st);
      if !ty.st.failed { ExpressionComplete(g, inner, inFunction, e.key, depth + 1, ty.st, order); }
      if !key.st.failed { RegroupPasses(g, e.keyedOp, ty.t.value, key.t.value); }
      assert r == key.st || (key.st.failed && r.failed);
    }
    MetThen(s, ty.st, r, depth + 1, first, ExprTour(g.library, e.key, first.seen));
    MetUnder(st, r, depth, Then(first, ExprTour(g.library, e.key, first.seen)));
  }

  /** Typed arguments whose functions are known. */
  ghost predicate ArgsOk(g: Linked, scope: Scope, inFunction: bool, args: seq<Arg>, order: seq<Key>) {
    forall i | 0 <= i < |args| :: Infer(g, scope, inFunction, args[i].value).Some? && Within(Calls(args[i].value), order)
  }

  lemma ArgsReady(g: Linked, scope: Scope, inFunction: bool, e: Expr, order: seq<Key>)
    requires (e.Build? || e.Call?) && Infer(g, scope, inFunction, e).Some? && Within(Calls(e), order)
    ensures ArgsOk(g, scope, inFunction, e.args, order) && (e.Call? ==> e.function_ in order)
  {
    forall i | 0 <= i < |e.args| ensures Within(Calls(e.args[i].value), order) {
      forall k | k in Calls(e.args[i].value) ensures k in order { assert k in Calls(e); }
    }
  }

  /** What is shown of the arguments from `from` on. */
  lemma {:induction false} ArgumentsComplete(g: Linked, scope: Scope, inFunction: bool, args: seq<Arg>, from: nat, depth: nat, st: State, order: seq<Key>)
    requires Setting(g, scope, st, order) && from <= |args| && ArgsOk(g, scope, inFunction, args, order)
    ensures var r := Arguments(g, scope, inFunction, args, from, depth, st).1;
      && Met(st, r, depth, ArgsTour(g.library, args, from, Seen(st)))
      && (!r.failed ==> Setting(g, scope, r, order))
    decreases Room(depth), 1, |args| - from
  {
    var r := Arguments(g, scope, inFunction, args, from, depth, st).1;
    if from == |args| {
      MetNothing(st, depth);
    } else {
      var first := Expression(g, scope, inFunction, args[from].value, depth, st);
      var t := ExprTour(g.library, args[from].value, Seen(st));
      ExpressionComplete(g, scope, inFunction, args[from].value, depth, st, order);
      ExpressionSound(g, scope, inFunction, args[from].value, depth, st);
      ArgumentsSound(g, scope, inFunction, args, from + 1, depth, first.st);
      if !first.st.failed {
        SettingAfter(g, scope, st, first.st, depth, t, scope, order);
        ArgumentsComplete(g, scope, inFunction, args, from + 1, depth, first.st, order);
      }
      MetThen(st, first.st, r, depth, t, ArgsTour(g.library, args, from + 1, t.seen));
    }
  }

  lemma BuildUnfolds(g: Linked, scope: Scope, inFunction: bool, e: Expr, depth: nat, st: State)
    requires e.Build? && Enter(depth, st).0
    ensures var (os, s1) := Arguments(g, scope, inFunction, e.args, 0, depth + 1, Enter(depth, st).1);
      Expression(g, scope, inFunction, e, depth, st).st == s1.Fail(Assemble(g, e.buildOp, e.args, os).bad)
  {
  }

  lemma {:induction false} BuildComplete(g: Linked, scope: Scope, inFunction: bool, e: Expr, depth: nat, st: State, order: seq<Key>)
    requires Setting(g, scope, st, order) && Infer(g, scope, inFunction, e).Some? && Within(Calls(e), order)
    requires e.Build? && Enter(depth, st).0
    ensures Complete(g, scope, inFunction, e, depth, st)
    decreases Room(depth), 0, 0
  {
    SettingInside(g, scope, st, depth, order);
    var s := Enter(depth, st).1;
    ArgsReady(g, scope, inFunction, e, order);
    ArgumentsComplete(g, scope, inFunction, e.args, 0, depth + 1, s, order);
    AllArgumentsSound(g, scope, inFunction, e.args, depth + 1, s);
    var (os, s1) := Arguments(g, scope, inFunction, e.args, 0, depth + 1, s);
    if !s1.failed { BuildPasses(g, scope, inFunction, e, os); }
    BuildUnfolds(g, scope, inFunction, e, depth, st);
    MetUnder(st, Expression(g, scope, inFunction, e, depth, st).st, depth, ArgsTour(g.library, e.args, 0, Seen(s)));
  }

  lemma {:induction false} CallComplete(g: Linked, scope: Scope, inFunction: bool, e: Expr, depth: nat, st: State, order: seq<Key>)
    requires Setting(g, scope, st, order) && Infer(g, scope, inFunction, e).Some? && Within(Calls(e), order)
    requires e.Call? && Enter(depth, st).0
    ensures Complete(g, scope, inFunction, e, depth, st)
    decreases Room(depth), 0, 0
  {
    SettingInside(g, scope, st, depth, order);
    ArgsReady(g, scope, inFunction, e, order);
    InsideCall(g, scope, inFunction, e, depth + 1, Enter(depth, st).1, order);
    CallEnds(g, scope, inFunction, e, depth, st);
  }

  /** Function and arguments of a call are met, and the arguments suit the parameters. */
  ghost predicate Passed(g: Linked, scope: Scope, inFunction: bool, e: Expr, depth: nat, s: State)
    requires e.Call?
  {
    var mid, first := Function_(g, e.function_, depth, s).st, FunctionTour(g.library, e.function_, Seen(s));
    var (os, s1) := Arguments(g, scope, inFunction, e.args, 0, depth, mid);
    && Met(s, s1, depth, Then(first, ArgsTour(g.library, e.args, 0, first.seen)))
    && (!s1.failed ==> !Misapplied(g, e.function_, e.args, os))
  }

  lemma {:induction false} InsideCall(g: Linked, scope: Scope, inFunction: bool, e: Expr, depth: nat, s: State, order: seq<Key>)
    requires e.Call? && Setting(g, scope, s, order) && Infer(g, scope, inFunction, e).Some?
    requires ArgsOk(g, scope, inFunction, e.args, order) && e.function_ in order
    ensures Passed(g, scope, inFunction, e, depth, s)
    decreases Room(depth), 2, 2
  {
    var mid, first := Function_(g, e.function_, depth, s).st, FunctionTour(g.library, e.function_, Seen(s));
    CalleeComplete(g, scope, e.function_, depth, s, order);
    PassedComplete(g, scope, inFunction, e, depth, s, mid, first, order);
  }

  lemma {:induction false} CalleeComplete(g: Linked, scope: Scope, key: Key, depth: nat, s: State, order: seq<Key>)
    requires Setting(g, scope, s, order) && key in order
    ensures var r := Function_(g, key, depth, s).st;
      Met(s, r, depth, FunctionTour(g.library, key, Seen(s))) && Extends(s, r) && Good(g, r)
    decreases Room(depth), 0, 2
  {
    SettingBare(g, scope, s, order);
    FunctionComplete(g, key, depth, s, order);
    FunctionSound(g, key, depth, s);
  }

  lemma CallEnds(g: Linked, scope: Scope, inFunction: bool, e: Expr, depth: nat, st: State)
    requires Sane(st) && e.Call? && Enter(depth, st).0 && Passed(g, scope, inFunction, e, depth + 1, Enter(depth, st).1)
    ensures Complete(g, scope, inFunction, e, depth, st)
  {
    var s, r := Enter(depth, st).1, Expression(g, scope, inFunction, e, depth, st).st;
    var output, first := Function_(g, e.function_, depth + 1, s), FunctionTour(g.library, e.function_, Seen(s));
    var (os, s1) := Arguments(g, scope, inFunction, e.args, 0, depth + 1, output.st);
    CallUnfolds(g, scope, inFunction, e, depth, st);
    MetSame(s, s1, r, depth + 1, Then(first, ArgsTour(g.library, e.args, 0, first.seen)));
    MetUnder(st, r, depth, Then(first, ArgsTour(g.library, e.args, 0, first.seen)));
  }

  lemma CallUnfolds(g: Linked, scope: Scope, inFunction: bool, e: Expr, depth: nat, st: State)
    requires e.Call? && Enter(depth, st).0
    ensures var output := Function_(g, e.function_, depth + 1, Enter(depth, st).1);
      var (os, s1) := Arguments(g, scope, inFunction, e.args, 0, depth + 1, output.st);
      Expression(g, scope, inFunction, e, depth, st).st == s1.Fail(Misapplied(g, e.function_, e.args, os))
  {
  }

  lemma MetSame(st: State, s: State, r: State, depth: nat, t: Tour)
    requires Met(st, s, depth, t) && (r == s || (s.failed && r.failed))
    ensures Met(st, r, depth, t)
  {
  }

  /** The arguments of a call after its function: they are met, and suit its parameters. */
  lemma {:induction false} PassedComplete(g: Linked, scope: Scope, inFunction: bool, e: Expr, depth: nat, s: State, mid: State, first: Tour, order: seq<Key>)
    requires e.Call? && Setting(g, scope, s, order) && Infer(g, scope, inFunction, e).Some? && ArgsOk(g, scope, inFunction, e.args, order)
    requires Met(s, mid, depth, first) && Extends(s, mid) && Good(g, mid) && first.nodes > 0
    ensures var (os, s1) := Arguments(g, scope, inFunction, e.args, 0, depth, mid);
      && Met(s, s1, depth, Then(first, ArgsTour(g.library, e.args, 0, first.seen)))
      && (!s1.failed ==> !Misapplied(g, e.function_, e.args, os))
    decreases Room(depth), 2, 1
  {
    var (os, s1) := Arguments(g, scope, inFunction, e.args, 0, depth, mid);
    AllArgumentsSound(g, scope, inFunction, e.args, depth, mid);
    if !mid.failed {
      SettingAfter(g, scope, s, mid, depth, first, scope, order);
      ArgumentsComplete(g, scope, inFunction, e.args, 0, depth, mid, order);
      if !s1.failed { CallPasses(g, scope, inFunction, e, os); }
    }
    MetThen(s, mid, s1, depth, first, ArgsTour(g.library, e.args, 0, first.seen));
  }

  lemma {:induction false} PredicateComplete(g: Linked, scope: Scope, inFunction: bool, p: Pred, depth: nat, st: State, order: seq<Key>)
    requires Setting(g, scope, st, order) && PredOk(g, scope, inFunction, p) && Within(PredCalls(p), order)
    ensures CompletePred(g, scope, inFunction, p, depth, st)
    decreases Room(depth), 0, 1
  {
    var (ok, s) := Enter(depth, st);
    var r := Predicate(g, scope, inFunction, p, depth, st);
    if ok {
      SettingInside(g, scope, st, depth, order);
      match p
      case And(items) =>
        PredicatesComplete(g, scope, inFunction, items, 0, depth + 1, s, order);
        MetUnder(st, r, depth, PredsTour(g.library, items, 0, Seen(s)));
      case Or(items) =>
        PredicatesComplete(g, scope, inFunction, items, 0, depth + 1, s, order);
        MetUnder(st, r, depth, PredsTour(g.library, items, 0, Seen(s)));
      case Not(item) =>
        PredicateComplete(g, scope, inFunction, item, depth + 1, s, order);
        MetUnder(st, r, depth, PredTour(g.library, item, Seen(s)));
      case Present(value) =>
        ExpressionComplete(g, scope, inFunction, value, depth + 1, s, order);
        MetUnder(st, r, depth, ExprTour(g.library, value, Seen(s)));
      case Contains(value, element) => OperandsComplete(g, scope, inFunction, p, value, element, depth, st, order);
      case Compare(left, _, right) => OperandsComplete(g, scope, inFunction, p, left, right, depth, st, order);
      case Eq(left, right) => OperandsComplete(g, scope, inFunction, p, left, right, depth, st, order);
    } else {
      MetFails(st, r, depth, PredTour(g.library, p, Seen(st)));
    }
  }

  /** A condition on two operands. */
  lemma {:induction false} OperandsComplete(g: Linked, scope: Scope, inFunction: bool, p: Pred, a: Expr, b: Expr, depth: nat, st: State, order: seq<Key>)
    requires Setting(g, scope, st, order) && PredOk(g, scope, inFunction, p) && Within(PredCalls(p), order) && Enter(depth, st).0
    requires (p.Contains? && a == p.value && b == p.element) || ((p.Compare? || p.Eq?) && a == p.left && b == p.right)
    ensures CompletePred(g, scope, inFunction, p, depth, st)
    decreases Room(depth), 0, 0
  {
    SettingInside(g, scope, st, depth, order);
    var s := Enter(depth, st).1;
    PairComplete(g, scope, inFunction, a, b, depth + 1, s, order);
    PairSound(g, scope, inFunction, a, b, depth + 1, s);
    var l := Expression(g, scope, inFunction, a, depth + 1, s);
    var both := Expression(g, scope, inFunction, b, depth + 1, l.st).st;
    var first := ExprTour(g.library, a, Seen(s));
    var r := Predicate(g, scope, inFunction, p, depth, st);
    OperandsPass(g, scope, inFunction, p, a, b, depth, st);
    MetSame(s, both, r, depth + 1, Then(first, ExprTour(g.library, b, first.seen)));
    MetUnder(st, r, depth, Then(first, ExprTour(g.library, b, first.seen)));
    OperandsTour(g.library, p, a, b, Seen(st));
  }

  lemma OperandsTour(library: Library, p: Pred, a: Expr, b: Expr, seen: set<Key>)
    requires (p.Contains? && a == p.value && b == p.element) || ((p.Compare? || p.Eq?) && a == p.left && b == p.right)
    ensures PredTour(library, p, seen) == Under(Then(ExprTour(library, a, seen), ExprTour(library, b, ExprTour(library, a, seen).seen)))
  {
  }

  /** Operands of suitable types are not reported. */
  lemma OperandsPass(g: Linked, scope: Scope, inFunction: bool, p: Pred, a: Expr, b: Expr, depth: nat, st: State)
    requires Ready(g, scope, st) && PredOk(g, scope, inFunction, p) && Enter(depth, st).0
    requires (p.Contains? && a == p.value && b == p.element) || ((p.Compare? || p.Eq?) && a == p.left && b == p.right)
    ensures var l := Expression(g, scope, inFunction, a, depth + 1, Enter(depth, st).1);
      var both, r := Expression(g, scope, inFunction, b, depth + 1, l.st).st, Predicate(g, scope, inFunction, p, depth, st);
      r == both || (both.failed && r.failed)
  {
    PairSound(g, scope, inFunction, a, b, depth + 1, Enter(depth, st).1);
  }

  lemma {:induction false} PairComplete(g: Linked, scope: Scope, inFunction: bool, a: Expr, b: Expr, depth: nat, st: State, order: seq<Key>)
    requires Setting(g, scope, st, order) && Infer(g, scope, inFunction, a).Some? && Infer(g, scope, inFunction, b).Some?
    requires Within(Calls(a), order) && Within(Calls(b), order)
    ensures var l := Expression(g, scope, inFunction, a, depth, st);
      var first := ExprTour(g.library, a, Seen(st));
      Met(st, Expression(g, scope, inFunction, b, depth, l.st).st, depth, Then(first, ExprTour(g.library, b, first.seen)))
    decreases Room(depth), 1, 0
  {
    var l := Expression(g, scope, inFunction, a, depth, st);
    var first := ExprTour(g.library, a, Seen(st));
    ExpressionComplete(g, scope, inFunction, a, depth, st, order);
    PairSound(g, scope, inFunction, a, b, depth, st);
    if !l.st.failed {
      SettingAfter(g, scope, st, l.st, depth, first, scope, order);
      ExpressionComplete(g, scope, inFunction, b, depth, l.st, order);
    }
    MetThen(st, l.st, Expression(g, scope, inFunction, b, depth, l.st).st, depth, first, ExprTour(g.library, b, first.seen));
  }

  lemma {:induction false} PredicatesComplete(g: Linked, scope: Scope, inFunction: bool, ps: seq<Pred>, from: nat, depth: nat, st: State, order: seq<Key>)
    requires Setting(g, scope, st, order) && from <= |ps|
    requires forall i | 0 <= i < |ps| :: PredOk(g, scope, inFunction, ps[i]) && Within(PredCalls(ps[i]), order)
    ensures Met(st, Predicates(g, scope, inFunction, ps, from, depth, st), depth, PredsTour(g.library, ps, from, Seen(st)))
    decreases Room(depth), 1, |ps| - from
  {
    var r := Predicates(g, scope, inFunction, ps, from, depth, st);
    if from == |ps| {
      MetNothing(st, depth);
    } else {
      var s := Predicate(g, scope, inFunction, ps[from], depth, st);
      var t := PredTour(g.library, ps[from], Seen(st));
      PredicateComplete(g, scope, inFunction, ps[from], depth, st, order);
      PredicateSound(g, scope, inFunction, ps[from], depth, st);
      PredicatesSound(g, scope, inFunction, ps, from + 1, depth, s);
      if !s.failed {
        SettingAfter(g, scope, st, s, depth, t, scope, order);
        PredicatesComplete(g, scope, inFunction, ps, from + 1, depth, s, order);
      }
      MetThen(st, s, r, depth, t, PredsTour(g.library, ps, from + 1, t.seen));
    }
  }
}
