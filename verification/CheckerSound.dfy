/** A program accepted by the checker obeys the typing rules, and its library has no recursion. */
module CheckerSound {
  import opened Base
  import opened Types
  import opened Syntax
  import opened Typing
  import opened Checker

  /** Nothing once reported or visited is forgotten; `active` is restored. */
  ghost predicate Extends(a: State, b: State) {
    (a.failed ==> b.failed) && a.active == b.active && a.ids == b.ids && forall k | k in a.done :: k in b.done
  }

  /** The functions checked so far obey the typing rules. */
  ghost predicate AllOk(g: Linked, done: seq<Key>) {
    forall i | 0 <= i < |done| :: done[i] in g.library && ValidId(done[i].name) && FunctionOk(g, g.library[done[i]])
  }

  ghost predicate Good(g: Linked, st: State) {
    !st.failed ==> Ordered(g.library, st.done) && AllOk(g, st.done)
  }

  ghost predicate Ready(g: Linked, scope: Scope, st: State) {
    Good(g, st) && (!st.failed ==> LinkedWf(g) && ScopeWf(g, scope))
  }

  /** The checker's answer `r` from `st`: unless something was reported, it is the type `t`. */
  ghost predicate Agrees(g: Linked, st: State, r: Typed, t: Option<DataType>, calls: set<Key>) {
    Extends(st, r.st) && Good(g, r.st)
    && (!r.st.failed ==> r.t.Some? && r.t == t && Within(calls, r.st.done))
  }

  lemma DoneIsOk(g: Linked, done: seq<Key>, key: Key)
    requires AllOk(g, done) && key in done
    ensures key in g.library && ValidId(key.name) && FunctionOk(g, g.library[key])
  {
    var i :| 0 <= i < |done| && done[i] == key;
  }

  lemma ExtendsTransitive(a: State, b: State, c: State)
    requires Extends(a, b) && Extends(b, c)
    ensures Extends(a, c)
  {
  }

  /** Moving on from an answer by counting a node before it and reporting after it. */
  lemma Around(g: Linked, depth: nat, st: State, r: State, bad: bool)
    requires Extends(Enter(depth, st).1, r) && Good(g, r)
    ensures Extends(st, r.Fail(bad)) && Good(g, r.Fail(bad))
  {
  }

  lemma {:induction false} FunctionSound(g: Linked, key: Key, depth: nat, st: State)
    requires Ready(g, map[], st)
    ensures var r := Function_(g, key, depth, st);
      Extends(st, r.st) && Good(g, r.st)
      && (!r.st.failed ==> key in r.st.done && r.t == Some(g.library[key].output))
    decreases Room(depth), 0, 0
  {
    var (ok, s) := Enter(depth, st);
    if ok && key in g.library && key !in s.active && key !in s.done {
      var f := g.library[key];
      var s1 := s.(active := s.active + {key}).Fail(Misdeclared(g, key, f));
      if !s1.failed {
        forall p | p in f.parameters ensures Wf(f.parameters[p], g.types) { TypeOkWf(f.parameters[p], g.types); }
      }
      ExpressionSound(g, f.parameters, true, f.body, depth + 1, s1);
      var body := Expression(g, f.parameters, true, f.body, depth + 1, s1);
      assert s.active + {key} - {key} == s.active;
      FunctionDone(g, key, body, Infer(g, f.parameters, true, f.body));
    }
  }

  lemma FunctionDone(g: Linked, key: Key, body: Typed, t: Option<DataType>)
    requires key in g.library && Good(g, body.st)
    requires !body.st.failed ==> t.Some? && body.t == t && Within(Calls(g.library[key].body), body.st.done)
    requires !body.st.failed ==> t == Infer(g, g.library[key].parameters, true, g.library[key].body)
    requires !body.st.failed ==> !Misdeclared(g, key, g.library[key])
    ensures var s2 := body.st.Fail(body.t.Some? && !Compatible(body.t.value, g.library[key].output, g.types));
      Good(g, s2.(active := s2.active - {key}, done := s2.done + [key]))
  {
    var done := body.st.done + [key];
    assert done[..|done| - 1] == body.st.done;
  }

  lemma {:induction false} CollectionSound(g: Linked, scope: Scope, inFunction: bool, value: Expr, item: string, depth: nat, st: State)
    requires Ready(g, scope, st)
    ensures var r := CollectionItem(g, scope, inFunction, value, item, depth, st);
      Agrees(g, st, r, ItemType(g, Infer(g, scope, inFunction, value)), Calls(value))
      && (!r.st.failed ==> ValidId(item) && Wf(r.t.value, g.types))
    decreases Room(depth), 1, 0
  {
    var s := st.Fail(!ValidId(item));
    ExpressionSound(g, scope, inFunction, value, depth, s);
    var source := Expression(g, scope, inFunction, value, depth, s);
    if !source.st.failed {
      InferWf(g, scope, inFunction, value);
      ResolvedMeans(Null, source.t.value, g.types);
      if Resolved(source.t.value, g.types).value.List? { ItemTypeWf(g, scope, inFunction, value); }
    }
  }

  // ----- The checks made after the operands -----

  lemma OperateAgrees(g: Linked, op: UnaryOp, t: DataType)
    requires Wf(t, g.types) && !Operate(g, op, t).bad
    ensures UnaryType(g, op, t).Some? && Operate(g, op, t).t == UnaryType(g, op, t)
  {
    ResolvedMeans(Null, t, g.types);
    match op
    case Construct(name) =>
      TypeOkWf(Named(name), g.types);
      ResolvedMeans(Null, Named(name), g.types);
    case Project(selected) =>
      var fs := Resolved(t, g.types).value.fields;
      assert forall k | k in selected :: k in fs;
      assert (map k | k in selected && k in fs :: fs[k]) == (map k | k in selected :: fs[k]);
    case _ =>
  }

  lemma {:induction false} KnownFieldsAreFields(args: seq<Arg>, os: seq<Option<DataType>>, ts: seq<DataType>)
    requires |os| == |ts| == |args| && forall i | 0 <= i < |ts| :: os[i] == Some(ts[i])
    ensures KnownFields(args, os) == FieldsOf(args, ts)
  {
    if args != [] {
      var n := |args| - 1;
      KnownFieldsAreFields(args[..n], os[..n], ts[..n]);
    }
  }

  lemma AssembleAgrees(g: Linked, op: BuildOp, args: seq<Arg>, os: seq<Option<DataType>>, ts: seq<DataType>)
    requires |os| == |ts| == |args| && forall i | 0 <= i < |ts| :: os[i] == Some(ts[i])
    requires !Assemble(g, op, args, os).bad
    ensures BuildType(g, op, args, ts).Some? && Assemble(g, op, args, os).t == BuildType(g, op, args, ts)
  {
    KnownFieldsAreFields(args, os, ts);
  }

  lemma AppliedAgrees(g: Linked, key: Key, args: seq<Arg>, os: seq<Option<DataType>>, ts: seq<DataType>)
    requires |os| == |ts| == |args| && forall i | 0 <= i < |ts| :: os[i] == Some(ts[i])
    requires key in g.library && TypeOk(g.library[key].output, g.types) && !Misapplied(g, key, args, os)
    ensures CallType(g, key, args, ts) == Some(g.library[key].output)
  {
    forall i | 0 <= i < |args| ensures args[i].name in g.library[key].parameters {
      assert args[i].name in ArgNames(args);
    }
  }

  ghost predicate Inferred(g: Linked, scope: Scope, inFunction: bool, args: seq<Arg>, os: seq<Option<DataType>>) {
    |os| == |args| && forall i | 0 <= i < |args| :: os[i].Some? && os[i] == Infer(g, scope, inFunction, args[i].value)
  }

  lemma BuildInfers(g: Linked, scope: Scope, inFunction: bool, e: Expr, os: seq<Option<DataType>>)
    requires e.Build? && Inferred(g, scope, inFunction, e.args, os) && !Assemble(g, e.buildOp, e.args, os).bad
    ensures Assemble(g, e.buildOp, e.args, os).t.Some?
    ensures Infer(g, scope, inFunction, e) == Assemble(g, e.buildOp, e.args, os).t
  {
    AssembleAgrees(g, e.buildOp, e.args, os, ArgTypes(g, scope, inFunction, e.args));
  }

  lemma CallInfers(g: Linked, scope: Scope, inFunction: bool, e: Expr, os: seq<Option<DataType>>)
    requires e.Call? && Inferred(g, scope, inFunction, e.args, os) && !Misapplied(g, e.function_, e.args, os)
    requires e.function_ in g.library && FunctionOk(g, g.library[e.function_])
    ensures Infer(g, scope, inFunction, e) == Some(g.library[e.function_].output)
  {
    AppliedAgrees(g, e.function_, e.args, os, ArgTypes(g, scope, inFunction, e.args));
  }

  lemma ArgsWithin(e: Expr, done: seq<Key>)
    requires (e.Build? || e.Call?) && forall i | 0 <= i < |e.args| :: Within(Calls(e.args[i].value), done)
    requires e.Call? ==> e.function_ in done
    ensures Within(Calls(e), done)
  {
  }

  // ----- The traversal -----

  lemma {:induction false} ExpressionSound(g: Linked, scope: Scope, inFunction: bool, e: Expr, depth: nat, st: State)
    requires Ready(g, scope, st)
    ensures Agrees(g, st, Expression(g, scope, inFunction, e, depth, st), Infer(g, scope, inFunction, e), Calls(e))
    decreases Room(depth), 0, 1
  {
    var (ok, s) := Enter(depth, st);
    if ok {
      match e
      case Unary(_, _) => UnarySound(g, scope, inFunction, e, depth, st);
      case Filter(_, _, _) => FilterSound(g, scope, inFunction, e, depth, st);
      case Keyed(_, _, _, _) => KeyedSound(g, scope, inFunction, e, depth, st);
      case Build(_, _) => BuildSound(g, scope, inFunction, e, depth, st);
      case Call(_, _) => CallSound(g, scope, inFunction, e, depth, st);
      case _ =>
    }
  }

  lemma {:induction false} UnarySound(g: Linked, scope: Scope, inFunction: bool, e: Expr, depth: nat, st: State)
    requires Ready(g, scope, st) && Enter(depth, st).0 && e.Unary?
    ensures Agrees(g, st, Expression(g, scope, inFunction, e, depth, st), Infer(g, scope, inFunction, e), Calls(e))
    decreases Room(depth), 0, 0
  {
    var s := Enter(depth, st).1;
    ExpressionSound(g, scope, inFunction, e.value, depth + 1, s);
    var source := Expression(g, scope, inFunction, e.value, depth + 1, s);
    var bad := source.t.Some? && Operate(g, e.op, source.t.value).bad;
    Around(g, depth, st, source.st, bad);
    if !source.st.failed && !bad {
      InferWf(g, scope, inFunction, e.value);
      OperateAgrees(g, e.op, source.t.value);
    }
  }

  lemma {:induction false} FilterSound(g: Linked, scope: Scope, inFunction: bool, e: Expr, depth: nat, st: State)
    requires Ready(g, scope, st) && Enter(depth, st).0 && e.Filter?
    ensures Agrees(g, st, Expression(g, scope, inFunction, e, depth, st), Infer(g, scope, inFunction, e), Calls(e))
    decreases Room(depth), 0, 0
  {
    var s := Enter(depth, st).1;
    CollectionSound(g, scope, inFunction, e.value, e.item, depth + 1, s);
    var ty := CollectionItem(g, scope, inFunction, e.value, e.item, depth + 1, s);
    Around(g, depth, st, ty.st, false);
    if ty.t.Some? {
      var inner := scope[e.item := ty.t.value];
      PredicateSound(g, inner, inFunction, e.condition, depth + 1, ty.st);
      ExtendsTransitive(s, ty.st, Predicate(g, inner, inFunction, e.condition, depth + 1, ty.st));
    }
  }

  lemma {:induction false} KeyedSound(g: Linked, scope: Scope, inFunction: bool, e: Expr, depth: nat, st: State)
    requires Ready(g, scope, st) && Enter(depth, st).0 && e.Keyed?
    ensures Agrees(g, st, Expression(g, scope, inFunction, e, depth, st), Infer(g, scope, inFunction, e), Calls(e))
    decreases Room(depth), 0, 0
  {
    var s := Enter(depth, st).1;
    CollectionSound(g, scope, inFunction, e.value, e.item, depth + 1, s);
    var ty := CollectionItem(g, scope, inFunction, e.value, e.item, depth + 1, s);
    Around(g, depth, st, ty.st, false);
    if ty.t.Some? {
      var inner := scope[e.item := ty.t.value];
      ExpressionSound(g, inner, inFunction, e.key, depth + 1, ty.st);
      var result := Expression(g, inner, inFunction, e.key, depth + 1, ty.st);
      ExtendsTransitive(s, ty.st, result.st);
      Around(g, depth, st, result.st, false);
      Around(g, depth, st, result.st, true);
    }
  }

  lemma {:induction false} BuildSound(g: Linked, scope: Scope, inFunction: bool, e: Expr, depth: nat, st: State)
    requires Ready(g, scope, st) && Enter(depth, st).0 && e.Build?
    ensures Agrees(g, st, Expression(g, scope, inFunction, e, depth, st), Infer(g, scope, inFunction, e), Calls(e))
    decreases Room(depth), 0, 0
  {
    var s := Enter(depth, st).1;
    AllArgumentsSound(g, scope, inFunction, e.args, depth + 1, s);
    var (os, s1) := Arguments(g, scope, inFunction, e.args, 0, depth + 1, s);
    var bad := Assemble(g, e.buildOp, e.args, os).bad;
    Around(g, depth, st, s1, bad);
    if !s1.failed && !bad {
      BuildInfers(g, scope, inFunction, e, os);
      ArgsWithin(e, s1.done);
    }
  }

  lemma {:induction false} CallSound(g: Linked, scope: Scope, inFunction: bool, e: Expr, depth: nat, st: State)
    requires Ready(g, scope, st) && Enter(depth, st).0 && e.Call?
    ensures Agrees(g, st, Expression(g, scope, inFunction, e, depth, st), Infer(g, scope, inFunction, e), Calls(e))
    decreases Room(depth), 0, 0
  {
    var s := Enter(depth, st).1;
    FunctionSound(g, e.function_, depth + 1, s);
    var output := Function_(g, e.function_, depth + 1, s);
    AllArgumentsSound(g, scope, inFunction, e.args, depth + 1, output.st);
    var (os, s1) := Arguments(g, scope, inFunction, e.args, 0, depth + 1, output.st);
    var bad := Misapplied(g, e.function_, e.args, os);
    ExtendsTransitive(s, output.st, s1);
    Around(g, depth, st, s1, bad);
    if !s1.failed && !bad {
      DoneIsOk(g, s1.done, e.function_);
      CallInfers(g, scope, inFunction, e, os);
      ArgsWithin(e, s1.done);
    }
  }

  lemma {:induction false} ArgumentsSound(g: Linked, scope: Scope, inFunction: bool, args: seq<Arg>, from: nat, depth: nat, st: State)
    requires Ready(g, scope, st) && from <= |args|
    ensures var r := Arguments(g, scope, inFunction, args, from, depth, st);
      && Extends(st, r.1) && Good(g, r.1)
      && (!r.1.failed ==> forall i | from <= i < |args| ::
            var t := Infer(g, scope, inFunction, args[i].value);
            t.Some? && t == r.0[i - from] && Within(Calls(args[i].value), r.1.done))
    decreases Room(depth), 1, |args| - from
  {
    if from < |args| {
      ExpressionSound(g, scope, inFunction, args[from].value, depth, st);
      var first := Expression(g, scope, inFunction, args[from].value, depth, st);
      ArgumentsSound(g, scope, inFunction, args, from + 1, depth, first.st);
      ExtendsTransitive(st, first.st, Arguments(g, scope, inFunction, args, from + 1, depth, first.st).1);
    }
  }

  lemma {:induction false} AllArgumentsSound(g: Linked, scope: Scope, inFunction: bool, args: seq<Arg>, depth: nat, st: State)
    requires Ready(g, scope, st)
    ensures var r := Arguments(g, scope, inFunction, args, 0, depth, st);
      && Extends(st, r.1) && Good(g, r.1)
      && (!r.1.failed ==> Inferred(g, scope, inFunction, args, r.0))
      && (!r.1.failed ==> forall i | 0 <= i < |args| :: Within(Calls(args[i].value), r.1.done))
    decreases Room(depth), 2, 0
  {
    ArgumentsSound(g, scope, inFunction, args, 0, depth, st);
    var (os, s) := Arguments(g, scope, inFunction, args, 0, depth, st);
    if !s.failed {
      forall i | 0 <= i < |args|
        ensures os[i].Some? && os[i] == Infer(g, scope, inFunction, args[i].value)
        ensures Within(Calls(args[i].value), s.done)
      {
        var t := Infer(g, scope, inFunction, args[i].value);
        assert t.Some? && t == os[i - 0];
      }
    }
  }

  lemma {:induction false} PredicateSound(g: Linked, scope: Scope, inFunction: bool, p: Pred, depth: nat, st: State)
    requires Ready(g, scope, st)
    ensures var r := Predicate(g, scope, inFunction, p, depth, st);
      Extends(st, r) && Good(g, r)
      && (!r.failed ==> PredOk(g, scope, inFunction, p) && Within(PredCalls(p), r.done))
    decreases Room(depth), 0, 1
  {
    var (ok, s) := Enter(depth, st);
    if ok {
      match p
      case And(_) => JunctionSound(g, scope, inFunction, p, depth, st);
      case Or(_) => JunctionSound(g, scope, inFunction, p, depth, st);
      case Not(item) => PredicateSound(g, scope, inFunction, item, depth + 1, s);
      case Present(value) => ExpressionSound(g, scope, inFunction, value, depth + 1, s);
      case Contains(_, _) => ContainsSound(g, scope, inFunction, p, depth, st);
      case _ => ComparisonSound(g, scope, inFunction, p, depth, st);
    }
  }

  lemma {:induction false} JunctionSound(g: Linked, scope: Scope, inFunction: bool, p: Pred, depth: nat, st: State)
    requires Ready(g, scope, st) && Enter(depth, st).0 && (p.And? || p.Or?)
    ensures var r := Predicate(g, scope, inFunction, p, depth, st);
      Extends(st, r) && Good(g, r)
      && (!r.failed ==> PredOk(g, scope, inFunction, p) && Within(PredCalls(p), r.done))
    decreases Room(depth), 0, 0
  {
    var s := Enter(depth, st).1.Fail(p.items == []);
    PredicatesSound(g, scope, inFunction, p.items, 0, depth + 1, s);
    var r := Predicates(g, scope, inFunction, p.items, 0, depth + 1, s);
    assert Predicate(g, scope, inFunction, p, depth, st) == r;
    ExtendsTransitive(st, s, r);
    if !r.failed { JunctionOk(g, scope, inFunction, p, r.done); }
  }

  lemma JunctionOk(g: Linked, scope: Scope, inFunction: bool, p: Pred, done: seq<Key>)
    requires (p.And? || p.Or?) && p.items != []
    requires forall i | 0 <= i < |p.items| :: PredOk(g, scope, inFunction, p.items[i]) && Within(PredCalls(p.items[i]), done)
    ensures PredOk(g, scope, inFunction, p) && Within(PredCalls(p), done)
  {
  }

  lemma {:induction false} ComparisonSound(g: Linked, scope: Scope, inFunction: bool, p: Pred, depth: nat, st: State)
    requires Ready(g, scope, st) && Enter(depth, st).0 && (p.Compare? || p.Eq?)
    ensures var r := Predicate(g, scope, inFunction, p, depth, st);
      Extends(st, r) && Good(g, r)
      && (!r.failed ==> PredOk(g, scope, inFunction, p) && Within(PredCalls(p), r.done))
    decreases Room(depth), 0, 0
  {
    var s := Enter(depth, st).1;
    PairSound(g, scope, inFunction, p.left, p.right, depth + 1, s);
    var l := Expression(g, scope, inFunction, p.left, depth + 1, s);
    var r := Expression(g, scope, inFunction, p.right, depth + 1, l.st);
    Around(g, depth, st, r.st, true);
    Around(g, depth, st, r.st, false);
  }

  lemma {:induction false} ContainsSound(g: Linked, scope: Scope, inFunction: bool, p: Pred, depth: nat, st: State)
    requires Ready(g, scope, st) && Enter(depth, st).0 && p.Contains?
    ensures var r := Predicate(g, scope, inFunction, p, depth, st);
      Extends(st, r) && Good(g, r)
      && (!r.failed ==> PredOk(g, scope, inFunction, p) && Within(PredCalls(p), r.done))
    decreases Room(depth), 0, 0
  {
    var s := Enter(depth, st).1;
    PairSound(g, scope, inFunction, p.value, p.element, depth + 1, s);
    var l := Expression(g, scope, inFunction, p.value, depth + 1, s);
    var r := Expression(g, scope, inFunction, p.element, depth + 1, l.st);
    Around(g, depth, st, r.st, true);
    Around(g, depth, st, r.st, false);
    if !l.st.failed {
      InferWf(g, scope, inFunction, p.value);
      ResolvedMeans(Null, l.t.value, g.types);
    }
  }

  lemma {:induction false} PairSound(g: Linked, scope: Scope, inFunction: bool, a: Expr, b: Expr, depth: nat, st: State)
    requires Ready(g, scope, st)
    ensures var l := Expression(g, scope, inFunction, a, depth, st);
      var r := Expression(g, scope, inFunction, b, depth, l.st);
      && Agrees(g, st, l, Infer(g, scope, inFunction, a), Calls(a))
      && Agrees(g, st, r, Infer(g, scope, inFunction, b), Calls(a) + Calls(b))
      && (l.st.failed ==> r.st.failed)
    decreases Room(depth), 1, 0
  {
    ExpressionSound(g, scope, inFunction, a, depth, st);
    ExpressionSound(g, scope, inFunction, b, depth, Expression(g, scope, inFunction, a, depth, st).st);
  }

  lemma {:induction false} PredicatesSound(g: Linked, scope: Scope, inFunction: bool, ps: seq<Pred>, from: nat, depth: nat, st: State)
    requires Ready(g, scope, st) && from <= |ps|
    ensures var r := Predicates(g, scope, inFunction, ps, from, depth, st);
      Extends(st, r) && Good(g, r)
      && (!r.failed ==> forall i | from <= i < |ps| :: PredOk(g, scope, inFunction, ps[i]) && Within(PredCalls(ps[i]), r.done))
    decreases Room(depth), 1, |ps| - from
  {
    if from < |ps| {
      PredicateSound(g, scope, inFunction, ps[from], depth, st);
      PredicatesSound(g, scope, inFunction, ps, from + 1, depth, Predicate(g, scope, inFunction, ps[from], depth, st));
    }
  }
}
