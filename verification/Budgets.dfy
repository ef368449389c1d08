/** How much an evaluation needs, computed from the meaning alone; and that within limits of that size
    nothing is reported (rust/crates/zf-context/src/context.rs, `Evaluator::tick`, `charge`, `items`). */
module Budgets {
  import opened Base
  import opened Types
  import opened Views
  import opened Syntax
  import opened Typing
  import opened Evaluation
  import opened Meaning
  import opened OperationsSound
  import opened Soundness

  // ----- What an expression needs -----

  /** Bytes and elements of a document. */
  function Size(b: Basis, v: Json): nat {
    Bytes_(v, b.encode) + Utf8Len(b.encode(v)) + if v.Arr? then |v.items| else 0
  }

  function OpEffort(b: Basis, op: UnaryOp, v: Json): nat {
    Size(b, v) + if op.Truncate? && v.Str? && op.count < |v.s| then Utf8Len(v.s[..op.count]) else 0
  }

  function CodesEffort(b: Basis, pairs: seq<(Json, Json)>): nat {
    if pairs == [] then 0 else Utf8Len(b.encode(pairs[0].0)) + CodesEffort(b, pairs[1..])
  }

  ghost function Effort(b: Basis, calls: nat, env: Values, e: Expr): (n: nat)
    ensures n > 0
    decreases calls, e, 1
  {
    1 + Work(b, calls, env, e)
  }

  /** The same once the step of `e` has been counted. */
  ghost function Work(b: Basis, calls: nat, env: Values, e: Expr): nat
    decreases calls, e, 0
  {
    match e
    case Variable(_) => 0
    case Resource(name) => if name in b.resources then Size(b, b.resources[name]) else 0
    case Literal(_, _) => 0
    case Unary(op, value) =>
      var v := Value_(b, calls, env, value);
      Effort(b, calls, env, value) + if v.Ok? then OpEffort(b, op, v.value) else 0
    case Filter(value, item, condition) =>
      var v := Value_(b, calls, env, value);
      Effort(b, calls, env, value)
      + if v.Ok? && v.value.Arr? then |v.value.items| + FilterEffort(b, calls, env, v.value.items, 0, item, condition) else 0
    case Keyed(op, value, item, key) =>
      var v := Value_(b, calls, env, value);
      Effort(b, calls, env, value)
      + (if v.Ok? && v.value.Arr? then
           var pairs := Paired(b, calls, env, v.value.items, 0, item, key, []);
           |v.value.items| + KeysEffort(b, calls, env, v.value.items, 0, item, key)
           + if pairs.Ok? then CodesEffort(b, pairs.value) else 0
         else 0)
    case Build(op, args) =>
      |args| + ArgsEffort(b, calls, env, args, 0) + TextEffort(op, args, Values_(b, calls, env, args, 0, []))
    case Call(key, args) =>
      var vs := Values_(b, calls, env, args, 0, []);
      ArgsEffort(b, calls, env, args, 0)
      + if key in b.g.library && vs.Ok? && calls > 0 then Effort(b, calls - 1, Named_(args, vs.value), b.g.library[key].body) else 0
  }

  /** The bytes of an assembled text. */
  function TextEffort(op: BuildOp, args: seq<Arg>, vs: Access<seq<Json>>): nat {
    if op.Template? && vs.Ok? && |vs.value| == |args| then
      var text := Construction(op, args, vs.value);
      if text.Ok? && text.value.Str? then Utf8Len(text.value.s) else 0
    else 0
  }

  ghost function ArgsEffort(b: Basis, calls: nat, env: Values, args: seq<Arg>, i: nat): nat
    requires i <= |args|
    decreases calls, args, |args| - i
  {
    if i == |args| then 0 else Effort(b, calls, env, args[i].value) + ArgsEffort(b, calls, env, args, i + 1)
  }

  ghost function FilterEffort(b: Basis, calls: nat, env: Values, items: seq<Json>, i: nat, item: string, condition: Pred): nat
    requires i <= |items|
    decreases calls, condition, 2, |items| - i
  {
    if i == |items| then 0
    else 1 + PredEffort(b, calls, env[item := items[i]], condition) + FilterEffort(b, calls, env, items, i + 1, item, condition)
  }

  ghost function KeysEffort(b: Basis, calls: nat, env: Values, items: seq<Json>, i: nat, item: string, key: Expr): nat
    requires i <= |items|
    decreases calls, key, 2, |items| - i
  {
    if i == |items| then 0
    else
      var k := Value_(b, calls, env[item := items[i]], key);
      1 + Effort(b, calls, env[item := items[i]], key) + (if k.Ok? then Size(b, k.value) else 0)
      + KeysEffort(b, calls, env, items, i + 1, item, key)
  }

  ghost function PredEffort(b: Basis, calls: nat, env: Values, p: Pred): (n: nat)
    ensures n > 0
    decreases calls, p, 1
  {
    1 + PredWork(b, calls, env, p)
  }

  ghost function PredWork(b: Basis, calls: nat, env: Values, p: Pred): nat
    decreases calls, p, 0
  {
    match p
    case Compare(left, _, right) => Effort(b, calls, env, left) + Effort(b, calls, env, right)
    case Contains(value, element) =>
      var v := Value_(b, calls, env, value);
      Effort(b, calls, env, value) + Effort(b, calls, env, element) + if v.Ok? then Size(b, v.value) else 0
    case Present(value) => Effort(b, calls, env, value)
    case Eq(left, right) => Effort(b, calls, env, left) + Effort(b, calls, env, right)
    case And(items) => PredsEffort(b, calls, env, items, 0)
    case Or(items) => PredsEffort(b, calls, env, items, 0)
    case Not(item) => PredEffort(b, calls, env, item)
  }

  ghost function PredsEffort(b: Basis, calls: nat, env: Values, items: seq<Pred>, i: nat): nat
    requires i <= |items|
    decreases calls, items, |items| - i
  {
    if i == |items| then 0 else PredEffort(b, calls, env, items[i]) + PredsEffort(b, calls, env, items, i + 1)
  }

  // ----- Room -----

  /** Nothing has been reported, and every budget has that much left. */
  predicate Room(w: World, st: Core, n: nat) {
    && !st.diagnosed && st.steps + n <= w.limits.maxSteps && st.derived + n <= w.limits.maxBytes && n <= w.limits.maxItems
  }

  /** No more than that was used, and nothing reported. */
  predicate Spent(st: Core, s: Core, n: nat) {
    !s.diagnosed && s.steps <= st.steps + n && s.derived <= st.derived + n
  }

  lemma RoomLeft(w: World, st: Core, s: Core, n: nat, m: nat, all: nat)
    requires Room(w, st, all) && Spent(st, s, n) && n + m <= all
    ensures Room(w, s, m)
  {
  }

  lemma SpentBoth(st: Core, s: Core, r: Core, n: nat, m: nat, all: nat)
    requires Spent(st, s, n) && Spent(s, r, m) && n + m <= all
    ensures Spent(st, r, all)
  {
  }

  // ----- Operations -----

  lemma OperateAffords(w: World, op: UnaryOp, v: View, t: DataType, st: Core)
    requires HasType(w, v, t) && UnaryType(w.g, op, t).Some? && !Operation(BasisOf(w), op, Denote(v)).Invalid?
    requires Room(w, st, OpEffort(BasisOf(w), op, Denote(v)))
    ensures Spent(st, Operate(w, op, v, st).st, OpEffort(BasisOf(w), op, Denote(v)))
  {
    ResolvedMeans(Denote(v), t, w.g.types);
    match op
    case Project(fields) =>
      assert forall i | 0 <= i < |fields| :: Field(v, fields[i]).Some?;
    case _ =>
  }

  lemma ReadAffords(w: World, name: string, st: Core)
    requires StateOk(w, st) && name in w.g.requirements
    requires !Value_(BasisOf(w), 0, map[], Resource(name)).Invalid?
    requires Room(w, st, Work(BasisOf(w), 0, map[], Resource(name)))
    ensures Spent(st, Read(w, name, st).st, Work(BasisOf(w), 0, map[], Resource(name)))
  {
  }

  // ----- Expressions -----

  /** Evaluating `e` uses no more than its effort. */
  ghost predicate Affords(w: World, env: Env, e: Expr, st: Core, calls: nat) {
    Spent(st, Expression(w, env, e, st).st, Effort(BasisOf(w), calls, DenoteMap(env.values), e))
  }

  /** The same once the step of `e` has been counted. */
  ghost predicate Pays(w: World, env: Env, e: Expr, st: Core, calls: nat) {
    Spent(st, Evaluate(w, env, e, st).st, Work(BasisOf(w), calls, DenoteMap(env.values), e))
  }

  /** There is room for `e`, and it means something. */
  ghost predicate HasRoom(w: World, env: Env, e: Expr, st: Core, calls: nat) {
    !Value_(BasisOf(w), calls, DenoteMap(env.values), e).Invalid? && Room(w, st, Effort(BasisOf(w), calls, DenoteMap(env.values), e))
  }

  ghost predicate HasWorkRoom(w: World, env: Env, e: Expr, st: Core, calls: nat) {
    !Value_(BasisOf(w), calls, DenoteMap(env.values), e).Invalid? && Room(w, st, Work(BasisOf(w), calls, DenoteMap(env.values), e))
  }

  lemma TickAffords(w: World, st: Core, n: nat)
    requires Room(w, st, n) && n > 0
    ensures var tick := Tick(w, st); tick.r.Ok? && Room(w, tick.st, n - 1) && Spent(st, tick.st, 1) && StateOk(w, tick.st) == StateOk(w, st)
  {
  }

  lemma {:induction false} ExpressionAffords(w: World, env: Env, scope: Scope, inFunction: bool, e: Expr, st: Core, order: seq<Key>, calls: nat)
    requires Setting(w, env, scope, st, order, calls) && HasRoom(w, env, e, st, calls)
    requires Infer(w.g, scope, inFunction, e).Some? && Within(Calls(e), order)
    ensures Affords(w, env, e, st, calls)
    decreases Left(w, st), 0, 1
  {
    TickAffords(w, st, Effort(BasisOf(w), calls, DenoteMap(env.values), e));
    EvaluateAffords(w, env, scope, inFunction, e, Tick(w, st).st, order, calls);
  }

  lemma {:induction false} EvaluateAffords(w: World, env: Env, scope: Scope, inFunction: bool, e: Expr, st: Core, order: seq<Key>, calls: nat)
    requires Setting(w, env, scope, st, order, calls) && HasWorkRoom(w, env, e, st, calls)
    requires Infer(w.g, scope, inFunction, e).Some? && Within(Calls(e), order)
    ensures Pays(w, env, e, st, calls)
    decreases Left(w, st), 3, 0
  {
    match e
    case Variable(_) =>
    case Resource(name) => ResourceAffords(w, env, e, st, calls);
    case Literal(_, _) =>
    case Unary(op, value) => UnaryAffords(w, env, scope, inFunction, e, st, order, calls);
    case Filter(_, _, _) => FilterAffords(w, env, scope, inFunction, e, st, order, calls);
    case Keyed(_, _, _, _) => KeyedAffords(w, env, scope, inFunction, e, st, order, calls);
    case Build(_, _) => BuildAffords(w, env, scope, inFunction, e, st, order, calls);
    case Call(_, _) => CallAffords(w, env, scope, inFunction, e, st, order, calls);
  }

  lemma ResourceAffords(w: World, env: Env, e: Expr, st: Core, calls: nat)
    requires e.Resource? && StateOk(w, st) && e.name in w.g.requirements && HasWorkRoom(w, env, e, st, calls)
    ensures Pays(w, env, e, st, calls)
  {
    ReadAffords(w, e.name, st);
  }

  lemma {:induction false} UnaryAffords(w: World, env: Env, scope: Scope, inFunction: bool, e: Expr, st: Core, order: seq<Key>, calls: nat)
    requires Setting(w, env, scope, st, order, calls) && e.Unary? && HasWorkRoom(w, env, e, st, calls)
    requires Infer(w.g, scope, inFunction, e).Some? && Within(Calls(e), order)
    ensures Pays(w, env, e, st, calls)
    decreases Left(w, st), 2, 0
  {
    var b, values := BasisOf(w), DenoteMap(env.values);
    ExpressionAffords(w, env, scope, inFunction, e.value, st, order, calls);
    ExpressionMeans(w, env, scope, inFunction, e.value, st, order, calls);
    var o := Expression(w, env, e.value, st);
    if o.r.Ok? {
      EnvScopeWf(w, env, scope);
      InferWf(w.g, scope, inFunction, e.value);
      var n, m := Effort(b, calls, values, e.value), OpEffort(b, e.op, Denote(o.r.value));
      RoomLeft(w, st, o.st, n, m, Work(b, calls, values, e));
      OperateAffords(w, e.op, o.r.value, Infer(w.g, scope, inFunction, e.value).value, o.st);
      SpentBoth(st, o.st, Operate(w, e.op, o.r.value, o.st).st, n, m, Work(b, calls, values, e));
    }
  }

  /** The operand of a collection operation, and the count of its elements. */
  lemma {:induction false} SourceAffords(w: World, env: Env, scope: Scope, inFunction: bool, value: Expr, ty: DataType, st: Core, order: seq<Key>, calls: nat, all: nat)
    requires Setting(w, env, scope, st, order, calls) && !Value_(BasisOf(w), calls, DenoteMap(env.values), value).Invalid?
    requires ItemType(w.g, Infer(w.g, scope, inFunction, value)) == Some(ty) && Within(Calls(value), order)
    requires var v := Value_(BasisOf(w), calls, DenoteMap(env.values), value);
      Room(w, st, all) && Effort(BasisOf(w), calls, DenoteMap(env.values), value) + (if v.Ok? && v.value.Arr? then |v.value.items| else 0) <= all
    ensures var o, v := Expression(w, env, value, st), Value_(BasisOf(w), calls, DenoteMap(env.values), value);
      && Spent(st, o.st, Effort(BasisOf(w), calls, DenoteMap(env.values), value)) && StateOk(w, o.st)
      && (!o.r.Ok? ==> o.r.Missing?)
      && (o.r.Ok? ==>
            && v == Ok(Denote(o.r.value)) && Denote(o.r.value).Arr? && Wf(ty, w.g.types)
            && AllInhabit(Denote(o.r.value).items, ty, w.g.types)
            && Count(w, o.r.value, o.st) == Out(Ok(|Denote(o.r.value).items|), o.st))
    decreases Left(w, st), 1, 0
  {
    ExpressionAffords(w, env, scope, inFunction, value, st, order, calls);
    ExpressionMeans(w, env, scope, inFunction, value, st, order, calls);
    var o := Expression(w, env, value, st);
    if o.r.Ok? {
      EnvScopeWf(w, env, scope);
      SourceItems(w, scope, inFunction, value, o.r.value, ty);
    }
  }

  lemma {:induction false} FilterAffords(w: World, env: Env, scope: Scope, inFunction: bool, e: Expr, st: Core, order: seq<Key>, calls: nat)
    requires Setting(w, env, scope, st, order, calls) && e.Filter? && HasWorkRoom(w, env, e, st, calls)
    requires Infer(w.g, scope, inFunction, e).Some? && Within(Calls(e), order)
    ensures Pays(w, env, e, st, calls)
    decreases Left(w, st), 2, 0
  {
    var b, values := BasisOf(w), DenoteMap(env.values);
    var ty, all := ItemType(w.g, Infer(w.g, scope, inFunction, e.value)).value, Work(b, calls, values, e);
    SourceAffords(w, env, scope, inFunction, e.value, ty, st, order, calls, all);
    var o := Expression(w, env, e.value, st);
    if o.r.Ok? {
      var items := Denote(o.r.value).items;
      var n, m := Effort(b, calls, values, e.value), FilterEffort(b, calls, values, items, 0, e.item, e.condition);
      assert DenoteSeq([]) == [];
      RoomLeft(w, st, o.st, n, m, all);
      FilterLoopAffords(w, env, scope, inFunction, o.r.value, |items|, 0, e.item, e.condition, ty, o.st.used, [], o.st, order, calls);
      SpentBoth(st, o.st, FilterLoop(w, env, o.r.value, |items|, 0, e.item, e.condition, o.st.used, [], o.st).st, n, m, all);
    }
  }

  lemma {:induction false} FilterStepAffords(w: World, env: Env, scope: Scope, inFunction: bool, source: View, i: nat,
    item: string, condition: Pred, ty: DataType, sources: set<string>, st: Core, order: seq<Key>, calls: nat)
    requires Setting(w, env, scope, st, order, calls) && Wf(ty, w.g.types)
    requires Denote(source).Arr? && i < |Denote(source).items| && AllInhabit(Denote(source).items, ty, w.g.types)
    requires PredOk(w.g, scope[item := ty], inFunction, condition) && Within(PredCalls(condition), order)
    requires var inner := DenoteMap(env.values)[item := Denote(source).items[i]];
      !Truth(BasisOf(w), calls, inner, condition).Invalid? && Room(w, st, 1 + PredEffort(BasisOf(w), calls, inner, condition))
    ensures var inner := DenoteMap(env.values)[item := Denote(source).items[i]];
      Spent(st, FilterStep(w, env, source, i, item, condition, sources, st).st, 1 + PredEffort(BasisOf(w), calls, inner, condition))
    decreases Left(w, st), 0, 2
  {
    var inner := DenoteMap(env.values)[item := Denote(source).items[i]];
    TickAffords(w, st, 1 + PredEffort(BasisOf(w), calls, inner, condition));
    BindItem(w, env, scope, source, i, item, ty, sources);
    PredicateAffords(w, Bind(env, item, Index(source, i).value, sources), scope[item := ty], inFunction, condition, Tick(w, st).st, order, calls);
  }

  /** Filtering from `i` on uses no more than its effort. */
  ghost predicate FilterPays(w: World, env: Env, source: View, n: nat, i: nat, item: string, condition: Pred,
    sources: set<string>, kept: seq<View>, st: Core, calls: nat)
    requires Denote(source).Arr? && i <= n == |Denote(source).items|
  {
    Spent(st, FilterLoop(w, env, source, n, i, item, condition, sources, kept, st).st,
      FilterEffort(BasisOf(w), calls, DenoteMap(env.values), Denote(source).items, i, item, condition))
  }

  ghost predicate FilterHasRoom(w: World, values: Values, items: seq<Json>, i: nat, item: string, condition: Pred, kept: seq<Json>, st: Core, calls: nat)
    requires i <= |items|
  {
    && !Selected(BasisOf(w), calls, values, items, i, item, condition, kept).Invalid?
    && Room(w, st, FilterEffort(BasisOf(w), calls, values, items, i, item, condition))
  }

  lemma FilterRoomLeft(w: World, values: Values, items: seq<Json>, i: nat, item: string, condition: Pred,
    kept: seq<Json>, st: Core, keep: bool, s: Core, calls: nat)
    requires i < |items| && FilterHasRoom(w, values, items, i, item, condition, kept, st, calls)
    requires Truth(BasisOf(w), calls, values[item := items[i]], condition) == Ok(keep)
    requires Spent(st, s, 1 + PredEffort(BasisOf(w), calls, values[item := items[i]], condition))
    ensures FilterHasRoom(w, values, items, i + 1, item, condition, if keep then kept + [items[i]] else kept, s, calls)
  {
    SelectedTurn(BasisOf(w), calls, values, items, i, item, condition, kept);
  }

  /** One element followed by the rest. */
  lemma FilterPaysNext(w: World, env: Env, source: View, n: nat, i: nat, item: string, condition: Pred,
    sources: set<string>, kept: seq<View>, st: Core, calls: nat)
    requires Denote(source).Arr? && i < n == |Denote(source).items|
    requires var step := FilterStep(w, env, source, i, item, condition, sources, st);
      && Spent(st, step.st, 1 + PredEffort(BasisOf(w), calls, DenoteMap(env.values)[item := Denote(source).items[i]], condition))
      && (step.r.Ok? ==> FilterPays(w, env, source, n, i + 1, item, condition, sources,
            if step.r.value then kept + [Index(source, i).value] else kept, step.st, calls))
    ensures FilterPays(w, env, source, n, i, item, condition, sources, kept, st, calls)
  {
    FilterTurn(w, env, source, n, i, item, condition, sources, kept, st);
  }

  /** Deciding on the element at `i` uses its share, and leaves room for the others. */
  lemma {:induction false} FirstKept(w: World, env: Env, scope: Scope, inFunction: bool, source: View, n: nat, i: nat,
    item: string, condition: Pred, ty: DataType, sources: set<string>, kept: seq<View>, st: Core, order: seq<Key>, calls: nat)
    returns (keep: Out<bool>, next: seq<View>)
    requires Setting(w, env, scope, st, order, calls) && Wf(ty, w.g.types)
    requires Denote(source).Arr? && n == |Denote(source).items| && i < n && AllInhabit(Denote(source).items, ty, w.g.types)
    requires PredOk(w.g, scope[item := ty], inFunction, condition) && Within(PredCalls(condition), order)
    requires AllInhabit(DenoteSeq(kept), ty, w.g.types)
    requires FilterHasRoom(w, DenoteMap(env.values), Denote(source).items, i, item, condition, DenoteSeq(kept), st, calls)
    ensures keep == FilterStep(w, env, source, i, item, condition, sources, st) && StateOk(w, keep.st)
    ensures Spent(st, keep.st, 1 + PredEffort(BasisOf(w), calls, DenoteMap(env.values)[item := Denote(source).items[i]], condition))
    ensures keep.r.Ok? ==>
      && next == (if keep.r.value then kept + [Index(source, i).value] else kept) && AllInhabit(DenoteSeq(next), ty, w.g.types)
      && FilterHasRoom(w, DenoteMap(env.values), Denote(source).items, i + 1, item, condition, DenoteSeq(next), keep.st, calls)
    decreases Left(w, st), 1, 0
  {
    var values, items := DenoteMap(env.values), Denote(source).items;
    SelectedTurn(BasisOf(w), calls, values, items, i, item, condition, DenoteSeq(kept));
    FilterStepAffords(w, env, scope, inFunction, source, i, item, condition, ty, sources, st, order, calls);
    FilterStepMeans(w, env, scope, inFunction, source, i, item, condition, ty, sources, st, order, calls);
    keep, next := FilterStep(w, env, source, i, item, condition, sources, st), kept;
    if keep.r.Ok? {
      next := KeptNext(w, kept, Index(source, i).value, keep.r.value, ty);
      FilterRoomLeft(w, values, items, i, item, condition, DenoteSeq(kept), st, keep.r.value, keep.st, calls);
    }
  }

  lemma {:induction false} FilterLoopAffords(w: World, env: Env, scope: Scope, inFunction: bool, source: View, n: nat, i: nat,
    item: string, condition: Pred, ty: DataType, sources: set<string>, kept: seq<View>, st: Core, order: seq<Key>, calls: nat)
    requires Setting(w, env, scope, st, order, calls) && Wf(ty, w.g.types)
    requires Denote(source).Arr? && n == |Denote(source).items| && i <= n && AllInhabit(Denote(source).items, ty, w.g.types)
    requires PredOk(w.g, scope[item := ty], inFunction, condition) && Within(PredCalls(condition), order)
    requires AllInhabit(DenoteSeq(kept), ty, w.g.types)
    requires FilterHasRoom(w, DenoteMap(env.values), Denote(source).items, i, item, condition, DenoteSeq(kept), st, calls)
    ensures FilterPays(w, env, source, n, i, item, condition, sources, kept, st, calls)
    decreases Left(w, st), 1, n - i
  {
    if i < n {
      var keep, next := FirstKept(w, env, scope, inFunction, source, n, i, item, condition, ty, sources, kept, st, order, calls);
      if keep.r.Ok? {
        FilterLoopAffords(w, env, scope, inFunction, source, n, i + 1, item, condition, ty, sources, next, keep.st, order, calls);
      }
      FilterPaysNext(w, env, source, n, i, item, condition, sources, kept, st, calls);
    }
  }

  lemma {:induction false} KeyedAffords(w: World, env: Env, scope: Scope, inFunction: bool, e: Expr, st: Core, order: seq<Key>, calls: nat)
    requires Setting(w, env, scope, st, order, calls) && e.Keyed? && HasWorkRoom(w, env, e, st, calls)
    requires Infer(w.g, scope, inFunction, e).Some? && Within(Calls(e), order)
    ensures Pays(w, env, e, st, calls)
    decreases Left(w, st), 2, 0
  {
    var b, values := BasisOf(w), DenoteMap(env.values);
    var ty, all := ItemType(w.g, Infer(w.g, scope, inFunction, e.value)).value, Work(b, calls, values, e);
    SourceAffords(w, env, scope, inFunction, e.value, ty, st, order, calls, all);
    var o := Expression(w, env, e.value, st);
    if o.r.Ok? {
      var items := Denote(o.r.value).items;
      var n, m := Effort(b, calls, values, e.value), KeysEffort(b, calls, values, items, 0, e.item, e.key);
      assert Pairs([]) == [];
      var t := Infer(w.g, scope[e.item := ty], inFunction, e.key).value;
      RoomLeft(w, st, o.st, n, m, all);
      KeyedLoopAffords(w, env, scope, inFunction, o.r.value, |items|, 0, e.item, e.key, !e.keyedOp.MapOp?, t, ty, o.st.used, [], o.st, order, calls);
      KeyedLoopMeans(w, env, scope, inFunction, o.r.value, |items|, 0, e.item, e.key, !e.keyedOp.MapOp?, t, ty, o.st.used, [], o.st, order, calls);
      var es := KeyedLoop(w, env, o.r.value, |items|, 0, e.item, e.key, !e.keyedOp.MapOp?, o.st.used, [], o.st);
      SpentBoth(st, o.st, es.st, n, m, n + m);
      if es.r.Ok? {
        var c := CodesEffort(b, Pairs(es.r.value));
        RoomLeft(w, st, es.st, n + m, c, all);
        RegroupAffords(w, e.keyedOp, es.r.value, es.st);
        SpentBoth(st, es.st, Regroup(w, e.keyedOp, es.r.value, es.st).st, n + m, c, all);
      }
    }
  }

  lemma {:induction false} CodesAfford(w: World, es: seq<Entry>, codes: seq<(string, Entry)>, i: nat, st: Core)
    requires codes == Codes(w, es) && i <= |codes| && Room(w, st, CodesEffort(BasisOf(w), Pairs(es)[i..]))
    ensures Spent(st, ChargeCodes(w, codes, i, st).st, CodesEffort(BasisOf(w), Pairs(es)[i..])) && ChargeCodes(w, codes, i, st).r.Ok?
    decreases |codes| - i
  {
    if i < |codes| {
      assert Pairs(es)[i..][1..] == Pairs(es)[i + 1..];
      CodesAfford(w, es, codes, i + 1, Charge(w, Utf8Len(codes[i].0), st).st);
    }
  }

  lemma RegroupAffords(w: World, op: KeyedOp, es: seq<Entry>, st: Core)
    requires Room(w, st, CodesEffort(BasisOf(w), Pairs(es)))
    ensures Spent(st, Regroup(w, op, es, st).st, CodesEffort(BasisOf(w), Pairs(es)))
  {
    assert Pairs(es)[0..] == Pairs(es);
    CodesAfford(w, es, Codes(w, es), 0, st);
  }

  lemma {:induction false} KeyedStepAffords(w: World, env: Env, scope: Scope, inFunction: bool, source: View, i: nat,
    item: string, key: Expr, charged: bool, t: DataType, ty: DataType, sources: set<string>, st: Core, order: seq<Key>, calls: nat)
    requires Setting(w, env, scope, st, order, calls) && Wf(ty, w.g.types)
    requires Denote(source).Arr? && i < |Denote(source).items| && AllInhabit(Denote(source).items, ty, w.g.types)
    requires Infer(w.g, scope[item := ty], inFunction, key) == Some(t) && Within(Calls(key), order)
    requires var inner := DenoteMap(env.values)[item := Denote(source).items[i]];
      !Value_(BasisOf(w), calls, inner, key).Invalid? && Room(w, st, KeyEffort(BasisOf(w), calls, inner, key))
    ensures var inner := DenoteMap(env.values)[item := Denote(source).items[i]];
      Spent(st, KeyedStep(w, env, source, i, item, key, charged, sources, st).st, KeyEffort(BasisOf(w), calls, inner, key))
    decreases Left(w, st), 0, 2
  {
    var b, inner := BasisOf(w), DenoteMap(env.values)[item := Denote(source).items[i]];
    var s, v := Tick(w, st).st, Index(source, i).value;
    TickAffords(w, st, KeyEffort(b, calls, inner, key));
    BindItem(w, env, scope, source, i, item, ty, sources);
    ExpressionAffords(w, Bind(env, item, v, sources), scope[item := ty], inFunction, key, s, order, calls);
    ExpressionMeans(w, Bind(env, item, v, sources), scope[item := ty], inFunction, key, s, order, calls);
    var k := Expression(w, Bind(env, item, v, sources), key, s);
    if k.r.Ok? { KeepAffords(w, k.r.value, v, charged, k.st); }
  }

  /** The step of an element, its key, and keeping it. */
  ghost function KeyEffort(b: Basis, calls: nat, env: Values, key: Expr): nat {
    var k := Value_(b, calls, env, key);
    1 + Effort(b, calls, env, key) + if k.Ok? then Size(b, k.value) else 0
  }

  lemma KeepAffords(w: World, key: View, value: View, charged: bool, st: Core)
    requires Room(w, st, Size(BasisOf(w), Denote(key)))
    ensures Spent(st, Keep(w, key, value, charged, st).st, Size(BasisOf(w), Denote(key)))
  {
  }

  /** Keying from `i` on uses no more than its effort. */
  ghost predicate KeysPay(w: World, env: Env, source: View, n: nat, i: nat, item: string, key: Expr, charged: bool,
    sources: set<string>, done: seq<Entry>, st: Core, calls: nat)
    requires Denote(source).Arr? && i <= n == |Denote(source).items|
  {
    Spent(st, KeyedLoop(w, env, source, n, i, item, key, charged, sources, done, st).st,
      KeysEffort(BasisOf(w), calls, DenoteMap(env.values), Denote(source).items, i, item, key))
  }

  ghost predicate KeysHaveRoom(w: World, values: Values, items: seq<Json>, i: nat, item: string, key: Expr, done: seq<(Json, Json)>, st: Core, calls: nat)
    requires i <= |items|
  {
    && !Paired(BasisOf(w), calls, values, items, i, item, key, done).Invalid?
    && Room(w, st, KeysEffort(BasisOf(w), calls, values, items, i, item, key))
  }

  lemma KeysRoomLeft(w: World, values: Values, items: seq<Json>, i: nat, item: string, key: Expr,
    done: seq<(Json, Json)>, st: Core, k: Json, s: Core, calls: nat)
    requires i < |items| && KeysHaveRoom(w, values, items, i, item, key, done, st, calls)
    requires Value_(BasisOf(w), calls, values[item := items[i]], key) == Ok(k)
    requires Spent(st, s, KeyEffort(BasisOf(w), calls, values[item := items[i]], key))
    ensures KeysHaveRoom(w, values, items, i + 1, item, key, done + [(k, items[i])], s, calls)
  {
    PairedTurn(BasisOf(w), calls, values, items, i, item, key, done);
  }

  /** One element followed by the rest. */
  lemma KeysPayNext(w: World, env: Env, source: View, n: nat, i: nat, item: string, key: Expr, charged: bool,
    sources: set<string>, done: seq<Entry>, st: Core, calls: nat)
    requires Denote(source).Arr? && i < n == |Denote(source).items|
    requires var step := KeyedStep(w, env, source, i, item, key, charged, sources, st);
      && Spent(st, step.st, KeyEffort(BasisOf(w), calls, DenoteMap(env.values)[item := Denote(source).items[i]], key))
      && (step.r.Ok? ==> KeysPay(w, env, source, n, i + 1, item, key, charged, sources, done + [step.r.value], step.st, calls))
    ensures KeysPay(w, env, source, n, i, item, key, charged, sources, done, st, calls)
  {
    KeyedTurn(w, env, source, n, i, item, key, charged, sources, done, st);
  }

  /** Keying the element at `i` uses its share, and leaves room for the others. */
  lemma {:induction false} FirstKeyed(w: World, env: Env, scope: Scope, inFunction: bool, source: View, n: nat, i: nat,
    item: string, key: Expr, charged: bool, t: DataType, ty: DataType, sources: set<string>, done: seq<Entry>, st: Core, order: seq<Key>, calls: nat)
    returns (o: Out<Entry>, next: seq<Entry>)
    requires Setting(w, env, scope, st, order, calls) && Wf(ty, w.g.types)
    requires Denote(source).Arr? && n == |Denote(source).items| && i < n && AllInhabit(Denote(source).items, ty, w.g.types)
    requires Infer(w.g, scope[item := ty], inFunction, key) == Some(t) && Within(Calls(key), order)
    requires PairsTyped(w, Pairs(done), t, ty)
    requires KeysHaveRoom(w, DenoteMap(env.values), Denote(source).items, i, item, key, Pairs(done), st, calls)
    ensures o == KeyedStep(w, env, source, i, item, key, charged, sources, st) && StateOk(w, o.st)
    ensures Spent(st, o.st, KeyEffort(BasisOf(w), calls, DenoteMap(env.values)[item := Denote(source).items[i]], key))
    ensures o.r.Ok? ==>
      && next == done + [o.r.value] && PairsTyped(w, Pairs(next), t, ty)
      && KeysHaveRoom(w, DenoteMap(env.values), Denote(source).items, i + 1, item, key, Pairs(next), o.st, calls)
    decreases Left(w, st), 1, 0
  {
    var values, items := DenoteMap(env.values), Denote(source).items;
    PairedTurn(BasisOf(w), calls, values, items, i, item, key, Pairs(done));
    KeyedStepAffords(w, env, scope, inFunction, source, i, item, key, charged, t, ty, sources, st, order, calls);
    KeyedStepMeans(w, env, scope, inFunction, source, i, item, key, charged, t, ty, sources, st, order, calls);
    o, next := KeyedStep(w, env, source, i, item, key, charged, sources, st), done;
    if o.r.Ok? {
      next := PairedNext(w, source, i, done, o.r.value, t, ty);
      KeysRoomLeft(w, values, items, i, item, key, Pairs(done), st, Denote(o.r.value.key), o.st, calls);
    }
  }

  lemma {:induction false} KeyedLoopAffords(w: World, env: Env, scope: Scope, inFunction: bool, source: View, n: nat, i: nat,
    item: string, key: Expr, charged: bool, t: DataType, ty: DataType, sources: set<string>, done: seq<Entry>, st: Core, order: seq<Key>, calls: nat)
    requires Setting(w, env, scope, st, order, calls) && Wf(ty, w.g.types)
    requires Denote(source).Arr? && n == |Denote(source).items| && i <= n && AllInhabit(Denote(source).items, ty, w.g.types)
    requires Infer(w.g, scope[item := ty], inFunction, key) == Some(t) && Within(Calls(key), order)
    requires PairsTyped(w, Pairs(done), t, ty)
    requires KeysHaveRoom(w, DenoteMap(env.values), Denote(source).items, i, item, key, Pairs(done), st, calls)
    ensures KeysPay(w, env, source, n, i, item, key, charged, sources, done, st, calls)
    decreases Left(w, st), 1, n - i
  {
    if i < n {
      var o, next := FirstKeyed(w, env, scope, inFunction, source, n, i, item, key, charged, t, ty, sources, done, st, order, calls);
      if o.r.Ok? {
        KeyedLoopAffords(w, env, scope, inFunction, source, n, i + 1, item, key, charged, t, ty, sources, next, o.st, order, calls);
      }
      KeysPayNext(w, env, source, n, i, item, key, charged, sources, done, st, calls);
    }
  }

  // ----- Arguments, assembled values and calls -----

  lemma {:induction false} Utf8Join(a: string, b: string)
    ensures Utf8Len(a + b) == Utf8Len(a) + Utf8Len(b)
  {
    if b == [] {
      assert a + b == a;
    } else {
      Utf8Join(a, b[..|b| - 1]);
      assert (a + b)[..|a + b| - 1] == a + b[..|b| - 1];
    }
  }

  lemma {:induction false} TextExtends(parts: seq<Part>, i: nat, values: Values, text: string)
    requires i <= |parts| && Text_(parts, i, values, text).Ok?
    ensures text <= Text_(parts, i, values, text).value && Utf8Len(text) <= Utf8Len(Text_(parts, i, values, text).value)
    decreases |parts| - i
  {
    if i < |parts| {
      var next := match parts[i] case Plain(t) => t case Hole(name) => values[name].s;
      TextExtends(parts, i + 1, values, text + next);
      Utf8Join(text, next);
    }
  }

  /** A text that fits the byte budget is filled in, and costs nothing yet. */
  lemma {:induction false} FillAffords(w: World, parts: seq<Part>, i: nat, values: map<string, View>, text: string, st: Core)
    requires i <= |parts| && Text_(parts, i, DenoteMap(values), text).Ok?
    requires Utf8Len(Text_(parts, i, DenoteMap(values), text).value) <= w.limits.maxBytes
    ensures Fill(w, parts, i, values, text, st) == Out(Text_(parts, i, DenoteMap(values), text), st)
    decreases |parts| - i
  {
    if i < |parts| {
      var next := match parts[i] case Plain(t) => t case Hole(name) => Denote(values[name]).s;
      TextExtends(parts, i + 1, DenoteMap(values), text + next);
      Utf8Join(text, next);
      FillAffords(w, parts, i + 1, values, text + next, st);
    }
  }

  lemma AssembleAffords(w: World, op: BuildOp, args: seq<Arg>, bs: seq<Bound>, st: Core)
    requires |args| == |bs| && Construction(op, args, DenoteAll(bs)).Ok?
    requires Room(w, st, TextEffort(op, args, Ok(DenoteAll(bs))))
    ensures Spent(st, Assemble(w, op, args, bs, st).st, TextEffort(op, args, Ok(DenoteAll(bs))))
  {
    if op.Template? {
      BoundDenotes(args, bs);
      FillAffords(w, TemplateParts(op.text).value, 0, BoundValues(args, bs), "", st);
    }
  }

  /** Evaluating the arguments from `i` on uses no more than their effort. */
  ghost predicate ArgsAfford(w: World, env: Env, args: seq<Arg>, i: nat, done: seq<Bound>, st: Core, calls: nat)
    requires i == |done| <= |args|
  {
    Spent(st, Arguments(w, env, args, i, done, st).st, ArgsEffort(BasisOf(w), calls, DenoteMap(env.values), args, i))
  }

  lemma ArgumentsTurn(w: World, env: Env, args: seq<Arg>, done: seq<Bound>, st: Core, calls: nat)
    requires |done| < |args|
    requires var v := Expression(w, env, args[|done|].value, st);
      && Affords(w, env, args[|done|].value, st, calls)
      && (v.r.Ok? ==> ArgsAfford(w, env, args, |done| + 1, done + [Bound(v.r.value, v.st.used)], v.st, calls))
    ensures ArgsAfford(w, env, args, |done|, done, st, calls)
  {
  }

  lemma ValuesTurn(b: Basis, calls: nat, env: Values, args: seq<Arg>, done: seq<Json>)
    requires |done| < |args|
    ensures var v := Value_(b, calls, env, args[|done|].value);
      Values_(b, calls, env, args, |done|, done)
        == if v.Ok? then Values_(b, calls, env, args, |done| + 1, done + [v.value]) else Fail(v)
  {
  }

  ghost predicate ArgsHaveRoom(w: World, values: Values, args: seq<Arg>, done: seq<Json>, st: Core, calls: nat)
    requires |done| <= |args|
  {
    && !Values_(BasisOf(w), calls, values, args, |done|, done).Invalid?
    && Room(w, st, ArgsEffort(BasisOf(w), calls, values, args, |done|))
  }

  lemma ArgsRoomLeft(w: World, values: Values, args: seq<Arg>, done: seq<Json>, st: Core, v: Json, s: Core, calls: nat)
    requires |done| < |args| && ArgsHaveRoom(w, values, args, done, st, calls)
    requires Value_(BasisOf(w), calls, values, args[|done|].value) == Ok(v)
    requires Spent(st, s, Effort(BasisOf(w), calls, values, args[|done|].value))
    ensures ArgsHaveRoom(w, values, args, done + [v], s, calls)
  {
    ValuesTurn(BasisOf(w), calls, values, args, done);
  }

  lemma {:induction false} ArgumentsAfford(w: World, env: Env, scope: Scope, inFunction: bool, args: seq<Arg>, i: nat, done: seq<Bound>, st: Core, order: seq<Key>, calls: nat)
    requires Setting(w, env, scope, st, order, calls) && i == |done| <= |args|
    requires forall j | 0 <= j < |args| :: Infer(w.g, scope, inFunction, args[j].value).Some? && Within(Calls(args[j].value), order)
    requires ArgsHaveRoom(w, DenoteMap(env.values), args, DenoteAll(done), st, calls)
    ensures ArgsAfford(w, env, args, i, done, st, calls)
    decreases Left(w, st), 1, |args| - i
  {
    if i < |args| {
      var b, values := BasisOf(w), DenoteMap(env.values);
      ValuesTurn(b, calls, values, args, DenoteAll(done));
      ExpressionAffords(w, env, scope, inFunction, args[i].value, st, order, calls);
      ExpressionMeans(w, env, scope, inFunction, args[i].value, st, order, calls);
      var v := Expression(w, env, args[i].value, st);
      if v.r.Ok? {
        var next := done + [Bound(v.r.value, v.st.used)];
        assert DenoteAll(next) == DenoteAll(done) + [Denote(v.r.value)];
        ArgsRoomLeft(w, values, args, DenoteAll(done), st, Denote(v.r.value), v.st, calls);
        ArgumentsAfford(w, env, scope, inFunction, args, i + 1, next, v.st, order, calls);
      }
      ArgumentsTurn(w, env, args, done, st, calls);
    }
  }

  lemma {:induction false} BuildAffords(w: World, env: Env, scope: Scope, inFunction: bool, e: Expr, st: Core, order: seq<Key>, calls: nat)
    requires Setting(w, env, scope, st, order, calls) && e.Build? && HasWorkRoom(w, env, e, st, calls)
    requires Infer(w.g, scope, inFunction, e).Some? && Within(Calls(e), order)
    ensures Pays(w, env, e, st, calls)
    decreases Left(w, st), 2, 0
  {
    var b, values, all := BasisOf(w), DenoteMap(env.values), Work(BasisOf(w), calls, DenoteMap(env.values), e);
    assert Refused(w, e.buildOp, e.args, st) == Out(Ok(()), st);
    assert DenoteAll([]) == [];
    ArgumentsAfford(w, env, scope, inFunction, e.args, 0, [], st, order, calls);
    ArgumentsMean(w, env, scope, inFunction, e.args, 0, [], st, order, calls);
    var bs := Arguments(w, env, e.args, 0, [], st);
    if bs.r.Ok? {
      var n, m := ArgsEffort(b, calls, values, e.args, 0), TextEffort(e.buildOp, e.args, Ok(DenoteAll(bs.r.value)));
      RoomLeft(w, st, bs.st, n, m, all);
      AssembleAffords(w, e.buildOp, e.args, bs.r.value, bs.st);
      SpentBoth(st, bs.st, Assemble(w, e.buildOp, e.args, bs.r.value, bs.st).st, n, m, all);
    }
  }

  /** The body of a called function. */
  lemma {:induction false} CalleeAffords(w: World, key: Key, inner: Env, st: Core, before: seq<Key>, calls: nat)
    requires Callable(w, key, inner, st, before, calls) && HasRoom(w, inner, w.g.library[key].body, st, calls - 1)
    ensures Affords(w, inner, w.g.library[key].body, st, calls - 1)
    decreases Left(w, st), 0, 3
  {
    var f := w.g.library[key];
    ExpressionAffords(w, inner, f.parameters, true, f.body, st, before, calls - 1);
  }

  lemma {:induction false} CallAffords(w: World, env: Env, scope: Scope, inFunction: bool, e: Expr, st: Core, order: seq<Key>, calls: nat)
    requires Setting(w, env, scope, st, order, calls) && e.Call? && HasWorkRoom(w, env, e, st, calls)
    requires Infer(w.g, scope, inFunction, e).Some? && Within(Calls(e), order)
    ensures Pays(w, env, e, st, calls)
    decreases Left(w, st), 2, 0
  {
    var b, values, all := BasisOf(w), DenoteMap(env.values), Work(BasisOf(w), calls, DenoteMap(env.values), e);
    var ts := ArgTypes(w.g, scope, inFunction, e.args);
    assert DenoteAll([]) == [];
    ArgumentsAfford(w, env, scope, inFunction, e.args, 0, [], st, order, calls);
    ArgumentsMean(w, env, scope, inFunction, e.args, 0, [], st, order, calls);
    var bs := Arguments(w, env, e.args, 0, [], st);
    if bs.r.Ok? {
      var inner := Env(BoundValues(e.args, bs.r.value), BoundReads(e.args, bs.r.value));
      var before := BodySetting(w, e.function_, e.args, bs.r.value, ts, inner, bs.st, order, calls);
      BoundDenotes(e.args, bs.r.value);
      var body := w.g.library[e.function_].body;
      var n, m := ArgsEffort(b, calls, values, e.args, 0), Effort(b, calls - 1, DenoteMap(inner.values), body);
      RoomLeft(w, st, bs.st, n, m, all);
      CalleeAffords(w, e.function_, inner, bs.st, before, calls);
      SpentBoth(st, bs.st, Expression(w, inner, body, bs.st).st, n, m, all);
    }
  }

  // ----- Conditions -----

  /** Deciding `p` uses no more than its effort. */
  ghost predicate PredAffords(w: World, env: Env, p: Pred, st: Core, calls: nat) {
    Spent(st, Predicate(w, env, p, st).st, PredEffort(BasisOf(w), calls, DenoteMap(env.values), p))
  }

  ghost predicate PredPays(w: World, env: Env, p: Pred, st: Core, calls: nat) {
    Spent(st, Test(w, env, p, st).st, PredWork(BasisOf(w), calls, DenoteMap(env.values), p))
  }

  ghost predicate PredHasRoom(w: World, env: Env, p: Pred, st: Core, calls: nat) {
    !Truth(BasisOf(w), calls, DenoteMap(env.values), p).Invalid? && Room(w, st, PredEffort(BasisOf(w), calls, DenoteMap(env.values), p))
  }

  ghost predicate PredHasWorkRoom(w: World, env: Env, p: Pred, st: Core, calls: nat) {
    !Truth(BasisOf(w), calls, DenoteMap(env.values), p).Invalid? && Room(w, st, PredWork(BasisOf(w), calls, DenoteMap(env.values), p))
  }

  lemma {:induction false} PredicateAffords(w: World, env: Env, scope: Scope, inFunction: bool, p: Pred, st: Core, order: seq<Key>, calls: nat)
    requires Setting(w, env, scope, st, order, calls) && PredHasRoom(w, env, p, st, calls)
    requires PredOk(w.g, scope, inFunction, p) && Within(PredCalls(p), order)
    ensures PredAffords(w, env, p, st, calls)
    decreases Left(w, st), 0, 1
  {
    TickAffords(w, st, PredEffort(BasisOf(w), calls, DenoteMap(env.values), p));
    TestAffords(w, env, scope, inFunction, p, Tick(w, st).st, order, calls);
  }

  lemma {:induction false} TestAffords(w: World, env: Env, scope: Scope, inFunction: bool, p: Pred, st: Core, order: seq<Key>, calls: nat)
    requires Setting(w, env, scope, st, order, calls) && PredHasWorkRoom(w, env, p, st, calls)
    requires PredOk(w.g, scope, inFunction, p) && Within(PredCalls(p), order)
    ensures PredPays(w, env, p, st, calls)
    decreases Left(w, st), 3, 0
  {
    match p
    case Compare(_, _, _) => ComparisonAffords(w, env, scope, inFunction, p, st, order, calls);
    case Eq(_, _) => ComparisonAffords(w, env, scope, inFunction, p, st, order, calls);
    case Contains(_, _) => ContainsAffords(w, env, scope, inFunction, p, st, order, calls);
    case Present(value) => ExpressionAffords(w, env, scope, inFunction, value, st, order, calls);
    case And(items) => JunctionAffords(w, env, scope, inFunction, items, 0, true, st, order, calls);
    case Or(items) => JunctionAffords(w, env, scope, inFunction, items, 0, false, st, order, calls);
    case Not(item) => PredicateAffords(w, env, scope, inFunction, item, st, order, calls);
  }

  /** Two operands, one after the other. */
  lemma {:induction false} BothAfford(w: World, env: Env, scope: Scope, inFunction: bool, left: Expr, right: Expr, st: Core, all: nat, order: seq<Key>, calls: nat)
    requires Setting(w, env, scope, st, order, calls) && Room(w, st, all)
    requires Infer(w.g, scope, inFunction, left).Some? && Within(Calls(left), order)
    requires Infer(w.g, scope, inFunction, right).Some? && Within(Calls(right), order)
    requires var b, values := BasisOf(w), DenoteMap(env.values);
      && Effort(b, calls, values, left) + Effort(b, calls, values, right) <= all && !Value_(b, calls, values, left).Invalid?
      && (Value_(b, calls, values, left).Ok? ==> !Value_(b, calls, values, right).Invalid?)
    ensures var l := Expression(w, env, left, st);
      Affords(w, env, left, st, calls) && (l.r.Ok? ==> Spent(st, Expression(w, env, right, l.st).st, all))
    decreases Left(w, st), 1, 0
  {
    var b, values := BasisOf(w), DenoteMap(env.values);
    ExpressionAffords(w, env, scope, inFunction, left, st, order, calls);
    ExpressionMeans(w, env, scope, inFunction, left, st, order, calls);
    var l := Expression(w, env, left, st);
    if l.r.Ok? {
      RoomLeft(w, st, l.st, Effort(b, calls, values, left), Effort(b, calls, values, right), all);
      ExpressionAffords(w, env, scope, inFunction, right, l.st, order, calls);
      SpentBoth(st, l.st, Expression(w, env, right, l.st).st, Effort(b, calls, values, left), Effort(b, calls, values, right), all);
    }
  }

  lemma {:induction false} ComparisonAffords(w: World, env: Env, scope: Scope, inFunction: bool, p: Pred, st: Core, order: seq<Key>, calls: nat)
    requires Setting(w, env, scope, st, order, calls) && (p.Compare? || p.Eq?) && PredHasWorkRoom(w, env, p, st, calls)
    requires PredOk(w.g, scope, inFunction, p) && Within(PredCalls(p), order)
    ensures PredPays(w, env, p, st, calls)
    decreases Left(w, st), 2, 0
  {
    BothAfford(w, env, scope, inFunction, p.left, p.right, st, PredWork(BasisOf(w), calls, DenoteMap(env.values), p), order, calls);
  }

  lemma {:induction false} ContainsAffords(w: World, env: Env, scope: Scope, inFunction: bool, p: Pred, st: Core, order: seq<Key>, calls: nat)
    requires Setting(w, env, scope, st, order, calls) && p.Contains? && PredHasWorkRoom(w, env, p, st, calls)
    requires PredOk(w.g, scope, inFunction, p) && Within(PredCalls(p), order)
    ensures PredPays(w, env, p, st, calls)
    decreases Left(w, st), 2, 0
  {
    var b, values, all := BasisOf(w), DenoteMap(env.values), PredWork(BasisOf(w), calls, DenoteMap(env.values), p);
    ExpressionAffords(w, env, scope, inFunction, p.value, st, order, calls);
    ExpressionMeans(w, env, scope, inFunction, p.value, st, order, calls);
    var v := Expression(w, env, p.value, st);
    if v.r.Ok? {
      var n, m, size := Effort(b, calls, values, p.value), Effort(b, calls, values, p.element), Size(b, Denote(v.r.value));
      RoomLeft(w, st, v.st, n, m + size, all);
      ExpressionAffords(w, env, scope, inFunction, p.element, v.st, order, calls);
      ExpressionMeans(w, env, scope, inFunction, p.element, v.st, order, calls);
      var x := Expression(w, env, p.element, v.st);
      SpentBoth(st, v.st, x.st, n, m, n + m);
      if x.r.Ok? {
        RoomLeft(w, st, x.st, n + m, size, all);
        MemberAffords(w, v.r.value, x.r.value, x.st);
        SpentBoth(st, x.st, Member(w, v.r.value, x.r.value, x.st).st, n + m, size, all);
      }
    }
  }

  lemma MemberAffords(w: World, v: View, x: View, st: Core)
    requires Room(w, st, Size(BasisOf(w), Denote(v)))
    ensures Spent(st, Member(w, v, x, st).st, Size(BasisOf(w), Denote(v)))
  {
    if Denote(v).Arr? { ContainsLoopAffords(w, v, x, |Denote(v).items|, 0, st); }
  }

  lemma {:induction false} ContainsLoopAffords(w: World, v: View, x: View, n: nat, i: nat, st: Core)
    requires i <= n && Room(w, st, n - i)
    ensures Spent(st, ContainsLoop(w, v, x, n, i, st).st, n - i)
    decreases n - i
  {
    if i < n { ContainsLoopAffords(w, v, x, n, i + 1, Tick(w, st).st); }
  }

  /** Deciding the conditions from `i` on uses no more than their effort. */
  ghost predicate PredsAfford(w: World, env: Env, items: seq<Pred>, i: nat, all: bool, st: Core, calls: nat)
    requires i <= |items|
  {
    Spent(st, Junction(w, env, items, i, all, st).st, PredsEffort(BasisOf(w), calls, DenoteMap(env.values), items, i))
  }

  /** One condition followed by the rest. */
  lemma JunctionTurn(w: World, env: Env, items: seq<Pred>, i: nat, all: bool, st: Core, calls: nat)
    requires i < |items|
    requires var p := Predicate(w, env, items[i], st);
      && PredAffords(w, env, items[i], st, calls)
      && (p.r.Ok? && p.r.value == all ==> PredsAfford(w, env, items, i + 1, all, p.st, calls))
    ensures PredsAfford(w, env, items, i, all, st, calls)
  {
  }

  lemma {:induction false} JunctionAffords(w: World, env: Env, scope: Scope, inFunction: bool, items: seq<Pred>, i: nat, all: bool, st: Core, order: seq<Key>, calls: nat)
    requires Setting(w, env, scope, st, order, calls) && i <= |items|
    requires forall j | 0 <= j < |items| :: PredOk(w.g, scope, inFunction, items[j]) && Within(PredCalls(items[j]), order)
    requires !Decided(BasisOf(w), calls, DenoteMap(env.values), items, i, all).Invalid?
    requires Room(w, st, PredsEffort(BasisOf(w), calls, DenoteMap(env.values), items, i))
    ensures PredsAfford(w, env, items, i, all, st, calls)
    decreases Left(w, st), 1, |items| - i
  {
    var b, values := BasisOf(w), DenoteMap(env.values);
    if i < |items| {
      PredicateAffords(w, env, scope, inFunction, items[i], st, order, calls);
      PredicateMeans(w, env, scope, inFunction, items[i], st, order, calls);
      var p := Predicate(w, env, items[i], st);
      if p.r.Ok? && p.r.value == all {
        RoomLeft(w, st, p.st, PredEffort(b, calls, values, items[i]), PredsEffort(b, calls, values, items, i + 1),
          PredsEffort(b, calls, values, items, i));
        JunctionAffords(w, env, scope, inFunction, items, i + 1, all, p.st, order, calls);
      }
      JunctionTurn(w, env, items, i, all, st, calls);
    }
  }
}
