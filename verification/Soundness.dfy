/** Type soundness and refinement of evaluation: well-typed expressions never get stuck silently,
    and what they compute within the budgets is their meaning. */
module Soundness {
  import opened Base
  import opened Types
  import opened Views
  import opened Syntax
  import opened Typing
  import opened CheckerSound
  import opened Ordering
  import opened Grouping
  import opened Evaluation
  import opened Meaning
  import opened OperationsSound

  /** A world whose library is typed, with a faithful encoding of documents. */
  ghost predicate Ready_(w: World, order: seq<Key>, calls: nat) {
    LinkedWf(w.g) && Injective(w.encode) && Ordered(w.g.library, order) && AllOk(w.g, order) && |order| <= calls
  }

  /** Resources marked as validated are. */
  ghost predicate StateOk(w: World, st: Core) {
    forall r | r in st.validated :: r in w.resources && r in w.g.requirements
      && ValueOk(w.resources[r], w.g.requirements[r], w.g.types)
  }

  ghost predicate EnvOk(w: World, env: Env, scope: Scope) {
    forall x | x in scope :: x in env.values && HasType(w, env.values[x], scope[x])
  }

  ghost predicate Setting(w: World, env: Env, scope: Scope, st: Core, order: seq<Key>, calls: nat) {
    Ready_(w, order, calls) && StateOk(w, st) && EnvOk(w, env, scope)
  }

  ghost predicate Absent(w: World, name: string) {
    name in w.g.requirements && name !in w.resources
  }

  /** Evaluating `e` agrees with its meaning, at type `t`. */
  ghost predicate Means(w: World, env: Env, e: Expr, st: Core, calls: nat, t: DataType) {
    var o := Expression(w, env, e, st);
    StateOk(w, o.st) && Sound(w, t, o, Value_(BasisOf(w), calls, DenoteMap(env.values), e))
  }

  /** Evaluating the condition `p` agrees with its meaning. */
  ghost predicate Decides(w: World, env: Env, p: Pred, st: Core, calls: nat) {
    var o := Predicate(w, env, p, st);
    StateOk(w, o.st) && SoundBool(w, o, Truth(BasisOf(w), calls, DenoteMap(env.values), p))
  }

  ghost predicate SoundBool(w: World, o: Out<bool>, m: Access<bool>) {
    match o.r
    case Ok(b) => m == Ok(b)
    case Missing(name) => m == Missing(name) && Absent(w, name)
    case Invalid => o.st.diagnosed
  }

  function DenoteSeq(vs: seq<View>): seq<Json> {
    seq(|vs|, i requires 0 <= i < |vs| => Denote(vs[i]))
  }

  ghost predicate AllInhabit(vs: seq<Json>, t: DataType, types: Registry) {
    forall i | 0 <= i < |vs| :: Inhabits(vs[i], t, types)
  }

  ghost predicate SoundSeq(w: World, t: DataType, o: Out<seq<View>>, m: Access<seq<Json>>) {
    match o.r
    case Ok(vs) => m == Ok(DenoteSeq(vs)) && AllInhabit(DenoteSeq(vs), t, w.g.types)
    case Missing(name) => m == Missing(name) && Absent(w, name)
    case Invalid => o.st.diagnosed
  }

  ghost predicate SoundEntries(w: World, t: DataType, ty: DataType, o: Out<seq<Entry>>, m: Access<seq<(Json, Json)>>) {
    match o.r
    case Ok(es) => m == Ok(Pairs(es)) && PairsTyped(w, Pairs(es), t, ty)
    case Missing(name) => m == Missing(name) && Absent(w, name)
    case Invalid => o.st.diagnosed
  }

  /** One evaluated key of type `t` for the element `item`. */
  ghost predicate SoundEntry(w: World, t: DataType, item: Json, o: Out<Entry>, m: Access<Json>) {
    match o.r
    case Ok(e) => m == Ok(Denote(e.key)) && Denote(e.value) == item && Inhabits(Denote(e.key), t, w.g.types)
    case Missing(name) => m == Missing(name) && Absent(w, name)
    case Invalid => o.st.diagnosed
  }

  ghost predicate SoundBounds(w: World, ts: seq<DataType>, o: Out<seq<Bound>>, m: Access<seq<Json>>) {
    match o.r
    case Ok(bs) => m == Ok(DenoteAll(bs)) && AllTyped(w, bs, ts)
    case Missing(name) => m == Missing(name) && Absent(w, name)
    case Invalid => o.st.diagnosed
  }

  lemma BindDenotes(env: Env, item: string, v: View, sources: set<string>)
    ensures DenoteMap(Bind(env, item, v, sources).values) == DenoteMap(env.values)[item := Denote(v)]
  {
  }

  lemma BindOk(w: World, env: Env, scope: Scope, item: string, v: View, sources: set<string>, ty: DataType)
    requires EnvOk(w, env, scope) && HasType(w, v, ty)
    ensures EnvOk(w, Bind(env, item, v, sources), scope[item := ty])
  {
  }

  /** Binding the element at `i` of a typed list. */
  lemma BindItem(w: World, env: Env, scope: Scope, source: View, i: nat, item: string, ty: DataType, sources: set<string>)
    requires EnvOk(w, env, scope) && Wf(ty, w.g.types) && Denote(source).Arr? && i < |Denote(source).items|
    requires AllInhabit(Denote(source).items, ty, w.g.types)
    ensures var v := Index(source, i).value;
      && HasType(w, v, ty) && Denote(v) == Denote(source).items[i]
      && EnvOk(w, Bind(env, item, v, sources), scope[item := ty])
      && DenoteMap(Bind(env, item, v, sources).values) == DenoteMap(env.values)[item := Denote(source).items[i]]
  {
    var v := Index(source, i).value;
    BindDenotes(env, item, v, sources);
    BindOk(w, env, scope, item, v, sources, ty);
  }

  /** The elements kept after deciding on `v`. */
  lemma KeptNext(w: World, kept: seq<View>, v: View, keep: bool, ty: DataType) returns (next: seq<View>)
    requires AllInhabit(DenoteSeq(kept), ty, w.g.types) && Inhabits(Denote(v), ty, w.g.types)
    ensures next == if keep then kept + [v] else kept
    ensures DenoteSeq(next) == (if keep then DenoteSeq(kept) + [Denote(v)] else DenoteSeq(kept))
    ensures AllInhabit(DenoteSeq(next), ty, w.g.types)
  {
    next := if keep then kept + [v] else kept;
    assert DenoteSeq(kept + [v]) == DenoteSeq(kept) + [Denote(v)];
  }

  /** The entries after that of the element at `i`. */
  lemma PairedNext(w: World, source: View, i: nat, done: seq<Entry>, e: Entry, t: DataType, ty: DataType) returns (next: seq<Entry>)
    requires PairsTyped(w, Pairs(done), t, ty) && Inhabits(Denote(e.key), t, w.g.types)
    requires Denote(source).Arr? && i < |Denote(source).items| && AllInhabit(Denote(source).items, ty, w.g.types)
    requires Denote(e.value) == Denote(source).items[i]
    ensures next == done + [e]
    ensures Pairs(next) == Pairs(done) + [(Denote(e.key), Denote(source).items[i])]
    ensures PairsTyped(w, Pairs(next), t, ty)
  {
    next := done + [e];
    assert Pairs(next) == Pairs(done) + [(Denote(e.key), Denote(e.value))];
  }

  // ----- Expressions -----

  lemma {:induction false} ExpressionMeans(w: World, env: Env, scope: Scope, inFunction: bool, e: Expr, st: Core, order: seq<Key>, calls: nat)
    requires Setting(w, env, scope, st, order, calls)
    requires Infer(w.g, scope, inFunction, e).Some? && Within(Calls(e), order)
    ensures Means(w, env, e, st, calls, Infer(w.g, scope, inFunction, e).value)
    decreases Left(w, st), 0, 1
  {
    var tick := Tick(w, st);
    if tick.r.Ok? { EvaluateMeans(w, env, scope, inFunction, e, tick.st, order, calls); }
  }

  /** The same once the step of `e` has been counted. */
  ghost predicate Yields(w: World, env: Env, e: Expr, st: Core, calls: nat, t: DataType) {
    var o := Evaluate(w, env, e, st);
    StateOk(w, o.st) && Sound(w, t, o, Value_(BasisOf(w), calls, DenoteMap(env.values), e))
  }

  lemma {:induction false} EvaluateMeans(w: World, env: Env, scope: Scope, inFunction: bool, e: Expr, st: Core, order: seq<Key>, calls: nat)
    requires Setting(w, env, scope, st, order, calls)
    requires Infer(w.g, scope, inFunction, e).Some? && Within(Calls(e), order)
    ensures Yields(w, env, e, st, calls, Infer(w.g, scope, inFunction, e).value)
    decreases Left(w, st), 3, 0
  {
    match e
    case Variable(_) =>
    case Resource(name) => ReadMeans(w, name, st);
    case Literal(_, _) =>
    case Unary(op, value) => UnaryMeans(w, env, scope, inFunction, e, st, order, calls);
    case Filter(_, _, _) => FilterMeans(w, env, scope, inFunction, e, st, order, calls);
    case Keyed(_, _, _, _) => KeyedMeans(w, env, scope, inFunction, e, st, order, calls);
    case Build(_, _) => BuildMeans(w, env, scope, inFunction, e, st, order, calls);
    case Call(_, _) => CallMeans(w, env, scope, inFunction, e, st, order, calls);
  }

  lemma ReadMeans(w: World, name: string, st: Core)
    requires StateOk(w, st) && name in w.g.requirements
    ensures var o := Read(w, name, st);
      StateOk(w, o.st)
      && Sound(w, w.g.requirements[name], o, Value_(BasisOf(w), 0, map[], Resource(name)))
    ensures forall calls, env :: Value_(BasisOf(w), calls, env, Resource(name)) == Value_(BasisOf(w), 0, map[], Resource(name))
  {
  }

  lemma {:induction false} UnaryMeans(w: World, env: Env, scope: Scope, inFunction: bool, e: Expr, st: Core, order: seq<Key>, calls: nat)
    requires Setting(w, env, scope, st, order, calls) && e.Unary?
    requires Infer(w.g, scope, inFunction, e).Some? && Within(Calls(e), order)
    ensures Yields(w, env, e, st, calls, Infer(w.g, scope, inFunction, e).value)
    decreases Left(w, st), 2, 0
  {
    ExpressionMeans(w, env, scope, inFunction, e.value, st, order, calls);
    var o := Expression(w, env, e.value, st);
    if o.r.Ok? {
      EnvScopeWf(w, env, scope);
      InferWf(w.g, scope, inFunction, e.value);
      OperateSound(w, e.op, o.r.value, Infer(w.g, scope, inFunction, e.value).value, o.st);
    }
  }

  lemma EnvScopeWf(w: World, env: Env, scope: Scope)
    requires EnvOk(w, env, scope)
    ensures ScopeWf(w.g, scope)
  {
  }

  /** The evaluated operand of a collection operation is a list of items of the inferred type. */
  lemma SourceItems(w: World, scope: Scope, inFunction: bool, value: Expr, v: View, ty: DataType)
    requires LinkedWf(w.g) && ScopeWf(w.g, scope) && ItemType(w.g, Infer(w.g, scope, inFunction, value)) == Some(ty)
    requires Inhabits(Denote(v), Infer(w.g, scope, inFunction, value).value, w.g.types)
    ensures Wf(ty, w.g.types) && Denote(v).Arr? && AllInhabit(Denote(v).items, ty, w.g.types)
  {
    InferWf(w.g, scope, inFunction, value);
    ItemTypeWf(w.g, scope, inFunction, value);
    ResolvedMeans(Denote(v), Infer(w.g, scope, inFunction, value).value, w.g.types);
  }

  lemma {:induction false} FilterMeans(w: World, env: Env, scope: Scope, inFunction: bool, e: Expr, st: Core, order: seq<Key>, calls: nat)
    requires Setting(w, env, scope, st, order, calls) && e.Filter?
    requires Infer(w.g, scope, inFunction, e).Some? && Within(Calls(e), order)
    ensures Yields(w, env, e, st, calls, Infer(w.g, scope, inFunction, e).value)
    decreases Left(w, st), 2, 0
  {
    ExpressionMeans(w, env, scope, inFunction, e.value, st, order, calls);
    var o := Expression(w, env, e.value, st);
    if o.r.Ok? {
      EnvScopeWf(w, env, scope);
      var ty := ItemType(w.g, Infer(w.g, scope, inFunction, e.value)).value;
      SourceItems(w, scope, inFunction, e.value, o.r.value, ty);
      var n := Count(w, o.r.value, o.st);
      if n.r.Ok? {
        FilterLoopMeans(w, env, scope, inFunction, o.r.value, n.r.value, 0, e.item, e.condition, ty, n.st.used, [], n.st, order, calls);
        FilterYields(w, env, e, st, calls, ty);
      }
    }
  }

  /** The elements that were kept make up the filtered list. */
  lemma FilterYields(w: World, env: Env, e: Expr, st: Core, calls: nat, ty: DataType)
    requires e.Filter? && Expression(w, env, e.value, st).r.Ok?
    requires var o := Expression(w, env, e.value, st); var n := Count(w, o.r.value, o.st);
      && Value_(BasisOf(w), calls, DenoteMap(env.values), e.value) == Ok(Denote(o.r.value))
      && n.r.Ok? && Denote(o.r.value).Arr? && n.r.value == |Denote(o.r.value).items|
      && Selects(w, env, o.r.value, n.r.value, 0, e.item, e.condition, ty, n.st.used, [], n.st, calls)
    ensures Yields(w, env, e, st, calls, List(ty))
  {
    var o := Expression(w, env, e.value, st);
    var n := Count(w, o.r.value, o.st);
    var kept := FilterLoop(w, env, o.r.value, n.r.value, 0, e.item, e.condition, n.st.used, [], n.st);
    assert DenoteSeq([]) == [];
    assert Evaluate(w, env, e, st) == if kept.r.Ok? then Out(Ok(Array(kept.r.value)), kept.st) else Out(Fail(kept.r), kept.st);
    if kept.r.Ok? {
      var view: View := Array(kept.r.value);
      assert Denote(view).items == DenoteSeq(kept.r.value);
    }
  }

  lemma {:induction false} FilterStepMeans(w: World, env: Env, scope: Scope, inFunction: bool, source: View, i: nat,
    item: string, condition: Pred, ty: DataType, sources: set<string>, st: Core, order: seq<Key>, calls: nat)
    requires Setting(w, env, scope, st, order, calls) && Wf(ty, w.g.types)
    requires Denote(source).Arr? && i < |Denote(source).items| && AllInhabit(Denote(source).items, ty, w.g.types)
    requires PredOk(w.g, scope[item := ty], inFunction, condition) && Within(PredCalls(condition), order)
    ensures var o := FilterStep(w, env, source, i, item, condition, sources, st);
      StateOk(w, o.st)
      && SoundBool(w, o, Truth(BasisOf(w), calls, DenoteMap(env.values)[item := Denote(source).items[i]], condition))
    decreases Left(w, st), 0, 2
  {
    var tick := Tick(w, st);
    if tick.r.Ok? {
      BindItem(w, env, scope, source, i, item, ty, sources);
      PredicateMeans(w, Bind(env, item, Index(source, i).value, sources), scope[item := ty], inFunction, condition, tick.st, order, calls);
    }
  }

  /** Filtering from `i` on agrees with selecting the elements that meet the condition. */
  ghost predicate Selects(w: World, env: Env, source: View, n: nat, i: nat, item: string, condition: Pred,
    ty: DataType, sources: set<string>, kept: seq<View>, st: Core, calls: nat)
    requires Denote(source).Arr? && i <= n == |Denote(source).items|
  {
    var o := FilterLoop(w, env, source, n, i, item, condition, sources, kept, st);
    StateOk(w, o.st)
    && SoundSeq(w, ty, o, Selected(BasisOf(w), calls, DenoteMap(env.values), Denote(source).items, i, item, condition, DenoteSeq(kept)))
  }

  /** One element followed by the rest. */
  lemma SelectsNext(w: World, env: Env, source: View, n: nat, i: nat, item: string, condition: Pred,
    ty: DataType, sources: set<string>, kept: seq<View>, st: Core, calls: nat)
    requires Denote(source).Arr? && i < n == |Denote(source).items|
    requires var step := FilterStep(w, env, source, i, item, condition, sources, st);
      && StateOk(w, step.st)
      && SoundBool(w, step, Truth(BasisOf(w), calls, DenoteMap(env.values)[item := Denote(source).items[i]], condition))
      && (step.r.Ok? ==>
            var next := if step.r.value then kept + [Index(source, i).value] else kept;
            DenoteSeq(next) == (if step.r.value then DenoteSeq(kept) + [Denote(source).items[i]] else DenoteSeq(kept))
            && Selects(w, env, source, n, i + 1, item, condition, ty, sources, next, step.st, calls))
    ensures Selects(w, env, source, n, i, item, condition, ty, sources, kept, st, calls)
  {
    FilterTurn(w, env, source, n, i, item, condition, sources, kept, st);
    SelectedTurn(BasisOf(w), calls, DenoteMap(env.values), Denote(source).items, i, item, condition, DenoteSeq(kept));
  }

  lemma SelectedTurn(b: Basis, calls: nat, env: Values, items: seq<Json>, i: nat, item: string, condition: Pred, kept: seq<Json>)
    requires i < |items|
    ensures var keep := Truth(b, calls, env[item := items[i]], condition);
      Selected(b, calls, env, items, i, item, condition, kept)
        == if keep.Ok? then Selected(b, calls, env, items, i + 1, item, condition, if keep.value then kept + [items[i]] else kept)
           else Fail(keep)
  {
  }

  lemma {:induction false} FilterLoopMeans(w: World, env: Env, scope: Scope, inFunction: bool, source: View, n: nat, i: nat,
    item: string, condition: Pred, ty: DataType, sources: set<string>, kept: seq<View>, st: Core, order: seq<Key>, calls: nat)
    requires Setting(w, env, scope, st, order, calls) && Wf(ty, w.g.types)
    requires Denote(source).Arr? && n == |Denote(source).items| && i <= n && AllInhabit(Denote(source).items, ty, w.g.types)
    requires PredOk(w.g, scope[item := ty], inFunction, condition) && Within(PredCalls(condition), order)
    requires AllInhabit(DenoteSeq(kept), ty, w.g.types)
    ensures Selects(w, env, source, n, i, item, condition, ty, sources, kept, st, calls)
    decreases Left(w, st), 1, n - i
  {
    if i < n {
      FilterStepMeans(w, env, scope, inFunction, source, i, item, condition, ty, sources, st, order, calls);
      var keep := FilterStep(w, env, source, i, item, condition, sources, st);
      if keep.r.Ok? {
        var next := KeptNext(w, kept, Index(source, i).value, keep.r.value, ty);
        FilterLoopMeans(w, env, scope, inFunction, source, n, i + 1, item, condition, ty, sources, next, keep.st, order, calls);
      }
      SelectsNext(w, env, source, n, i, item, condition, ty, sources, kept, st, calls);
    }
  }

  lemma {:induction false} KeyedMeans(w: World, env: Env, scope: Scope, inFunction: bool, e: Expr, st: Core, order: seq<Key>, calls: nat)
    requires Setting(w, env, scope, st, order, calls) && e.Keyed?
    requires Infer(w.g, scope, inFunction, e).Some? && Within(Calls(e), order)
    ensures Yields(w, env, e, st, calls, Infer(w.g, scope, inFunction, e).value)
    decreases Left(w, st), 2, 0
  {
    ExpressionMeans(w, env, scope, inFunction, e.value, st, order, calls);
    var o := Expression(w, env, e.value, st);
    if o.r.Ok? {
      EnvScopeWf(w, env, scope);
      var ty := ItemType(w.g, Infer(w.g, scope, inFunction, e.value)).value;
      SourceItems(w, scope, inFunction, e.value, o.r.value, ty);
      var n := Count(w, o.r.value, o.st);
      if n.r.Ok? {
        var t := Infer(w.g, scope[e.item := ty], inFunction, e.key).value;
        KeyedLoopMeans(w, env, scope, inFunction, o.r.value, n.r.value, 0, e.item, e.key, !e.keyedOp.MapOp?, t, ty, n.st.used, [], n.st, order, calls);
        KeyedYields(w, env, e, st, calls, t, ty);
      }
    }
  }

  /** The keyed elements are rearranged as the operation says. */
  lemma KeyedYields(w: World, env: Env, e: Expr, st: Core, calls: nat, t: DataType, ty: DataType)
    requires e.Keyed? && Expression(w, env, e.value, st).r.Ok? && Injective(w.encode) && KeyedType(w.g, e.keyedOp, ty, t).Some?
    requires var o := Expression(w, env, e.value, st); var n := Count(w, o.r.value, o.st);
      && Value_(BasisOf(w), calls, DenoteMap(env.values), e.value) == Ok(Denote(o.r.value))
      && n.r.Ok? && Denote(o.r.value).Arr? && n.r.value == |Denote(o.r.value).items|
      && PairsUp(w, env, o.r.value, n.r.value, 0, e.item, e.key, !e.keyedOp.MapOp?, t, ty, n.st.used, [], n.st, calls)
    ensures Yields(w, env, e, st, calls, KeyedType(w.g, e.keyedOp, ty, t).value)
  {
    var o := Expression(w, env, e.value, st);
    var n := Count(w, o.r.value, o.st);
    var es := KeyedLoop(w, env, o.r.value, n.r.value, 0, e.item, e.key, !e.keyedOp.MapOp?, n.st.used, [], n.st);
    assert Pairs([]) == [];
    assert Evaluate(w, env, e, st) == if es.r.Ok? then Regroup(w, e.keyedOp, es.r.value, es.st) else Out(Fail(es.r), es.st);
    if es.r.Ok? {
      RegroupMeans(w, e.keyedOp, es.r.value, es.st);
      RearrangedTyped(w, e.keyedOp, Pairs(es.r.value), t, ty);
    }
  }

  lemma {:induction false} KeyedStepMeans(w: World, env: Env, scope: Scope, inFunction: bool, source: View, i: nat,
    item: string, key: Expr, charged: bool, t: DataType, ty: DataType, sources: set<string>, st: Core, order: seq<Key>, calls: nat)
    requires Setting(w, env, scope, st, order, calls) && Wf(ty, w.g.types)
    requires Denote(source).Arr? && i < |Denote(source).items| && AllInhabit(Denote(source).items, ty, w.g.types)
    requires Infer(w.g, scope[item := ty], inFunction, key) == Some(t) && Within(Calls(key), order)
    ensures var o := KeyedStep(w, env, source, i, item, key, charged, sources, st);
      StateOk(w, o.st) && SoundEntry(w, t, Denote(source).items[i], o,
        Value_(BasisOf(w), calls, DenoteMap(env.values)[item := Denote(source).items[i]], key))
    decreases Left(w, st), 0, 2
  {
    var tick := Tick(w, st);
    if tick.r.Ok? {
      BindItem(w, env, scope, source, i, item, ty, sources);
      var inner := Bind(env, item, Index(source, i).value, sources);
      ExpressionMeans(w, inner, scope[item := ty], inFunction, key, tick.st, order, calls);
      EntryKept(w, env, source, i, item, key, charged, t, sources, st,
        Value_(BasisOf(w), calls, DenoteMap(env.values)[item := Denote(source).items[i]], key));
    }
  }

  /** The entry of an element whose key has the meaning `m`. */
  lemma EntryKept(w: World, env: Env, source: View, i: nat, item: string, key: Expr, charged: bool,
    t: DataType, sources: set<string>, st: Core, m: Access<Json>)
    requires Tick(w, st).r.Ok? && Denote(source).Arr? && i < |Denote(source).items|
    requires Index(source, i).Some? && Denote(Index(source, i).value) == Denote(source).items[i]
    requires var k := Expression(w, Bind(env, item, Index(source, i).value, sources), key, Tick(w, st).st);
      StateOk(w, k.st) && Sound(w, t, k, m)
    ensures var o := KeyedStep(w, env, source, i, item, key, charged, sources, st);
      StateOk(w, o.st) && SoundEntry(w, t, Denote(source).items[i], o, m)
  {
    var v := Index(source, i).value;
    var k := Expression(w, Bind(env, item, v, sources), key, Tick(w, st).st);
    if k.r.Ok? { KeepSound(w, k.r.value, v, charged, k.st); }
  }

  lemma KeepSound(w: World, key: View, value: View, charged: bool, st: Core)
    requires StateOk(w, st)
    ensures var o := Keep(w, key, value, charged, st);
      StateOk(w, o.st) && (o.r == Ok(Entry(key, value)) || (o.r.Invalid? && o.st.diagnosed))
  {
  }

  /** Keying from `i` on agrees with pairing the elements with their keys. */
  ghost predicate PairsUp(w: World, env: Env, source: View, n: nat, i: nat, item: string, key: Expr, charged: bool,
    t: DataType, ty: DataType, sources: set<string>, done: seq<Entry>, st: Core, calls: nat)
    requires Denote(source).Arr? && i <= n == |Denote(source).items|
  {
    var o := KeyedLoop(w, env, source, n, i, item, key, charged, sources, done, st);
    StateOk(w, o.st)
    && SoundEntries(w, t, ty, o, Paired(BasisOf(w), calls, DenoteMap(env.values), Denote(source).items, i, item, key, Pairs(done)))
  }

  /** One element followed by the rest. */
  lemma PairsUpNext(w: World, env: Env, source: View, n: nat, i: nat, item: string, key: Expr, charged: bool,
    t: DataType, ty: DataType, sources: set<string>, done: seq<Entry>, st: Core, calls: nat, step: Out<Entry>, next: seq<Entry>)
    requires Denote(source).Arr? && i < n == |Denote(source).items|
    requires step == KeyedStep(w, env, source, i, item, key, charged, sources, st) && StateOk(w, step.st)
    requires SoundEntry(w, t, Denote(source).items[i], step,
      Value_(BasisOf(w), calls, DenoteMap(env.values)[item := Denote(source).items[i]], key))
    requires step.r.Ok? ==>
      && next == done + [step.r.value]
      && PairsUp(w, env, source, n, i + 1, item, key, charged, t, ty, sources, next, step.st, calls)
    ensures PairsUp(w, env, source, n, i, item, key, charged, t, ty, sources, done, st, calls)
  {
    KeyedTurn(w, env, source, n, i, item, key, charged, sources, done, st);
    PairedTurn(BasisOf(w), calls, DenoteMap(env.values), Denote(source).items, i, item, key, Pairs(done));
    if step.r.Ok? { assert Pairs(next) == Pairs(done) + [(Denote(step.r.value.key), Denote(source).items[i])]; }
  }

  lemma PairedTurn(b: Basis, calls: nat, env: Values, items: seq<Json>, i: nat, item: string, key: Expr, done: seq<(Json, Json)>)
    requires i < |items|
    ensures var k := Value_(b, calls, env[item := items[i]], key);
      Paired(b, calls, env, items, i, item, key, done)
        == if k.Ok? then Paired(b, calls, env, items, i + 1, item, key, done + [(k.value, items[i])]) else Fail(k)
  {
  }

  lemma KeyedLoopEnds(w: World, env: Env, source: View, n: nat, item: string, key: Expr, charged: bool,
    sources: set<string>, done: seq<Entry>, st: Core)
    ensures KeyedLoop(w, env, source, n, n, item, key, charged, sources, done, st) == Out(Ok(done), st)
  {
  }

  lemma PairedEnds(b: Basis, calls: nat, env: Values, items: seq<Json>, item: string, key: Expr, done: seq<(Json, Json)>)
    ensures Paired(b, calls, env, items, |items|, item, key, done) == Ok(done)
  {
  }

  lemma PairsUpEnd(w: World, env: Env, source: View, n: nat, item: string, key: Expr, charged: bool,
    t: DataType, ty: DataType, sources: set<string>, done: seq<Entry>, st: Core, calls: nat)
    requires Denote(source).Arr? && n == |Denote(source).items| && StateOk(w, st) && PairsTyped(w, Pairs(done), t, ty)
    ensures PairsUp(w, env, source, n, n, item, key, charged, t, ty, sources, done, st, calls)
  {
    KeyedLoopEnds(w, env, source, n, item, key, charged, sources, done, st);
    PairedEnds(BasisOf(w), calls, DenoteMap(env.values), Denote(source).items, item, key, Pairs(done));
  }

  /** The element at `i` and its key. */
  lemma {:induction false} FirstPaired(w: World, env: Env, scope: Scope, inFunction: bool, source: View, n: nat, i: nat,
    item: string, key: Expr, charged: bool, t: DataType, ty: DataType, sources: set<string>, done: seq<Entry>, st: Core, order: seq<Key>, calls: nat)
    returns (o: Out<Entry>, next: seq<Entry>)
    requires Setting(w, env, scope, st, order, calls) && Wf(ty, w.g.types)
    requires Denote(source).Arr? && n == |Denote(source).items| && i < n && AllInhabit(Denote(source).items, ty, w.g.types)
    requires Infer(w.g, scope[item := ty], inFunction, key) == Some(t) && Within(Calls(key), order)
    requires PairsTyped(w, Pairs(done), t, ty)
    ensures o == KeyedStep(w, env, source, i, item, key, charged, sources, st) && StateOk(w, o.st)
    ensures SoundEntry(w, t, Denote(source).items[i], o,
      Value_(BasisOf(w), calls, DenoteMap(env.values)[item := Denote(source).items[i]], key))
    ensures o.r.Ok? ==>
      next == done + [o.r.value] && PairsTyped(w, Pairs(next), t, ty)
    decreases Left(w, st), 1, 0
  {
    KeyedStepMeans(w, env, scope, inFunction, source, i, item, key, charged, t, ty, sources, st, order, calls);
    o, next := KeyedStep(w, env, source, i, item, key, charged, sources, st), done;
    if o.r.Ok? { next := PairedNext(w, source, i, done, o.r.value, t, ty); }
  }

  lemma {:induction false} KeyedLoopMeans(w: World, env: Env, scope: Scope, inFunction: bool, source: View, n: nat, i: nat,
    item: string, key: Expr, charged: bool, t: DataType, ty: DataType, sources: set<string>, done: seq<Entry>, st: Core, order: seq<Key>, calls: nat)
    requires Setting(w, env, scope, st, order, calls) && Wf(ty, w.g.types)
    requires Denote(source).Arr? && n == |Denote(source).items| && i <= n && AllInhabit(Denote(source).items, ty, w.g.types)
    requires Infer(w.g, scope[item := ty], inFunction, key) == Some(t) && Within(Calls(key), order)
    requires PairsTyped(w, Pairs(done), t, ty)
    ensures PairsUp(w, env, source, n, i, item, key, charged, t, ty, sources, done, st, calls)
    decreases Left(w, st), 1, n - i, 1
  {
    if i < n {
      KeyedLoopGoesOn(w, env, scope, inFunction, source, n, i, item, key, charged, t, ty, sources, done, st, order, calls);
    } else {
      PairsUpEnd(w, env, source, n, item, key, charged, t, ty, sources, done, st, calls);
    }
  }

  lemma {:induction false} KeyedLoopGoesOn(w: World, env: Env, scope: Scope, inFunction: bool, source: View, n: nat, i: nat,
    item: string, key: Expr, charged: bool, t: DataType, ty: DataType, sources: set<string>, done: seq<Entry>, st: Core, order: seq<Key>, calls: nat)
    requires Setting(w, env, scope, st, order, calls) && Wf(ty, w.g.types)
    requires Denote(source).Arr? && n == |Denote(source).items| && i < n && AllInhabit(Denote(source).items, ty, w.g.types)
    requires Infer(w.g, scope[item := ty], inFunction, key) == Some(t) && Within(Calls(key), order)
    requires PairsTyped(w, Pairs(done), t, ty)
    ensures PairsUp(w, env, source, n, i, item, key, charged, t, ty, sources, done, st, calls)
    decreases Left(w, st), 1, n - i, 0
  {
    var o, next := FirstPaired(w, env, scope, inFunction, source, n, i, item, key, charged, t, ty, sources, done, st, order, calls);
    if o.r.Ok? {
      KeyedLoopMeans(w, env, scope, inFunction, source, n, i + 1, item, key, charged, t, ty, sources, next, o.st, order, calls);
    }
    PairsUpNext(w, env, source, n, i, item, key, charged, t, ty, sources, done, st, calls, o, next);
  }

  lemma TypedMore(w: World, done: seq<Bound>, ts: seq<DataType>, b: Bound)
    requires |done| < |ts| && AllTyped(w, done, ts[..|done|]) && HasType(w, b.value, ts[|done|])
    ensures AllTyped(w, done + [b], ts[..|done| + 1])
    ensures DenoteAll(done + [b]) == DenoteAll(done) + [Denote(b.value)]
  {
    var next := done + [b];
    forall j | 0 <= j < |next| ensures HasType(w, next[j].value, ts[..|done| + 1][j]) {
      if j < |done| { assert HasType(w, done[j].value, ts[..|done|][j]); }
    }
    assert DenoteAll(next) == DenoteAll(done) + [Denote(b.value)];
  }

  lemma {:induction false} ArgumentsMean(w: World, env: Env, scope: Scope, inFunction: bool, args: seq<Arg>, i: nat, done: seq<Bound>, st: Core, order: seq<Key>, calls: nat)
    requires Setting(w, env, scope, st, order, calls) && i == |done| <= |args|
    requires forall j | 0 <= j < |args| :: Infer(w.g, scope, inFunction, args[j].value).Some? && Within(Calls(args[j].value), order)
    requires AllTyped(w, done, ArgTypes(w.g, scope, inFunction, args)[..i])
    ensures var o := Arguments(w, env, args, i, done, st);
      StateOk(w, o.st)
      && SoundBounds(w, ArgTypes(w.g, scope, inFunction, args), o,
           Values_(BasisOf(w), calls, DenoteMap(env.values), args, i, DenoteAll(done)))
    decreases Left(w, st), 1, |args| - i
  {
    var ts := ArgTypes(w.g, scope, inFunction, args);
    if i == |args| {
      assert ts[..i] == ts;
    } else {
      ExpressionMeans(w, env, scope, inFunction, args[i].value, st, order, calls);
      var v := Expression(w, env, args[i].value, st);
      if v.r.Ok? {
        EnvScopeWf(w, env, scope);
        InferWf(w.g, scope, inFunction, args[i].value);
        var next := done + [Bound(v.r.value, v.st.used)];
        TypedMore(w, done, ts, Bound(v.r.value, v.st.used));
        ArgumentsMean(w, env, scope, inFunction, args, i + 1, next, v.st, order, calls);
      }
    }
  }

  lemma {:induction false} BuildMeans(w: World, env: Env, scope: Scope, inFunction: bool, e: Expr, st: Core, order: seq<Key>, calls: nat)
    requires Setting(w, env, scope, st, order, calls) && e.Build?
    requires Infer(w.g, scope, inFunction, e).Some? && Within(Calls(e), order)
    ensures Yields(w, env, e, st, calls, Infer(w.g, scope, inFunction, e).value)
    decreases Left(w, st), 2, 0
  {
    var refused := Refused(w, e.buildOp, e.args, st);
    if refused.r.Ok? {
      var ts := ArgTypes(w.g, scope, inFunction, e.args);
      assert DenoteAll([]) == [];
      ArgumentsMean(w, env, scope, inFunction, e.args, 0, [], refused.st, order, calls);
      var bs := Arguments(w, env, e.args, 0, [], refused.st);
      if bs.r.Ok? { AssembleSound(w, e.buildOp, e.args, bs.r.value, ts, bs.st); }
    }
  }

  /** Arguments inhabit the parameters they are passed to. */
  lemma {:induction false} BoundTyped(w: World, args: seq<Arg>, bs: seq<Bound>, ts: seq<DataType>, ps: map<string, DataType>)
    requires |args| == |bs| && AllTyped(w, bs, ts)
    requires forall i | 0 <= i < |args| :: args[i].name in ps && Compatible(ts[i], ps[args[i].name], w.g.types)
    ensures forall x | x in BoundValues(args, bs) :: x in ps && Inhabits(Denote(BoundValues(args, bs)[x]), ps[x], w.g.types)
  {
    if args != [] {
      var n := |args| - 1;
      BoundTyped(w, args[..n], bs[..n], ts[..n], ps);
      AcceptsIncludesValues(Denote(bs[n].value), ts[n], ps[args[n].name], w.g.types, MAX_LEVELS);
    }
  }

  lemma ParametersOk(w: World, key: Key, args: seq<Arg>, bs: seq<Bound>, ts: seq<DataType>, env: Env)
    requires |args| == |bs| && AllTyped(w, bs, ts) && CallType(w.g, key, args, ts).Some?
    requires FunctionOk(w.g, w.g.library[key]) && env.values == BoundValues(args, bs)
    ensures EnvOk(w, env, w.g.library[key].parameters)
  {
    var ps := w.g.library[key].parameters;
    BoundTyped(w, args, bs, ts, ps);
    BoundKeys(args, bs);
    forall x | x in ps ensures x in env.values && HasType(w, env.values[x], ps[x]) {
      assert x in ArgNames(args);
      TypeOkWf(ps[x], w.g.types);
    }
  }

  lemma {:induction false} CallMeans(w: World, env: Env, scope: Scope, inFunction: bool, e: Expr, st: Core, order: seq<Key>, calls: nat)
    requires Setting(w, env, scope, st, order, calls) && e.Call?
    requires Infer(w.g, scope, inFunction, e).Some? && Within(Calls(e), order)
    ensures Yields(w, env, e, st, calls, Infer(w.g, scope, inFunction, e).value)
    decreases Left(w, st), 2, 0
  {
    var ts := ArgTypes(w.g, scope, inFunction, e.args);
    assert DenoteAll([]) == [];
    ArgumentsMean(w, env, scope, inFunction, e.args, 0, [], st, order, calls);
    var bs := Arguments(w, env, e.args, 0, [], st);
    if bs.r.Ok? {
      var inner := Env(BoundValues(e.args, bs.r.value), BoundReads(e.args, bs.r.value));
      var before := BodySetting(w, e.function_, e.args, bs.r.value, ts, inner, bs.st, order, calls);
      CalleeMeans(w, e.function_, inner, bs.st, before, calls);
      BoundDenotes(e.args, bs.r.value);
    }
  }

  /** The body of `key` can be evaluated in `inner`, calling only functions of `before`. */
  ghost predicate Callable(w: World, key: Key, inner: Env, st: Core, before: seq<Key>, calls: nat) {
    key in w.g.library && calls > 0 &&
    var f := w.g.library[key];
    && Setting(w, inner, f.parameters, st, before, calls - 1) && Within(Calls(f.body), before)
    && var t := Infer(w.g, f.parameters, true, f.body);
       t.Some? && Accepts(t.value, f.output)
  }

  /** The body of a called function, in the environment `inner` of its arguments. */
  lemma {:induction false} CalleeMeans(w: World, key: Key, inner: Env, st: Core, before: seq<Key>, calls: nat)
    requires Callable(w, key, inner, st, before, calls)
    ensures Means(w, inner, w.g.library[key].body, st, calls - 1, w.g.library[key].output)
    decreases Left(w, st), 0, 3
  {
    var f := w.g.library[key];
    ExpressionMeans(w, inner, f.parameters, true, f.body, st, before, calls - 1);
    Widen(w, Infer(w.g, f.parameters, true, f.body).value, f.output, Expression(w, inner, f.body, st),
      Value_(BasisOf(w), calls - 1, DenoteMap(inner.values), f.body));
  }

  lemma Widen(w: World, t: DataType, output: DataType, o: Out<View>, m: Access<Json>)
    requires Sound(w, t, o, m) && Types.Accepts(t, output)
    ensures Sound(w, output, o, m)
  {
    if o.r.Ok? { AcceptsIncludesValues(Denote(o.r.value), t, output, w.g.types, MAX_LEVELS); }
  }

  lemma BodySetting(w: World, key: Key, args: seq<Arg>, bs: seq<Bound>, ts: seq<DataType>, inner: Env, st: Core, order: seq<Key>, calls: nat)
    returns (before: seq<Key>)
    requires Ready_(w, order, calls) && StateOk(w, st) && key in order
    requires |args| == |bs| && AllTyped(w, bs, ts) && CallType(w.g, key, args, ts).Some?
    requires inner.values == BoundValues(args, bs)
    ensures Callable(w, key, inner, st, before, calls)
  {
    DoneIsOk(w.g, order, key);
    before := CalledBefore(w.g.library, order, key);
    AllOkPrefix(w.g, before, order);
    ParametersOk(w, key, args, bs, ts, inner);
  }

  lemma AllOkPrefix(g: Linked, before: seq<Key>, order: seq<Key>)
    requires AllOk(g, order) && before < order
    ensures AllOk(g, before)
  {
    assert forall i | 0 <= i < |before| :: before[i] == order[i];
  }

  // ----- Conditions -----

  lemma {:induction false} PredicateMeans(w: World, env: Env, scope: Scope, inFunction: bool, p: Pred, st: Core, order: seq<Key>, calls: nat)
    requires Setting(w, env, scope, st, order, calls)
    requires PredOk(w.g, scope, inFunction, p) && Within(PredCalls(p), order)
    ensures Decides(w, env, p, st, calls)
    decreases Left(w, st), 0, 1
  {
    var tick := Tick(w, st);
    if tick.r.Ok? { TestMeans(w, env, scope, inFunction, p, tick.st, order, calls); }
  }

  /** The same once the step of `p` has been counted. */
  ghost predicate Settles(w: World, env: Env, p: Pred, st: Core, calls: nat) {
    var o := Test(w, env, p, st);
    StateOk(w, o.st) && SoundBool(w, o, Truth(BasisOf(w), calls, DenoteMap(env.values), p))
  }

  lemma {:induction false} TestMeans(w: World, env: Env, scope: Scope, inFunction: bool, p: Pred, st: Core, order: seq<Key>, calls: nat)
    requires Setting(w, env, scope, st, order, calls)
    requires PredOk(w.g, scope, inFunction, p) && Within(PredCalls(p), order)
    ensures Settles(w, env, p, st, calls)
    decreases Left(w, st), 3, 0
  {
    match p
    case Compare(_, _, _) => ComparisonMeans(w, env, scope, inFunction, p, st, order, calls);
    case Eq(_, _) => ComparisonMeans(w, env, scope, inFunction, p, st, order, calls);
    case Contains(_, _) => ContainsMeans(w, env, scope, inFunction, p, st, order, calls);
    case Present(value) => ExpressionMeans(w, env, scope, inFunction, value, st, order, calls);
    case And(items) => JunctionMeans(w, env, scope, inFunction, items, 0, true, st, order, calls);
    case Or(items) => JunctionMeans(w, env, scope, inFunction, items, 0, false, st, order, calls);
    case Not(item) => PredicateMeans(w, env, scope, inFunction, item, st, order, calls);
  }

  lemma {:induction false} ComparisonMeans(w: World, env: Env, scope: Scope, inFunction: bool, p: Pred, st: Core, order: seq<Key>, calls: nat)
    requires Setting(w, env, scope, st, order, calls) && (p.Compare? || p.Eq?)
    requires PredOk(w.g, scope, inFunction, p) && Within(PredCalls(p), order)
    ensures Settles(w, env, p, st, calls)
    decreases Left(w, st), 2, 0
  {
    ExpressionMeans(w, env, scope, inFunction, p.left, st, order, calls);
    var l := Expression(w, env, p.left, st);
    if l.r.Ok? {
      ExpressionMeans(w, env, scope, inFunction, p.right, l.st, order, calls);
      var r := Expression(w, env, p.right, l.st);
      if r.r.Ok? {
        EnvScopeWf(w, env, scope);
        InferWf(w.g, scope, inFunction, p.left);
        var t := Infer(w.g, scope, inFunction, p.left).value;
        EquivalentIsEquality(l.r.value, r.r.value);
        if p.Compare? { CompareSound(w, p.operator, l.r.value, r.r.value, t, r.st); }
      }
    }
  }

  lemma {:induction false} ContainsMeans(w: World, env: Env, scope: Scope, inFunction: bool, p: Pred, st: Core, order: seq<Key>, calls: nat)
    requires Setting(w, env, scope, st, order, calls) && p.Contains?
    requires PredOk(w.g, scope, inFunction, p) && Within(PredCalls(p), order)
    ensures Settles(w, env, p, st, calls)
    decreases Left(w, st), 2, 0
  {
    ExpressionMeans(w, env, scope, inFunction, p.value, st, order, calls);
    var v := Expression(w, env, p.value, st);
    if v.r.Ok? {
      ExpressionMeans(w, env, scope, inFunction, p.element, v.st, order, calls);
      var x := Expression(w, env, p.element, v.st);
      if x.r.Ok? {
        EnvScopeWf(w, env, scope);
        InferWf(w.g, scope, inFunction, p.value);
        ResolvedMeans(Denote(v.r.value), Infer(w.g, scope, inFunction, p.value).value, w.g.types);
        MemberSound(w, v.r.value, x.r.value, x.st);
      }
    }
  }

  lemma CompareSound(w: World, op: Comparison, l: View, r: View, t: DataType, st: Core)
    requires HasType(w, l, t) && HasType(w, r, t) && (op == Ne || Resolved(t, w.g.types) == Some(Number))
    ensures op == Ne ==> CompareOut(op, l, r, st) == Out(Ok(Denote(l) != Denote(r)), st)
    ensures op != Ne ==> var c := CompareJson(Denote(l), Denote(r));
      c.Some? && CompareOut(op, l, r, st) == Out(Ok(Holds(op, c.value)), st)
  {
    EquivalentIsEquality(l, r);
    ResolvedMeans(Denote(l), t, w.g.types);
    ResolvedMeans(Denote(r), t, w.g.types);
  }

  lemma MemberSound(w: World, v: View, x: View, st: Core)
    requires StateOk(w, st) && (Denote(v).Arr? || (Denote(v).Str? && Denote(x).Str?))
    ensures var o := Member(w, v, x, st);
      StateOk(w, o.st)
      && SoundBool(w, o, if Denote(v).Arr? then Ok(Denote(x) in Denote(v).items) else Ok(Occurs(Denote(x).s, Denote(v).s)))
  {
    if Denote(v).Arr? {
      var n := Count(w, v, st);
      if n.r.Ok? { ContainsLoopMeans(w, v, x, n.r.value, 0, n.st); }
    }
  }

  lemma {:induction false} ContainsLoopMeans(w: World, v: View, x: View, n: nat, i: nat, st: Core)
    requires StateOk(w, st) && Denote(v).Arr? && n == |Denote(v).items| && i <= n
    requires Denote(x) !in Denote(v).items[..i]
    ensures var o := ContainsLoop(w, v, x, n, i, st);
      StateOk(w, o.st) && SoundBool(w, o, Ok(Denote(x) in Denote(v).items))
    decreases n - i
  {
    var items := Denote(v).items;
    if i == n {
      assert items[..i] == items;
    } else {
      var tick := Tick(w, st);
      EquivalentIsEquality(Index(v, i).value, x);
      if tick.r.Ok? && items[i] != Denote(x) {
        assert items[..i + 1] == items[..i] + [items[i]];
        ContainsLoopMeans(w, v, x, n, i + 1, tick.st);
      }
    }
  }

  lemma {:induction false} JunctionMeans(w: World, env: Env, scope: Scope, inFunction: bool, items: seq<Pred>, i: nat, all: bool, st: Core, order: seq<Key>, calls: nat)
    requires Setting(w, env, scope, st, order, calls) && i <= |items|
    requires forall j | 0 <= j < |items| :: PredOk(w.g, scope, inFunction, items[j]) && Within(PredCalls(items[j]), order)
    ensures var o := Junction(w, env, items, i, all, st);
      StateOk(w, o.st) && SoundBool(w, o, Decided(BasisOf(w), calls, DenoteMap(env.values), items, i, all))
    decreases Left(w, st), 1, |items| - i
  {
    if i < |items| {
      PredicateMeans(w, env, scope, inFunction, items[i], st, order, calls);
      var p := Predicate(w, env, items[i], st);
      if p.r.Ok? && p.r.value == all { JunctionMeans(w, env, scope, inFunction, items, i + 1, all, p.st, order, calls); }
    }
  }
}
