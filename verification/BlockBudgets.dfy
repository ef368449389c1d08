/** How much a program needs, computed from its meaning alone; and that within limits of that size its
    evaluation is complete exactly if the program means something
    (rust/crates/zf-context/src/context.rs, `Evaluator::blocks`). */
module BlockBudgets {
  import opened Base
  import opened Types
  import opened Pointers
  import opened Views
  import opened Syntax
  import opened Typing
  import opened Acceptance
  import opened Grouping
  import opened Evaluation
  import opened Blocks
  import opened Meaning
  import opened OperationsSound
  import opened Soundness
  import opened Showing
  import opened Budgets

  // ----- What blocks need -----

  /** A step and a trace entry, and what the block itself does. */
  ghost function BlockEffort(b: Basis, calls: nat, env: Values, block: Block): nat
    decreases block, 2
  {
    2 + BlockWork(b, calls, env, block)
  }

  ghost function BlockWork(b: Basis, calls: nat, env: Values, block: Block): nat
    decreases block, 1
  {
    match block
    case Group(_, _, items) => 1 + AllEffort(b, calls, env, items, 0)
    case Emit(_, _, _, value) =>
      var v := Value_(b, calls, env, value);
      1 + Effort(b, calls, env, value) + if v.Ok? then Bytes_(v.value, b.encode) else 0
    case If(_, condition, yes, no) =>
      var t := Truth(b, calls, env, condition);
      PredEffort(b, calls, env, condition)
      + if !t.Ok? then 0 else if t.value then AllEffort(b, calls, env, yes, 0) else AllEffort(b, calls, env, no, 0)
    case ForEach(_, value, item, items) =>
      var v := Value_(b, calls, env, value);
      Effort(b, calls, env, value)
      + if v.Ok? && v.value.Arr? then |v.value.items| + EachEffort(b, calls, env, v.value.items, 0, item, items) else 0
  }

  ghost function AllEffort(b: Basis, calls: nat, env: Values, blocks: seq<Block>, i: nat): nat
    requires i <= |blocks|
    decreases blocks, 0, |blocks| - i
  {
    if i == |blocks| then 0 else BlockEffort(b, calls, env, blocks[i]) + AllEffort(b, calls, env, blocks, i + 1)
  }

  ghost function EachEffort(b: Basis, calls: nat, env: Values, values: seq<Json>, i: nat, item: string, blocks: seq<Block>): nat
    requires i <= |values|
    decreases blocks, 1, |values| - i
  {
    if i == |values| then 0
    else 1 + AllEffort(b, calls, env[item := values[i]], blocks, 0) + EachEffort(b, calls, env, values, i + 1, item, blocks)
  }

  // ----- Room -----

  /** Nothing is missing or reported, and every budget has that much left. */
  predicate RunRoom(w: World, run: Run, n: nat) {
    && run.needs == map[] && Room(w, run.core, n)
    && |run.trace| + n <= w.limits.maxItems && run.outputItems + n <= w.limits.maxItems && run.outputBytes + n <= w.limits.maxBytes
  }

  /** No more than that was used, and nothing is missing or reported. */
  predicate RunSpent(run: Run, r: Run, n: nat) {
    && r.needs == map[] && Spent(run.core, r.core, n)
    && |r.trace| <= |run.trace| + n && r.outputItems <= run.outputItems + n && r.outputBytes <= run.outputBytes + n
  }

  lemma RunLeft(w: World, run: Run, r: Run, n: nat, m: nat, all: nat)
    requires RunRoom(w, run, all) && RunSpent(run, r, n) && n + m <= all
    ensures RunRoom(w, r, m)
  {
  }

  lemma RunBoth(run: Run, r: Run, last: Run, n: nat, m: nat, all: nat)
    requires RunSpent(run, r, n) && RunSpent(r, last, m) && n + m <= all
    ensures RunSpent(run, last, all)
  {
  }

  /** An expression that means `v` is evaluated to it. */
  lemma ValueAffords(w: World, env: Env, scope: Scope, e: Expr, run: Run, n: nat, order: seq<Key>, calls: nat) returns (o: Out<View>)
    requires Stage(w, env, scope, run, order, calls) && Infer(w.g, scope, false, e).Some? && Within(Calls(e), order)
    requires Value_(BasisOf(w), calls, DenoteMap(env.values), e).Ok?
    requires RunRoom(w, run, n) && Effort(BasisOf(w), calls, DenoteMap(env.values), e) <= n
    ensures o == Expression(w, env, e, run.core) && o.r.Ok? && Value_(BasisOf(w), calls, DenoteMap(env.values), e) == Ok(Denote(o.r.value))
    ensures Inhabits(Denote(o.r.value), Infer(w.g, scope, false, e).value, w.g.types)
    ensures Stage(w, env, scope, run.(core := o.st), order, calls)
    ensures RunSpent(run, run.(core := o.st), Effort(BasisOf(w), calls, DenoteMap(env.values), e))
  {
    o := Expression(w, env, e, run.core);
    ExpressionAffords(w, env, scope, false, e, run.core, order, calls);
    ExpressionMeans(w, env, scope, false, e, run.core, order, calls);
  }

  // ----- Blocks -----

  ghost predicate BodyAffords_(w: World, env: Env, its: seq<Iteration>, b: Block, id: string, path: string, run: Run, calls: nat) {
    RunSpent(run, Body(w, env, its, b, id, path, run).run, BlockWork(BasisOf(w), calls, DenoteMap(env.values), b))
  }

  /** The block means something, and there is room for it. */
  ghost predicate BodyHasRoom(w: World, env: Env, b: Block, run: Run, calls: nat) {
    && Show(BasisOf(w), calls, DenoteMap(env.values), b).Ok?
    && RunRoom(w, run, BlockWork(BasisOf(w), calls, DenoteMap(env.values), b))
  }

  ghost predicate AllAfford_(w: World, env: Env, its: seq<Iteration>, blocks: seq<Block>, i: nat, path: string, done: seq<Item>, run: Run, calls: nat)
    requires i <= |blocks|
  {
    RunSpent(run, All(w, env, its, blocks, i, path, done, run).1, AllEffort(BasisOf(w), calls, DenoteMap(env.values), blocks, i))
  }

  ghost predicate AllHaveRoom(w: World, env: Env, blocks: seq<Block>, i: nat, run: Run, calls: nat)
    requires i <= |blocks|
  {
    && ShowAll(BasisOf(w), calls, DenoteMap(env.values), blocks, i).Ok?
    && RunRoom(w, run, AllEffort(BasisOf(w), calls, DenoteMap(env.values), blocks, i))
  }

  /** A counted step leaves room for the rest. */
  lemma RunTick(w: World, run: Run, n: nat)
    requires RunRoom(w, run, n) && n > 0
    ensures Tick(w, run.core).r.Ok? && |run.trace| < w.limits.maxItems
    ensures var r := run.(core := Tick(w, run.core).st); RunRoom(w, r, n - 1) && RunSpent(run, r, 1)
  {
  }

  lemma {:induction false} AllAfford(w: World, env: Env, scope: Scope, its: seq<Iteration>, blocks: seq<Block>, i: nat, path: string,
    done: seq<Item>, run: Run, order: seq<Key>, calls: nat)
    requires Stage(w, env, scope, run, order, calls) && i <= |blocks| && AllHaveRoom(w, env, blocks, i, run, calls)
    requires BlocksOk(w.g, scope, blocks) && AllWithin(blocks, order)
    ensures AllAfford_(w, env, its, blocks, i, path, done, run, calls)
    decreases Left(w, run.core), 1, |blocks| - i
  {
    if i < |blocks| {
      var b, values := BasisOf(w), DenoteMap(env.values);
      var all, n, m := AllEffort(b, calls, values, blocks, i), BlockEffort(b, calls, values, blocks[i]), AllEffort(b, calls, values, blocks, i + 1);
      RunTick(w, run, all);
      var r := run.(core := Tick(w, run.core).st);
      OneAffords(w, env, scope, its, blocks[i], At(path, i), r, order, calls);
      OneMeans(w, env, scope, its, blocks[i], At(path, i), r, order, calls);
      var one := One(w, env, its, blocks[i], At(path, i), r);
      RunBoth(run, r, one.run, 1, n - 1, n);
      RunLeft(w, run, one.run, n, m, all);
      AllAfford(w, env, scope, its, blocks, i + 1, path, done + one.items, one.run, order, calls);
      RunBoth(run, one.run, All(w, env, its, blocks, i + 1, path, done + one.items, one.run).1, n, m, all);
    }
  }

  lemma {:induction false} OneAffords(w: World, env: Env, scope: Scope, its: seq<Iteration>, b: Block, path: string, run: Run, order: seq<Key>, calls: nat)
    requires Stage(w, env, scope, run, order, calls) && BlockOk(w.g, scope, b) && Within(BlockCalls(b), order)
    requires Show(BasisOf(w), calls, DenoteMap(env.values), b).Ok?
    requires RunRoom(w, run, 1 + BlockWork(BasisOf(w), calls, DenoteMap(env.values), b))
    ensures RunSpent(run, One(w, env, its, b, path, run).run, 1 + BlockWork(BasisOf(w), calls, DenoteMap(env.values), b))
    decreases Left(w, run.core), 3, 0
  {
    var (id, ids) := OccurrenceId(run.ids, b.id, path, its != []);
    var inner := run.(ids := ids, core := run.core.(used := {}));
    BodyAffords(w, env, scope, its, b, id, path, inner, order, calls);
    var body := Body(w, env, its, b, id, path, inner);
    assert |body.run.trace| < w.limits.maxItems;
  }

  lemma {:induction false} BodyAffords(w: World, env: Env, scope: Scope, its: seq<Iteration>, b: Block, id: string, path: string, run: Run, order: seq<Key>, calls: nat)
    requires Stage(w, env, scope, run, order, calls) && BlockOk(w.g, scope, b) && Within(BlockCalls(b), order)
    requires BodyHasRoom(w, env, b, run, calls)
    ensures BodyAffords_(w, env, its, b, id, path, run, calls)
    decreases Left(w, run.core), 2, 1
  {
    match b
    case Group(_, _, _) => GroupAffords(w, env, scope, its, b, id, path, run, order, calls);
    case Emit(_, _, _, _) => EmitAffords(w, env, scope, its, b, id, path, run, order, calls);
    case If(_, _, _, _) => IfAffords(w, env, scope, its, b, id, path, run, order, calls);
    case ForEach(_, _, _, _) => ForEachAffords(w, env, scope, its, b, id, path, run, order, calls);
  }

  lemma {:induction false} GroupAffords(w: World, env: Env, scope: Scope, its: seq<Iteration>, b: Block, id: string, path: string, run: Run, order: seq<Key>, calls: nat)
    requires Stage(w, env, scope, run, order, calls) && BlockOk(w.g, scope, b) && Within(BlockCalls(b), order)
    requires b.Group? && BodyHasRoom(w, env, b, run, calls)
    ensures BodyAffords_(w, env, its, b, id, path, run, calls)
    decreases Left(w, run.core), 2, 0
  {
    var r := CountOutput(w, run).1;
    assert AllWithin(b.items, order);
    var n := AllEffort(BasisOf(w), calls, DenoteMap(env.values), b.items, 0);
    RunLeft(w, run, r, 1, n, 1 + n);
    AllAfford(w, env, scope, its, b.items, 0, path + ".items", [], r, order, calls);
    RunBoth(run, r, All(w, env, its, b.items, 0, path + ".items", [], r).1, 1, n, 1 + n);
  }

  lemma EmitAffords(w: World, env: Env, scope: Scope, its: seq<Iteration>, b: Block, id: string, path: string, run: Run, order: seq<Key>, calls: nat)
    requires Stage(w, env, scope, run, order, calls) && BlockOk(w.g, scope, b) && Within(BlockCalls(b), order)
    requires b.Emit? && BodyHasRoom(w, env, b, run, calls)
    ensures BodyAffords_(w, env, its, b, id, path, run, calls)
  {
    var all, n := BlockWork(BasisOf(w), calls, DenoteMap(env.values), b), Effort(BasisOf(w), calls, DenoteMap(env.values), b.value);
    var o := ValueAffords(w, env, scope, b.value, run, all, order, calls);
    var r := run.(core := o.st);
    var m := 1 + MeasuredBytes(o.r.value, w.encode);
    RunLeft(w, run, r, n, m, all);
    OutputAffords(w, b, id, o.r.value, r);
    RunBoth(run, r, Output(w, b, id, o.r.value, r).run, n, m, all);
  }

  lemma OutputAffords(w: World, b: Block, id: string, v: View, run: Run)
    requires b.Emit? && RunRoom(w, run, 1 + MeasuredBytes(v, w.encode))
    ensures RunSpent(run, Output(w, b, id, v, run).run, 1 + MeasuredBytes(v, w.encode))
  {
  }

  lemma {:induction false} IfAffords(w: World, env: Env, scope: Scope, its: seq<Iteration>, b: Block, id: string, path: string, run: Run, order: seq<Key>, calls: nat)
    requires Stage(w, env, scope, run, order, calls) && BlockOk(w.g, scope, b) && Within(BlockCalls(b), order)
    requires b.If? && BodyHasRoom(w, env, b, run, calls)
    ensures BodyAffords_(w, env, its, b, id, path, run, calls)
    decreases Left(w, run.core), 2, 0
  {
    var values, all := DenoteMap(env.values), BlockWork(BasisOf(w), calls, DenoteMap(env.values), b);
    PredicateAffords(w, env, scope, false, b.condition, run.core, order, calls);
    PredicateMeans(w, env, scope, false, b.condition, run.core, order, calls);
    var o := Predicate(w, env, b.condition, run.core);
    var r := run.(core := o.st);
    var chosen, branch := if o.r.value then b.yes else b.no, path + (if o.r.value then ".then" else ".else");
    assert AllWithin(chosen, order) && BlocksOk(w.g, scope, chosen);
    var n, m := PredEffort(BasisOf(w), calls, values, b.condition), AllEffort(BasisOf(w), calls, values, chosen, 0);
    RunLeft(w, run, r, n, m, all);
    AllAfford(w, env, scope, its, chosen, 0, branch, [], r, order, calls);
    RunBoth(run, r, All(w, env, its, chosen, 0, branch, [], r).1, n, m, all);
  }

  lemma {:induction false} ForEachAffords(w: World, env: Env, scope: Scope, its: seq<Iteration>, b: Block, id: string, path: string, run: Run, order: seq<Key>, calls: nat)
    requires Stage(w, env, scope, run, order, calls) && BlockOk(w.g, scope, b) && Within(BlockCalls(b), order)
    requires b.ForEach? && BodyHasRoom(w, env, b, run, calls)
    ensures BodyAffords_(w, env, its, b, id, path, run, calls)
    decreases Left(w, run.core), 2, 0
  {
    var values, all := DenoteMap(env.values), BlockWork(BasisOf(w), calls, DenoteMap(env.values), b);
    var o := ValueAffords(w, env, scope, b.value, run, all, order, calls);
    var r, items := run.(core := o.st), Denote(o.r.value).items;
    EnvScopeWf(w, env, scope);
    var ty := ItemType(w.g, Infer(w.g, scope, false, b.value)).value;
    SourceItems(w, scope, false, b.value, o.r.value, ty);
    assert AllWithin(b.items, order) && BlocksOk(w.g, scope[b.item := ty], b.items);
    var n, m := Effort(BasisOf(w), calls, values, b.value), EachEffort(BasisOf(w), calls, values, items, 0, b.item, b.items);
    RunLeft(w, run, r, n, m, all);
    assert Count(w, o.r.value, o.st) == Out(Ok(|items|), o.st);
    LoopAffords(w, env, scope, its, b, o.r.value, |items|, 0, ty, o.st.used, path, [], r, order, calls);
    RunBoth(run, r, Loop(w, env, its, b, o.r.value, |items|, 0, o.st.used, path, [], r).1, n, m, all);
  }

  ghost predicate LoopAffords_(w: World, env: Env, its: seq<Iteration>, b: Block, source: View, n: nat, i: nat,
    sources: set<string>, path: string, done: seq<Item>, run: Run, calls: nat)
    requires b.ForEach? && Denote(source).Arr? && i <= n == |Denote(source).items|
  {
    RunSpent(run, Loop(w, env, its, b, source, n, i, sources, path, done, run).1,
      EachEffort(BasisOf(w), calls, DenoteMap(env.values), Denote(source).items, i, b.item, b.items))
  }

  ghost predicate LoopHasRoom(w: World, env: Env, b: Block, items: seq<Json>, i: nat, run: Run, calls: nat)
    requires b.ForEach? && i <= |items|
  {
    && ShowEach(BasisOf(w), calls, DenoteMap(env.values), items, i, b.item, b.items).Ok?
    && RunRoom(w, run, EachEffort(BasisOf(w), calls, DenoteMap(env.values), items, i, b.item, b.items))
  }

  lemma {:induction false} LoopAffords(w: World, env: Env, scope: Scope, its: seq<Iteration>, b: Block, source: View, n: nat, i: nat,
    ty: DataType, sources: set<string>, path: string, done: seq<Item>, run: Run, order: seq<Key>, calls: nat)
    requires Stage(w, env, scope, run, order, calls) && b.ForEach? && Wf(ty, w.g.types)
    requires Denote(source).Arr? && i <= n == |Denote(source).items| && AllInhabit(Denote(source).items, ty, w.g.types)
    requires BlocksOk(w.g, scope[b.item := ty], b.items) && AllWithin(b.items, order)
    requires LoopHasRoom(w, env, b, Denote(source).items, i, run, calls)
    ensures LoopAffords_(w, env, its, b, source, n, i, sources, path, done, run, calls)
    decreases Left(w, run.core), 1, n - i
  {
    if i < n {
      var turn := FirstTurn(w, env, scope, its, b, source, n, i, ty, sources, path, run, order, calls);
      LoopAffords(w, env, scope, its, b, source, n, i + 1, ty, sources, path, done + turn.0, turn.1, order, calls);
      LoopPaysNext(w, env, its, b, source, n, i, sources, path, done, run, calls);
    }
  }

  /** The turn at `i` uses its share, and leaves room for the others. */
  lemma {:induction false} FirstTurn(w: World, env: Env, scope: Scope, its: seq<Iteration>, b: Block, source: View, n: nat, i: nat,
    ty: DataType, sources: set<string>, path: string, run: Run, order: seq<Key>, calls: nat) returns (turn: (seq<Item>, Run))
    requires Stage(w, env, scope, run, order, calls) && b.ForEach? && Wf(ty, w.g.types)
    requires Denote(source).Arr? && i < n == |Denote(source).items| && AllInhabit(Denote(source).items, ty, w.g.types)
    requires BlocksOk(w.g, scope[b.item := ty], b.items) && AllWithin(b.items, order)
    requires LoopHasRoom(w, env, b, Denote(source).items, i, run, calls)
    ensures Tick(w, run.core).r.Ok? && |run.trace| < w.limits.maxItems
    ensures turn == Turn(w, env, its, b, Index(source, i).value, i, sources, path, run.(core := Tick(w, run.core).st))
    ensures Left(w, turn.1.core) < Left(w, run.core) && Stage(w, env, scope, turn.1, order, calls)
    ensures RunSpent(run, turn.1, 1 + AllEffort(BasisOf(w), calls, DenoteMap(env.values)[b.item := Denote(source).items[i]], b.items, 0))
    ensures LoopHasRoom(w, env, b, Denote(source).items, i + 1, turn.1, calls)
    decreases Left(w, run.core), 0, 0
  {
    var values, items := DenoteMap(env.values), Denote(source).items;
    var all, m := EachEffort(BasisOf(w), calls, values, items, i, b.item, b.items), EachEffort(BasisOf(w), calls, values, items, i + 1, b.item, b.items);
    var k := AllEffort(BasisOf(w), calls, values[b.item := items[i]], b.items, 0);
    EachTurn(BasisOf(w), calls, values, items, i, b.item, b.items);
    RunTick(w, run, all);
    var r := run.(core := Tick(w, run.core).st);
    TurnAffords(w, env, scope, its, b, source, i, ty, sources, path, r, order, calls);
    TurnMeans(w, env, scope, its, b, source, i, ty, sources, path, r, order, calls);
    turn := Turn(w, env, its, b, Index(source, i).value, i, sources, path, r);
    RunBoth(run, r, turn.1, 1, k, 1 + k);
    RunLeft(w, run, turn.1, 1 + k, m, all);
  }

  lemma EachTurn(b: Basis, calls: nat, env: Values, values: seq<Json>, i: nat, item: string, blocks: seq<Block>)
    requires i < |values|
    ensures ShowEach(b, calls, env, values, i, item, blocks)
      == Join(ShowAll(b, calls, env[item := values[i]], blocks, 0), ShowEach(b, calls, env, values, i + 1, item, blocks))
    ensures EachEffort(b, calls, env, values, i, item, blocks)
      == 1 + AllEffort(b, calls, env[item := values[i]], blocks, 0) + EachEffort(b, calls, env, values, i + 1, item, blocks)
  {
  }

  /** One turn followed by the rest of the loop. */
  lemma LoopPaysNext(w: World, env: Env, its: seq<Iteration>, b: Block, source: View, n: nat, i: nat,
    sources: set<string>, path: string, done: seq<Item>, run: Run, calls: nat)
    requires b.ForEach? && Denote(source).Arr? && i < n == |Denote(source).items|
    requires Tick(w, run.core).r.Ok? && |run.trace| < w.limits.maxItems
    requires var (xs, r1) := Turn(w, env, its, b, Index(source, i).value, i, sources, path, run.(core := Tick(w, run.core).st));
      && RunSpent(run, r1, 1 + AllEffort(BasisOf(w), calls, DenoteMap(env.values)[b.item := Denote(source).items[i]], b.items, 0))
      && LoopAffords_(w, env, its, b, source, n, i + 1, sources, path, done + xs, r1, calls)
    ensures LoopAffords_(w, env, its, b, source, n, i, sources, path, done, run, calls)
  {
    EachTurn(BasisOf(w), calls, DenoteMap(env.values), Denote(source).items, i, b.item, b.items);
  }

  lemma {:induction false} TurnAffords(w: World, env: Env, scope: Scope, its: seq<Iteration>, b: Block, source: View, i: nat,
    ty: DataType, sources: set<string>, path: string, run: Run, order: seq<Key>, calls: nat)
    requires Stage(w, env, scope, run, order, calls) && b.ForEach? && Wf(ty, w.g.types)
    requires Denote(source).Arr? && i < |Denote(source).items| && AllInhabit(Denote(source).items, ty, w.g.types)
    requires BlocksOk(w.g, scope[b.item := ty], b.items) && AllWithin(b.items, order)
    requires var inner := DenoteMap(env.values)[b.item := Denote(source).items[i]];
      ShowAll(BasisOf(w), calls, inner, b.items, 0).Ok? && RunRoom(w, run, AllEffort(BasisOf(w), calls, inner, b.items, 0))
    ensures RunSpent(run, Turn(w, env, its, b, Index(source, i).value, i, sources, path, run).1,
      AllEffort(BasisOf(w), calls, DenoteMap(env.values)[b.item := Denote(source).items[i]], b.items, 0))
    decreases Left(w, run.core), 2, 0
  {
    BindItem(w, env, scope, source, i, b.item, ty, sources);
    AllAfford(w, Bind(env, b.item, Index(source, i).value, sources), scope[b.item := ty], its + [Iteration(b.id, i)],
      b.items, 0, path + ".iterations[" + Decimal(i) + "].items", [], run, order, calls);
  }

  // ----- Programs -----

  /** Every limit is at least `n`. */
  predicate Allows(limits: Limits, n: nat) {
    n <= limits.maxSteps && n <= limits.maxItems && n <= limits.maxBytes
  }

  lemma ProgramAffords(w: World, program: seq<Block>, order: seq<Key>, calls: nat)
    requires Ready_(w, order, calls) && BlocksOk(w.g, map[], program) && AllWithin(program, order)
    requires ShowAll(BasisOf(w), calls, map[], program, 0).Ok?
    requires Allows(w.limits, AllEffort(BasisOf(w), calls, map[], program, 0))
    ensures Evaluation_(w, program).Complete()
  {
    var env := Env(map[], map[]);
    var ids := set i | 0 <= i < |BlockIds(program)| :: BlockIds(program)[i];
    assert DenoteMap(env.values) == map[];
    AllAfford(w, env, map[], [], program, 0, "program", [], Run(EMPTY, map[], 0, 0, ids, []), order, calls);
  }

  /** An accepted strategy is evaluated completely, within limits of the size that its meaning needs,
      exactly if it has a meaning. */
  lemma EnoughIsComplete(s: Strategy, external: Registry, library: Library, keys: seq<Key>,
    resources: map<string, Json>, limits: Limits, encode: Json -> string, calls: nat)
    requires Accepts_(s, external, library, keys) && Injective(encode) && |library| <= calls
    requires Allows(limits, AllEffort(Basis(Link(s, external, library), resources, encode), calls, map[], s.program, 0))
    ensures EvaluateStrategy(s, external, library, keys, resources, limits, encode).Complete()
      <==> ShowAll(Basis(Link(s, external, library), resources, encode), calls, map[], s.program, 0).Ok?
  {
    CompleteShowsMeaning(s, external, library, keys, resources, limits, encode, calls);
    var w := World(Link(s, external, library), resources, limits, encode);
    var order := AcceptedCallDepth(s, external, library, keys);
    if ShowAll(BasisOf(w), calls, map[], s.program, 0).Ok? { ProgramAffords(w, s.program, order, calls); }
  }
}
