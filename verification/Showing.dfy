/** What a program shows, over plain documents and without budgets; and that a complete evaluation
    shows exactly that, up to the identifiers of occurrences. */
module Showing {
  import opened Base
  import opened Types
  import opened Pointers
  import opened Views
  import opened Syntax
  import opened Typing
  import opened Acceptance
  import opened Grouping
  import opened Evaluation
  import opened Blocks
  import opened Meaning
  import opened OperationsSound
  import opened Soundness

  datatype Shown =
    | ShownGroup(blockId: string, title: string, items: seq<Shown>)
    | ShownValue(blockId: string, role: Role, format: Format, value: Json)

  // ----- The meaning of blocks -----

  ghost function Show(b: Basis, calls: nat, env: Values, block: Block): Access<seq<Shown>>
    decreases block, 1
  {
    match block
    case Group(id, title, items) =>
      var inner := ShowAll(b, calls, env, items, 0);
      if inner.Ok? then Ok([ShownGroup(id, title, inner.value)]) else inner
    case Emit(id, role, format, value) =>
      var v := Value_(b, calls, env, value);
      if v.Ok? then Ok([ShownValue(id, role, format, v.value)]) else Fail(v)
    case If(_, condition, yes, no) =>
      var t := Truth(b, calls, env, condition);
      if !t.Ok? then Fail(t)
      else if t.value then ShowAll(b, calls, env, yes, 0)
      else ShowAll(b, calls, env, no, 0)
    case ForEach(_, value, item, items) =>
      var v := Value_(b, calls, env, value);
      if !v.Ok? then Fail(v)
      else if !v.value.Arr? then Invalid
      else ShowEach(b, calls, env, v.value.items, 0, item, items)
  }

  ghost function ShowAll(b: Basis, calls: nat, env: Values, blocks: seq<Block>, i: nat): Access<seq<Shown>>
    requires i <= |blocks|
    decreases blocks, 0, |blocks| - i
  {
    if i == |blocks| then Ok([])
    else Join(Show(b, calls, env, blocks[i]), ShowAll(b, calls, env, blocks, i + 1))
  }

  ghost function ShowEach(b: Basis, calls: nat, env: Values, values: seq<Json>, i: nat, item: string, blocks: seq<Block>): Access<seq<Shown>>
    requires i <= |values|
    decreases blocks, 1, |values| - i
  {
    if i == |values| then Ok([])
    else Join(ShowAll(b, calls, env[item := values[i]], blocks, 0), ShowEach(b, calls, env, values, i + 1, item, blocks))
  }

  function Join(a: Access<seq<Shown>>, b: Access<seq<Shown>>): Access<seq<Shown>> {
    if a.Ok? && b.Ok? then Ok(a.value + b.value) else if a.Ok? then b else a
  }

  // ----- Agreement -----

  /** An occurrence keeps its block's identifier, or extends it with `@` and its path. */
  predicate NamedBy(id: string, blockId: string) {
    id == blockId || blockId + "@" <= id
  }

  predicate Match(x: Item, s: Shown) {
    match (x, s)
    case (ItemGroup(id, title, items), ShownGroup(blockId, shown, inner)) =>
      NamedBy(id, blockId) && title == shown && MatchAll(items, inner)
    case (Fragment(id, role, format, value, _), ShownValue(blockId, r, f, json)) =>
      NamedBy(id, blockId) && role == r && format == f && Denote(value) == json
    case _ => false
  }

  predicate MatchAll(xs: seq<Item>, ss: seq<Shown>) {
    |xs| == |ss| && forall i | 0 <= i < |xs| :: Match(xs[i], ss[i])
  }

  // ----- Representations -----

  /** The document has the shape that its representation promises. */
  predicate FormatFits(v: Json, format: Format) {
    match format
    case AsText => v.Str?
    case AsJson => true
    case AsMessages => v.Arr? && forall i | 0 <= i < |v.items| :: v.items[i].Obj?
    case AsMedia => v.Obj? && FilledText(v, "contentRef") && FilledText(v, "mediaType")
  }

  predicate FilledText(v: Json, field: string)
    requires v.Obj?
  {
    field in v.fields && v.fields[field].Str? && v.fields[field].s != ""
  }

  /** Named, titled, and represented as it says. */
  predicate Fit(x: Item) {
    !Blank(x.id) &&
    match x
    case ItemGroup(_, title, items) => !Blank(title) && FitAll(items)
    case Fragment(_, role, format, value, _) =>
      (role == Instruction ==> format == AsText) && FormatFits(Denote(value), format)
  }

  predicate FitAll(items: seq<Item>) {
    forall i | 0 <= i < |items| :: Fit(items[i])
  }

  lemma NamedNotBlank(id: string, blockId: string)
    requires NamedBy(id, blockId) && !Blank(blockId)
    ensures !Blank(id)
  {
    if id != blockId { assert id[|blockId|] == '@'; }
  }

  /** A value of a type that allows a representation has it. */
  lemma FormatSound(g: Linked, v: Json, t: DataType, format: Format)
    requires Wf(t, g.types) && Inhabits(v, t, g.types) && FormatOk(g, t, format)
    ensures FormatFits(v, format)
  {
    ResolvedMeans(v, t, g.types);
    var r := Resolved(t, g.types).value;
    if format == AsMessages {
      forall i | 0 <= i < |v.items| ensures v.items[i].Obj? { ResolvedMeans(v.items[i], r.item, g.types); }
    }
  }

  predicate Clean(run: Run) { run.needs == map[] && !run.core.diagnosed }

  /** Every need is a declared resource that is absent. */
  ghost predicate NeedsOk(w: World, run: Run) {
    forall n | n in run.needs :: Absent(w, n)
  }

  ghost predicate Sane(w: World, run: Run) { StateOk(w, run.core) && NeedsOk(w, run) }

  lemma CleanBefore(w: World, a: Run, b: Run)
    requires Grew(w, a, b) && Clean(b)
    ensures Clean(a)
  {
    assert a.needs.Keys == {};
  }

  lemma DemandSane(w: World, run: Run, failure: Access<()>, path: string)
    requires Sane(w, run) && (failure.Missing? ==> Absent(w, failure.name)) && (!failure.Missing? ==> run.core.diagnosed)
    ensures var r := Demand(run, failure, path); Sane(w, r) && !Clean(r) && Grew(w, run, r)
  {
    if failure.Missing? { assert failure.name in Demand(run, failure, path).needs; }
  }

  /** Beyond the first `k` items, all are fit, and a clean run shows `m`. */
  ghost predicate Shows(w: World, run: Run, items: seq<Item>, k: nat, m: Access<seq<Shown>>) {
    Sane(w, run) && k <= |items| && FitAll(items[k..]) && (Clean(run) ==> m.Ok? && MatchAll(items[k..], m.value))
  }

  lemma ShowsJoin(w: World, a: Run, xs: seq<Item>, m: Access<seq<Shown>>, b: Run, done: seq<Item>, items: seq<Item>, rest: Access<seq<Shown>>)
    requires Shows(w, a, xs, 0, m) && Shows(w, b, items, |done + xs|, rest) && Grew(w, a, b)
    requires items[..|done + xs|] == done + xs
    ensures Shows(w, b, items, |done|, Join(m, rest)) && items[..|done|] == done
  {
    assert items[..|done|] == items[..|done + xs|][..|done|] == done;
    assert xs[0..] == xs;
    assert items[|done|..] == xs + items[|done + xs|..] by {
      assert items == items[..|done + xs|] + items[|done + xs|..];
    }
    if Clean(b) { CleanBefore(w, a, b); }
  }

  // Named conclusions for each part of the traversal.

  ghost predicate AllShow(w: World, env: Env, its: seq<Iteration>, blocks: seq<Block>, i: nat, path: string, done: seq<Item>, run: Run, calls: nat)
    requires i <= |blocks|
  {
    var (items, r) := All(w, env, its, blocks, i, path, done, run);
    |done| <= |items| && items[..|done|] == done
    && Shows(w, r, items, |done|, ShowAll(BasisOf(w), calls, DenoteMap(env.values), blocks, i))
  }

  ghost predicate BodyShows(w: World, env: Env, its: seq<Iteration>, b: Block, id: string, path: string, run: Run, calls: nat) {
    var r := Body(w, env, its, b, id, path, run);
    Shows(w, r.run, r.items, 0, Show(BasisOf(w), calls, DenoteMap(env.values), b))
  }

  ghost predicate OneShows(w: World, env: Env, its: seq<Iteration>, b: Block, path: string, run: Run, calls: nat) {
    var r := One(w, env, its, b, path, run);
    Shows(w, r.run, r.items, 0, Show(BasisOf(w), calls, DenoteMap(env.values), b))
  }

  ghost predicate LoopShows(w: World, env: Env, its: seq<Iteration>, b: Block, source: View, n: nat, i: nat,
    sources: set<string>, path: string, done: seq<Item>, run: Run, calls: nat)
    requires b.ForEach? && Denote(source).Arr? && i <= n == |Denote(source).items|
  {
    var (items, r) := Loop(w, env, its, b, source, n, i, sources, path, done, run);
    |done| <= |items| && items[..|done|] == done
    && Shows(w, r, items, |done|, ShowEach(BasisOf(w), calls, DenoteMap(env.values), Denote(source).items, i, b.item, b.items))
  }

  ghost predicate Stage(w: World, env: Env, scope: Scope, run: Run, order: seq<Key>, calls: nat) {
    Setting(w, env, scope, run.core, order, calls) && NeedsOk(w, run)
  }

  lemma {:induction false} AllMeans(w: World, env: Env, scope: Scope, its: seq<Iteration>, blocks: seq<Block>, i: nat, path: string,
    done: seq<Item>, run: Run, order: seq<Key>, calls: nat)
    requires Stage(w, env, scope, run, order, calls) && i <= |blocks|
    requires BlocksOk(w.g, scope, blocks) && AllWithin(blocks, order)
    ensures AllShow(w, env, its, blocks, i, path, done, run, calls)
    decreases Left(w, run.core), 1, |blocks| - i
  {
    if i < |blocks| {
      var tick := Tick(w, run.core);
      var r := run.(core := tick.st);
      if tick.r.Ok? && |r.trace| < w.limits.maxItems {
        OneMeans(w, env, scope, its, blocks[i], At(path, i), r, order, calls);
        var b := One(w, env, its, blocks[i], At(path, i), r);
        AllMeans(w, env, scope, its, blocks, i + 1, path, done + b.items, b.run, order, calls);
        var (items, last) := All(w, env, its, blocks, i + 1, path, done + b.items, b.run);
        ShowsJoin(w, b.run, b.items, Show(BasisOf(w), calls, DenoteMap(env.values), blocks[i]), last, done, items,
          ShowAll(BasisOf(w), calls, DenoteMap(env.values), blocks, i + 1));
      }
    }
  }

  lemma {:induction false} OneMeans(w: World, env: Env, scope: Scope, its: seq<Iteration>, b: Block, path: string, run: Run, order: seq<Key>, calls: nat)
    requires Stage(w, env, scope, run, order, calls)
    requires BlockOk(w.g, scope, b) && Within(BlockCalls(b), order)
    ensures OneShows(w, env, its, b, path, run, calls)
    decreases Left(w, run.core), 3, 0
  {
    var (id, ids) := OccurrenceId(run.ids, b.id, path, its != []);
    assert NamedBy(id, b.id) by {
      if its != [] { assert b.id + "@" <= b.id + "@" + path; }
    }
    var inner := run.(ids := ids, core := run.core.(used := {}));
    BodyMeans_(w, env, scope, its, b, id, path, inner, order, calls);
    var body := Body(w, env, its, b, id, path, inner);
    var r := Record_(w, b, id, path, its, body);
    assert Clean(One(w, env, its, b, path, run).run) ==> Clean(body.run);
  }

  lemma {:induction false} BodyMeans_(w: World, env: Env, scope: Scope, its: seq<Iteration>, b: Block, id: string, path: string, run: Run, order: seq<Key>, calls: nat)
    requires Stage(w, env, scope, run, order, calls) && NamedBy(id, b.id)
    requires BlockOk(w.g, scope, b) && Within(BlockCalls(b), order)
    ensures BodyShows(w, env, its, b, id, path, run, calls)
    decreases Left(w, run.core), 2, 1
  {
    match b
    case Group(_, _, _) => GroupMeans(w, env, scope, its, b, id, path, run, order, calls);
    case Emit(_, _, _, _) => EmitMeans(w, env, scope, its, b, id, path, run, order, calls);
    case If(_, _, _, _) => IfMeans(w, env, scope, its, b, id, path, run, order, calls);
    case ForEach(_, _, _, _) => ForEachMeans(w, env, scope, its, b, id, path, run, order, calls);
  }

  lemma {:induction false} GroupMeans(w: World, env: Env, scope: Scope, its: seq<Iteration>, b: Block, id: string, path: string, run: Run, order: seq<Key>, calls: nat)
    requires Stage(w, env, scope, run, order, calls) && NamedBy(id, b.id) && b.Group?
    requires BlockOk(w.g, scope, b) && Within(BlockCalls(b), order)
    ensures BodyShows(w, env, its, b, id, path, run, calls)
    decreases Left(w, run.core), 2, 0
  {
    var (ok, r) := CountOutput(w, run);
    if ok {
      assert AllWithin(b.items, order);
      AllMeans(w, env, scope, its, b.items, 0, path + ".items", [], r, order, calls);
      var (children, last) := All(w, env, its, b.items, 0, path + ".items", [], r);
      assert children[0..] == children;
      NamedNotBlank(id, b.id);
    }
  }

  lemma {:induction false} EmitMeans(w: World, env: Env, scope: Scope, its: seq<Iteration>, b: Block, id: string, path: string, run: Run, order: seq<Key>, calls: nat)
    requires Stage(w, env, scope, run, order, calls) && NamedBy(id, b.id) && b.Emit?
    requires BlockOk(w.g, scope, b) && Within(BlockCalls(b), order)
    ensures BodyShows(w, env, its, b, id, path, run, calls)
    decreases Left(w, run.core), 2, 0
  {
    ExpressionMeans(w, env, scope, false, b.value, run.core, order, calls);
    var o := Expression(w, env, b.value, run.core);
    var r := run.(core := o.st);
    if o.r.Ok? {
      EnvScopeWf(w, env, scope);
      InferWf(w.g, scope, false, b.value);
      FormatSound(w.g, Denote(o.r.value), Infer(w.g, scope, false, b.value).value, b.format);
      OutputShows(w, b, id, o.r.value, r);
    } else {
      DemandSane(w, r, Failure(o.r), path);
    }
  }

  /** The output of a fitting value is one fit fragment, or a report. */
  lemma OutputShows(w: World, b: Block, id: string, v: View, run: Run)
    requires b.Emit? && NamedBy(id, b.id) && !Blank(b.id) && Sane(w, run)
    requires FormatFits(Denote(v), b.format) && (b.role == Instruction ==> b.format == AsText)
    ensures var r := Output(w, b, id, v, run);
      Shows(w, r.run, r.items, 0, Ok([ShownValue(b.id, b.role, b.format, Denote(v))]))
  {
    NamedNotBlank(id, b.id);
    var r := Output(w, b, id, v, run);
    assert Clean(r.run) ==> r.items[0..] == [Fragment(id, b.role, b.format, v, run.core.used)];
  }

  lemma {:induction false} IfMeans(w: World, env: Env, scope: Scope, its: seq<Iteration>, b: Block, id: string, path: string, run: Run, order: seq<Key>, calls: nat)
    requires Stage(w, env, scope, run, order, calls) && NamedBy(id, b.id) && b.If?
    requires BlockOk(w.g, scope, b) && Within(BlockCalls(b), order)
    ensures BodyShows(w, env, its, b, id, path, run, calls)
    decreases Left(w, run.core), 2, 0
  {
    PredicateMeans(w, env, scope, false, b.condition, run.core, order, calls);
    var o := Predicate(w, env, b.condition, run.core);
    var r := run.(core := o.st);
    if o.r.Ok? {
      var chosen := if o.r.value then b.yes else b.no;
      assert AllWithin(chosen, order) && BlocksOk(w.g, scope, chosen);
      AllMeans(w, env, scope, its, chosen, 0, path + (if o.r.value then ".then" else ".else"), [], r, order, calls);
    } else {
      DemandSane(w, r, Failure(o.r), path);
    }
  }

  lemma {:induction false} ForEachMeans(w: World, env: Env, scope: Scope, its: seq<Iteration>, b: Block, id: string, path: string, run: Run, order: seq<Key>, calls: nat)
    requires Stage(w, env, scope, run, order, calls) && NamedBy(id, b.id) && b.ForEach?
    requires BlockOk(w.g, scope, b) && Within(BlockCalls(b), order)
    ensures BodyShows(w, env, its, b, id, path, run, calls)
    decreases Left(w, run.core), 2, 0
  {
    ExpressionMeans(w, env, scope, false, b.value, run.core, order, calls);
    var o := Expression(w, env, b.value, run.core);
    var r := run.(core := o.st);
    if o.r.Ok? {
      EnvScopeWf(w, env, scope);
      var ty := ItemType(w.g, Infer(w.g, scope, false, b.value)).value;
      SourceItems(w, scope, false, b.value, o.r.value, ty);
      var n := Count(w, o.r.value, o.st);
      if n.r.Ok? {
        assert AllWithin(b.items, order) && BlocksOk(w.g, scope[b.item := ty], b.items);
        LoopMeans(w, env, scope, its, b, o.r.value, n.r.value, 0, ty, o.st.used, path, [], r, order, calls);
      }
    } else {
      DemandSane(w, r, Failure(o.r), path);
    }
  }

  lemma {:induction false} LoopMeans(w: World, env: Env, scope: Scope, its: seq<Iteration>, b: Block, source: View, n: nat, i: nat,
    ty: DataType, sources: set<string>, path: string, done: seq<Item>, run: Run, order: seq<Key>, calls: nat)
    requires Stage(w, env, scope, run, order, calls) && b.ForEach? && Wf(ty, w.g.types)
    requires Denote(source).Arr? && i <= n == |Denote(source).items| && AllInhabit(Denote(source).items, ty, w.g.types)
    requires BlocksOk(w.g, scope[b.item := ty], b.items) && AllWithin(b.items, order)
    ensures LoopShows(w, env, its, b, source, n, i, sources, path, done, run, calls)
    decreases Left(w, run.core), 1, n - i
  {
    if i < n {
      var tick := Tick(w, run.core);
      var r := run.(core := tick.st);
      if tick.r.Ok? && |r.trace| < w.limits.maxItems {
        TurnMeans(w, env, scope, its, b, source, i, ty, sources, path, r, order, calls);
        var (xs, r1) := Turn(w, env, its, b, Index(source, i).value, i, sources, path, r);
        LoopMeans(w, env, scope, its, b, source, n, i + 1, ty, sources, path, done + xs, r1, order, calls);
        LoopJoin(w, env, its, b, source, n, i, sources, path, done, run, calls);
      } else {
        LoopStops(w, env, its, b, source, n, i, sources, path, done, run, calls);
      }
    } else {
      LoopEnds(w, env, its, b, source, n, sources, path, done, run, calls);
    }
  }

  lemma LoopEnds(w: World, env: Env, its: seq<Iteration>, b: Block, source: View, n: nat,
    sources: set<string>, path: string, done: seq<Item>, run: Run, calls: nat)
    requires b.ForEach? && Denote(source).Arr? && n == |Denote(source).items| && Sane(w, run)
    ensures LoopShows(w, env, its, b, source, n, n, sources, path, done, run, calls)
  {
  }

  /** A loop that runs out of a budget reports it. */
  lemma LoopStops(w: World, env: Env, its: seq<Iteration>, b: Block, source: View, n: nat, i: nat,
    sources: set<string>, path: string, done: seq<Item>, run: Run, calls: nat)
    requires b.ForEach? && Denote(source).Arr? && i < n == |Denote(source).items| && Sane(w, run)
    requires !Tick(w, run.core).r.Ok? || |run.trace| >= w.limits.maxItems
    ensures LoopShows(w, env, its, b, source, n, i, sources, path, done, run, calls)
  {
  }

  /** One turn followed by the rest of the loop. */
  lemma LoopJoin(w: World, env: Env, its: seq<Iteration>, b: Block, source: View, n: nat, i: nat,
    sources: set<string>, path: string, done: seq<Item>, run: Run, calls: nat)
    requires b.ForEach? && Denote(source).Arr? && i < n == |Denote(source).items|
    requires Tick(w, run.core).r.Ok? && |run.trace| < w.limits.maxItems
    requires var r := run.(core := Tick(w, run.core).st);
      var (xs, r1) := Turn(w, env, its, b, Index(source, i).value, i, sources, path, r);
      && Shows(w, r1, xs, 0, ShowAll(BasisOf(w), calls, DenoteMap(env.values)[b.item := Denote(source).items[i]], b.items, 0))
      && LoopShows(w, env, its, b, source, n, i + 1, sources, path, done + xs, r1, calls)
    ensures LoopShows(w, env, its, b, source, n, i, sources, path, done, run, calls)
  {
    var r := run.(core := Tick(w, run.core).st);
    var (xs, r1) := Turn(w, env, its, b, Index(source, i).value, i, sources, path, r);
    var (items, last) := Loop(w, env, its, b, source, n, i + 1, sources, path, done + xs, r1);
    ShowsJoin(w, r1, xs, ShowAll(BasisOf(w), calls, DenoteMap(env.values)[b.item := Denote(source).items[i]], b.items, 0),
      last, done, items,
      ShowEach(BasisOf(w), calls, DenoteMap(env.values), Denote(source).items, i + 1, b.item, b.items));
  }

  lemma {:induction false} TurnMeans(w: World, env: Env, scope: Scope, its: seq<Iteration>, b: Block, source: View, i: nat,
    ty: DataType, sources: set<string>, path: string, run: Run, order: seq<Key>, calls: nat)
    requires Stage(w, env, scope, run, order, calls) && b.ForEach? && Wf(ty, w.g.types)
    requires Denote(source).Arr? && i < |Denote(source).items| && AllInhabit(Denote(source).items, ty, w.g.types)
    requires BlocksOk(w.g, scope[b.item := ty], b.items) && AllWithin(b.items, order)
    ensures var (items, r) := Turn(w, env, its, b, Index(source, i).value, i, sources, path, run);
      Shows(w, r, items, 0, ShowAll(BasisOf(w), calls, DenoteMap(env.values)[b.item := Denote(source).items[i]], b.items, 0))
    decreases Left(w, run.core), 2, 0
  {
    BindItem(w, env, scope, source, i, b.item, ty, sources);
    AllMeans(w, Bind(env, b.item, Index(source, i).value, sources), scope[b.item := ty], its + [Iteration(b.id, i)],
      b.items, 0, path + ".iterations[" + Decimal(i) + "].items", [], run, order, calls);
  }

  lemma AcceptedShowsMeaning(s: Strategy, external: Registry, library: Library, keys: seq<Key>, w: World, calls: nat)
    requires Accepts_(s, external, library, keys) && w.g == Link(s, external, library)
    requires Injective(w.encode) && |library| <= calls
    ensures var ev := Evaluation_(w, s.program);
      var m := ShowAll(BasisOf(w), calls, map[], s.program, 0);
      && (forall n | n in ev.run.needs :: n in s.requirements && n !in w.resources)
      && FitAll(ev.items)
      && (ev.Complete() ==> m.Ok? && MatchAll(ev.items, m.value))
  {
    var order := AcceptedCallDepth(s, external, library, keys);
    ProgramMeans(w, s.program, order, calls);
  }

  lemma ProgramMeans(w: World, program: seq<Block>, order: seq<Key>, calls: nat)
    requires Ready_(w, order, calls) && BlocksOk(w.g, map[], program) && AllWithin(program, order)
    ensures var ev := Evaluation_(w, program);
      var m := ShowAll(BasisOf(w), calls, map[], program, 0);
      && (forall n | n in ev.run.needs :: n in w.g.requirements && n !in w.resources)
      && FitAll(ev.items)
      && (ev.Complete() ==> m.Ok? && MatchAll(ev.items, m.value))
  {
    var env := Env(map[], map[]);
    var ids := set i | 0 <= i < |BlockIds(program)| :: BlockIds(program)[i];
    var run := Run(EMPTY, map[], 0, 0, ids, []);
    assert DenoteMap(env.values) == map[];
    AllMeans(w, env, map[], [], program, 0, "program", [], run, order, calls);
    var items := Evaluation_(w, program).items;
    assert items[0..] == items;
  }

  /** Evaluation as callers reach it: a strategy that the checker rejects is only reported. */
  ghost function EvaluateStrategy(s: Strategy, external: Registry, library: Library, keys: seq<Key>,
    resources: map<string, Json>, limits: Limits, encode: Json -> string): Evaluated
  {
    if Accepts_(s, external, library, keys)
    then Evaluation_(World(Link(s, external, library), resources, limits, encode), s.program)
    else Evaluated([], Run(EMPTY.(diagnosed := true), map[], 0, 0, {}, []))
  }

  /** The main theorem: a strategy that evaluates completely, within whatever budgets, shows exactly
      its meaning; whatever it asks for is a declared resource that is absent, and all it shows is
      named, titled and represented as it says. */
  lemma CompleteShowsMeaning(s: Strategy, external: Registry, library: Library, keys: seq<Key>,
    resources: map<string, Json>, limits: Limits, encode: Json -> string, calls: nat)
    requires Injective(encode) && |library| <= calls
    ensures var ev := EvaluateStrategy(s, external, library, keys, resources, limits, encode);
      var m := ShowAll(Basis(Link(s, external, library), resources, encode), calls, map[], s.program, 0);
      && (forall n | n in ev.run.needs :: n in s.requirements && n !in resources)
      && FitAll(ev.items)
      && (ev.Complete() ==> m.Ok? && MatchAll(ev.items, m.value))
  {
    if Accepts_(s, external, library, keys) {
      AcceptedShowsMeaning(s, external, library, keys, World(Link(s, external, library), resources, limits, encode), calls);
    }
  }
}
