/** The sources of a fragment determine it across whole evaluations: in two worlds that agree on them,
    whatever stands at the same path is the same (rust/crates/zf-context/src/context.rs,
    `Evaluator::blocks`). */
module FragmentSources {
  import opened Pointers
  import opened Views
  import opened Syntax
  import opened Evaluation
  import opened Blocks
  import opened Outputs
  import opened ReadDeterminism
  import opened SourcesSuffice
  import opened TracePaths

  // ----- Which fragment is emitted at which path -----

  /** The list of blocks from `i` on emits `f` at the path `p`. */
  ghost predicate AllEmit(w: World, env: Env, its: seq<Iteration>, blocks: seq<Block>, i: nat, path: string, run: Run, p: string, f: Item)
    requires i <= |blocks|
    decreases Left(w, run.core), 1, |blocks| - i
  {
    i < |blocks| &&
    var tick := Tick(w, run.core);
    var r := run.(core := tick.st);
    && tick.r.Ok? && |r.trace| < w.limits.maxItems
    && (OneEmits(w, env, its, blocks[i], At(path, i), r, p, f)
        || AllEmit(w, env, its, blocks, i + 1, path, One(w, env, its, blocks[i], At(path, i), r).run, p, f))
  }

  /** The state in which the body of a block begins. */
  function Inner(its: seq<Iteration>, b: Block, path: string, run: Run): Run {
    var (id, ids) := OccurrenceId(run.ids, b.id, path, its != []);
    run.(ids := ids, core := run.core.(used := {}))
  }

  ghost predicate OneEmits(w: World, env: Env, its: seq<Iteration>, b: Block, path: string, run: Run, p: string, f: Item)
    decreases Left(w, run.core), 3, 0
  {
    var inner := Inner(its, b, path, run);
    match b
    case Group(_, _, items) =>
      CountOutput(w, inner).0 && AllEmit(w, env, its, items, 0, path + ".items", CountOutput(w, inner).1, p, f)
    case Emit(_, _, _, _) => p == path && f.Fragment? && One(w, env, its, b, path, run).items == [f]
    case If(_, condition, yes, no) =>
      var o := Predicate(w, env, condition, inner.core);
      o.r.Ok? && AllEmit(w, env, its, if o.r.value then yes else no, 0, path + (if o.r.value then ".then" else ".else"), inner.(core := o.st), p, f)
    case ForEach(_, value, _, _) =>
      var o := Expression(w, env, value, inner.core);
      o.r.Ok? && Count(w, o.r.value, o.st).r.Ok?
      && LoopEmits(w, env, its, b, o.r.value, Count(w, o.r.value, o.st).r.value, 0, o.st.used, path, inner.(core := o.st), p, f)
  }

  ghost predicate LoopEmits(w: World, env: Env, its: seq<Iteration>, b: Block, source: View, n: nat, i: nat,
    sources: set<string>, path: string, run: Run, p: string, f: Item)
    requires b.ForEach? && i <= n
    decreases Left(w, run.core), 1, n - i
  {
    i < n &&
    var tick := Tick(w, run.core);
    var r := run.(core := tick.st);
    && tick.r.Ok? && |r.trace| < w.limits.maxItems
    && if Index(source, i).None? then LoopEmits(w, env, its, b, source, n, i + 1, sources, path, r, p, f)
       else
         var v := Index(source, i).value;
         || TurnEmits(w, Bind(env, b.item, v, sources), its + [Iteration(b.id, i)], b, i, path, r, p, f)
         || LoopEmits(w, env, its, b, source, n, i + 1, sources, path, Turn(w, env, its, b, v, i, sources, path, r).1, p, f)
  }

  ghost predicate TurnEmits(w: World, env: Env, its: seq<Iteration>, b: Block, i: nat, path: string, run: Run, p: string, f: Item)
    requires b.ForEach?
    decreases Left(w, run.core), 2, 0
  {
    AllEmit(w, env, its, b.items, 0, At(path + ".iterations", i) + ".items", run, p, f)
  }

  // ----- These are the fragments of the result -----

  predicate InTree(items: seq<Item>, f: Item) {
    f.Fragment? && exists k :: 0 <= k < |items| && InItem(items[k], f)
  }

  predicate InItem(x: Item, f: Item) {
    f.Fragment? && if x.ItemGroup? then InTree(x.items, f) else x == f
  }

  ghost predicate Somewhere(w: World, env: Env, its: seq<Iteration>, blocks: seq<Block>, i: nat, path: string, run: Run, f: Item)
    requires i <= |blocks|
  {
    exists p :: AllEmit(w, env, its, blocks, i, path, run, p, f)
  }

  ghost predicate InOne(w: World, env: Env, its: seq<Iteration>, b: Block, path: string, run: Run, f: Item) {
    exists p :: OneEmits(w, env, its, b, path, run, p, f)
  }

  ghost predicate InLoop(w: World, env: Env, its: seq<Iteration>, b: Block, source: View, n: nat, i: nat,
    sources: set<string>, path: string, run: Run, f: Item)
    requires b.ForEach? && i <= n
  {
    exists p :: LoopEmits(w, env, its, b, source, n, i, sources, path, run, p, f)
  }

  lemma InTreeAdds(xs: seq<Item>, ys: seq<Item>, f: Item)
    ensures InTree(xs + ys, f) <==> InTree(xs, f) || InTree(ys, f)
  {
    var zs := xs + ys;
    if InTree(xs, f) {
      var k :| 0 <= k < |xs| && InItem(xs[k], f);
      assert InItem(zs[k], f);
    }
    if InTree(ys, f) {
      var k :| 0 <= k < |ys| && InItem(ys[k], f);
      assert InItem(zs[|xs| + k], f);
    }
  }

  lemma {:induction false} AllAreEmitted(w: World, env: Env, its: seq<Iteration>, blocks: seq<Block>, i: nat, path: string, done: seq<Item>, run: Run, f: Item)
    requires i <= |blocks|
    ensures var items := All(w, env, its, blocks, i, path, done, run).0;
      Extends_(items, done) && (InTree(items[|done|..], f) <==> f.Fragment? && Somewhere(w, env, its, blocks, i, path, run, f))
    decreases Left(w, run.core), 1, |blocks| - i
  {
    if i < |blocks| {
      var tick := Tick(w, run.core);
      var r := run.(core := tick.st);
      if tick.r.Ok? && |r.trace| < w.limits.maxItems {
        var b := One(w, env, its, blocks[i], At(path, i), r);
        OneIsEmitted(w, env, its, blocks[i], At(path, i), r, f);
        AllAreEmitted(w, env, its, blocks, i + 1, path, done + b.items, b.run, f);
        var items := All(w, env, its, blocks, i + 1, path, done + b.items, b.run).0;
        ExtendsMore(items, done, b.items);
        InTreeAdds(b.items, items[|done + b.items|..], f);
        EitherEmits(w, env, its, blocks, i, path, run, f);
      }
    }
  }

  /** A list emits what its first block or the rest emits. */
  lemma EitherEmits(w: World, env: Env, its: seq<Iteration>, blocks: seq<Block>, i: nat, path: string, run: Run, f: Item)
    requires i < |blocks| && Tick(w, run.core).r.Ok? && |run.trace| < w.limits.maxItems
    ensures var r := run.(core := Tick(w, run.core).st);
      Somewhere(w, env, its, blocks, i, path, run, f) <==>
        || InOne(w, env, its, blocks[i], At(path, i), r, f)
        || Somewhere(w, env, its, blocks, i + 1, path, One(w, env, its, blocks[i], At(path, i), r).run, f)
  {
    var r := run.(core := Tick(w, run.core).st);
    var rest := One(w, env, its, blocks[i], At(path, i), r).run;
    forall p ensures AllEmit(w, env, its, blocks, i, path, run, p, f) <==>
      OneEmits(w, env, its, blocks[i], At(path, i), r, p, f) || AllEmit(w, env, its, blocks, i + 1, path, rest, p, f)
    {
    }
    if InOne(w, env, its, blocks[i], At(path, i), r, f) {
      var p :| OneEmits(w, env, its, blocks[i], At(path, i), r, p, f);
      assert AllEmit(w, env, its, blocks, i, path, run, p, f);
    }
    if Somewhere(w, env, its, blocks, i + 1, path, rest, f) {
      var p :| AllEmit(w, env, its, blocks, i + 1, path, rest, p, f);
      assert AllEmit(w, env, its, blocks, i, path, run, p, f);
    }
  }

  lemma OneIsBody(w: World, env: Env, its: seq<Iteration>, b: Block, path: string, run: Run)
    ensures One(w, env, its, b, path, run).items
      == Body(w, env, its, b, OccurrenceId(run.ids, b.id, path, its != []).0, path, Inner(its, b, path, run)).items
  {
  }

  lemma {:induction false} OneIsEmitted(w: World, env: Env, its: seq<Iteration>, b: Block, path: string, run: Run, f: Item)
    ensures InTree(One(w, env, its, b, path, run).items, f) <==> f.Fragment? && InOne(w, env, its, b, path, run, f)
    decreases Left(w, run.core), 3, 0
  {
    match b
    case Group(_, _, _) => GroupIsEmitted(w, env, its, b, path, run, f);
    case Emit(_, _, _, _) => EmitIsEmitted(w, env, its, b, path, run, f);
    case If(_, _, _, _) => IfIsEmitted(w, env, its, b, path, run, f);
    case ForEach(_, _, _, _) => ForEachIsEmitted(w, env, its, b, path, run, f);
  }

  lemma {:induction false} GroupIsEmitted(w: World, env: Env, its: seq<Iteration>, b: Block, path: string, run: Run, f: Item)
    requires b.Group?
    ensures InTree(One(w, env, its, b, path, run).items, f) <==> f.Fragment? && InOne(w, env, its, b, path, run, f)
    decreases Left(w, run.core), 2, 0
  {
    var inner := Inner(its, b, path, run);
    var (ok, r) := CountOutput(w, inner);
    var items := One(w, env, its, b, path, run).items;
    if ok {
      AllAreEmitted(w, env, its, b.items, 0, path + ".items", [], r, f);
      var children := All(w, env, its, b.items, 0, path + ".items", [], r).0;
      assert children[0..] == children;
      OneIsBody(w, env, its, b, path, run);
      assert items == [ItemGroup(OccurrenceId(run.ids, b.id, path, its != []).0, b.title, children)];
      assert InTree(items, f) <==> InItem(items[0], f);
      forall p ensures OneEmits(w, env, its, b, path, run, p, f) <==> AllEmit(w, env, its, b.items, 0, path + ".items", r, p, f) { }
    }
  }

  lemma EmitIsEmitted(w: World, env: Env, its: seq<Iteration>, b: Block, path: string, run: Run, f: Item)
    requires b.Emit?
    ensures InTree(One(w, env, its, b, path, run).items, f) <==> f.Fragment? && InOne(w, env, its, b, path, run, f)
  {
    var items := One(w, env, its, b, path, run).items;
    OneIsBody(w, env, its, b, path, run);
    assert items == [] || (|items| == 1 && items[0].Fragment?);
    if InTree(items, f) {
      var k :| 0 <= k < |items| && InItem(items[k], f);
      assert items == [f];
      assert OneEmits(w, env, its, b, path, run, path, f);
    }
    if f.Fragment? && InOne(w, env, its, b, path, run, f) { assert InItem([f][0], f); }
  }

  lemma {:induction false} IfIsEmitted(w: World, env: Env, its: seq<Iteration>, b: Block, path: string, run: Run, f: Item)
    requires b.If?
    ensures InTree(One(w, env, its, b, path, run).items, f) <==> f.Fragment? && InOne(w, env, its, b, path, run, f)
    decreases Left(w, run.core), 2, 0
  {
    var inner := Inner(its, b, path, run);
    var o := Predicate(w, env, b.condition, inner.core);
    if o.r.Ok? {
      var chosen, place, r := if o.r.value then b.yes else b.no, path + (if o.r.value then ".then" else ".else"), inner.(core := o.st);
      AllAreEmitted(w, env, its, chosen, 0, place, [], r, f);
      var items := One(w, env, its, b, path, run).items;
      OneIsBody(w, env, its, b, path, run);
      assert items == All(w, env, its, chosen, 0, place, [], r).0 && items[0..] == items;
      forall p ensures OneEmits(w, env, its, b, path, run, p, f) <==> AllEmit(w, env, its, chosen, 0, place, r, p, f) { }
    }
  }

  lemma {:induction false} ForEachIsEmitted(w: World, env: Env, its: seq<Iteration>, b: Block, path: string, run: Run, f: Item)
    requires b.ForEach?
    ensures InTree(One(w, env, its, b, path, run).items, f) <==> f.Fragment? && InOne(w, env, its, b, path, run, f)
    decreases Left(w, run.core), 2, 0
  {
    var inner := Inner(its, b, path, run);
    var o := Expression(w, env, b.value, inner.core);
    if o.r.Ok? && Count(w, o.r.value, o.st).r.Ok? {
      var n, r := Count(w, o.r.value, o.st).r.value, inner.(core := o.st);
      LoopIsEmitted(w, env, its, b, o.r.value, n, 0, o.st.used, path, [], r, f);
      var items := One(w, env, its, b, path, run).items;
      OneIsBody(w, env, its, b, path, run);
      assert items == Loop(w, env, its, b, o.r.value, n, 0, o.st.used, path, [], r).0 && items[0..] == items;
      forall p ensures OneEmits(w, env, its, b, path, run, p, f)
        <==> LoopEmits(w, env, its, b, o.r.value, n, 0, o.st.used, path, r, p, f) { }
    }
  }

  lemma {:induction false} LoopIsEmitted(w: World, env: Env, its: seq<Iteration>, b: Block, source: View, n: nat, i: nat,
    sources: set<string>, path: string, done: seq<Item>, run: Run, f: Item)
    requires b.ForEach? && i <= n
    ensures var items := Loop(w, env, its, b, source, n, i, sources, path, done, run).0;
      Extends_(items, done)
      && (InTree(items[|done|..], f) <==> f.Fragment? && InLoop(w, env, its, b, source, n, i, sources, path, run, f))
    decreases Left(w, run.core), 1, n - i
  {
    if i < n {
      var tick := Tick(w, run.core);
      var r := run.(core := tick.st);
      if tick.r.Ok? && |r.trace| < w.limits.maxItems {
        if Index(source, i).None? {
          LoopIsEmitted(w, env, its, b, source, n, i + 1, sources, path, done, r, f);
          SkippedTurn(w, env, its, b, source, n, i, sources, path, run, f);
        } else {
          var v := Index(source, i).value;
          var (xs, r1) := Turn(w, env, its, b, v, i, sources, path, r);
          TurnIsEmitted(w, env, its, b, v, i, sources, path, r, f);
          LoopIsEmitted(w, env, its, b, source, n, i + 1, sources, path, done + xs, r1, f);
          var items := Loop(w, env, its, b, source, n, i + 1, sources, path, done + xs, r1).0;
          ExtendsMore(items, done, xs);
          InTreeAdds(xs, items[|done + xs|..], f);
          EitherTurn(w, env, its, b, source, n, i, sources, path, run, f);
        }
      }
    }
  }

  lemma SkippedTurn(w: World, env: Env, its: seq<Iteration>, b: Block, source: View, n: nat, i: nat,
    sources: set<string>, path: string, run: Run, f: Item)
    requires b.ForEach? && i < n && Tick(w, run.core).r.Ok? && |run.trace| < w.limits.maxItems && Index(source, i).None?
    ensures InLoop(w, env, its, b, source, n, i, sources, path, run, f)
      <==> InLoop(w, env, its, b, source, n, i + 1, sources, path, run.(core := Tick(w, run.core).st), f)
  {
    var r := run.(core := Tick(w, run.core).st);
    forall p ensures LoopEmits(w, env, its, b, source, n, i, sources, path, run, p, f)
      <==> LoopEmits(w, env, its, b, source, n, i + 1, sources, path, r, p, f) { }
    if InLoop(w, env, its, b, source, n, i + 1, sources, path, r, f) {
      var p :| LoopEmits(w, env, its, b, source, n, i + 1, sources, path, r, p, f);
      assert LoopEmits(w, env, its, b, source, n, i, sources, path, run, p, f);
    }
  }

  ghost predicate InTurn(w: World, env: Env, its: seq<Iteration>, b: Block, i: nat, path: string, run: Run, f: Item)
    requires b.ForEach?
  {
    exists p :: TurnEmits(w, env, its, b, i, path, run, p, f)
  }

  lemma {:induction false} TurnIsEmitted(w: World, env: Env, its: seq<Iteration>, b: Block, v: View, i: nat, sources: set<string>, path: string, run: Run, f: Item)
    requires b.ForEach?
    ensures InTree(Turn(w, env, its, b, v, i, sources, path, run).0, f)
      <==> f.Fragment? && InTurn(w, Bind(env, b.item, v, sources), its + [Iteration(b.id, i)], b, i, path, run, f)
    decreases Left(w, run.core), 2, 0
  {
    var c, j, place := Bind(env, b.item, v, sources), its + [Iteration(b.id, i)], At(path + ".iterations", i) + ".items";
    assert place == path + ".iterations[" + Decimal(i) + "].items";
    AllAreEmitted(w, c, j, b.items, 0, place, [], run, f);
    var items := Turn(w, env, its, b, v, i, sources, path, run).0;
    assert items == All(w, c, j, b.items, 0, place, [], run).0 && items[0..] == items;
    forall p ensures TurnEmits(w, c, j, b, i, path, run, p, f) <==> AllEmit(w, c, j, b.items, 0, place, run, p, f) { }
  }

  /** A loop emits what its next turn or the rest emits. */
  lemma EitherTurn(w: World, env: Env, its: seq<Iteration>, b: Block, source: View, n: nat, i: nat,
    sources: set<string>, path: string, run: Run, f: Item)
    requires b.ForEach? && i < n && Tick(w, run.core).r.Ok? && |run.trace| < w.limits.maxItems && Index(source, i).Some?
    ensures var r, v := run.(core := Tick(w, run.core).st), Index(source, i).value;
      InLoop(w, env, its, b, source, n, i, sources, path, run, f) <==>
        || InTurn(w, Bind(env, b.item, v, sources), its + [Iteration(b.id, i)], b, i, path, r, f)
        || InLoop(w, env, its, b, source, n, i + 1, sources, path, Turn(w, env, its, b, v, i, sources, path, r).1, f)
  {
    var r, v := run.(core := Tick(w, run.core).st), Index(source, i).value;
    var c, j, rest := Bind(env, b.item, v, sources), its + [Iteration(b.id, i)], Turn(w, env, its, b, v, i, sources, path, r).1;
    forall p ensures LoopEmits(w, env, its, b, source, n, i, sources, path, run, p, f) <==>
      TurnEmits(w, c, j, b, i, path, r, p, f) || LoopEmits(w, env, its, b, source, n, i + 1, sources, path, rest, p, f)
    {
    }
    if InTurn(w, c, j, b, i, path, r, f) {
      var p :| TurnEmits(w, c, j, b, i, path, r, p, f);
      assert LoopEmits(w, env, its, b, source, n, i, sources, path, run, p, f);
    }
    if InLoop(w, env, its, b, source, n, i + 1, sources, path, rest, f) {
      var p :| LoopEmits(w, env, its, b, source, n, i + 1, sources, path, rest, p, f);
      assert LoopEmits(w, env, its, b, source, n, i, sources, path, run, p, f);
    }
  }

  // ----- Paths lead to one place -----

  /** The block of the list that emits at `p`. */
  lemma {:induction false} EmittingBlock(w: World, env: Env, its: seq<Iteration>, blocks: seq<Block>, i: nat, path: string, run: Run, p: string, f: Item)
    returns (j: nat, r: Run)
    requires i <= |blocks| && AllEmit(w, env, its, blocks, i, path, run, p, f)
    ensures j < |blocks| && OneEmits(w, env, its, blocks[j], At(path, j), r, p, f)
    decreases |blocks| - i
  {
    r := run.(core := Tick(w, run.core).st);
    if OneEmits(w, env, its, blocks[i], At(path, i), r, p, f) {
      j := i;
    } else {
      j, r := EmittingBlock(w, env, its, blocks, i + 1, path, One(w, env, its, blocks[i], At(path, i), r).run, p, f);
    }
  }

  /** The turn of the loop that emits at `p`. */
  lemma {:induction false} EmittingTurn(w: World, env: Env, its: seq<Iteration>, b: Block, source: View, n: nat, i: nat,
    sources: set<string>, path: string, run: Run, p: string, f: Item) returns (j: nat, r: Run)
    requires b.ForEach? && i <= n && LoopEmits(w, env, its, b, source, n, i, sources, path, run, p, f)
    ensures Index(source, j).Some?
    ensures TurnEmits(w, Bind(env, b.item, Index(source, j).value, sources), its + [Iteration(b.id, j)], b, j, path, r, p, f)
    decreases n - i
  {
    r := run.(core := Tick(w, run.core).st);
    if Index(source, i).None? {
      j, r := EmittingTurn(w, env, its, b, source, n, i + 1, sources, path, r, p, f);
    } else {
      var v := Index(source, i).value;
      if TurnEmits(w, Bind(env, b.item, v, sources), its + [Iteration(b.id, i)], b, i, path, r, p, f) {
        j := i;
      } else {
        j, r := EmittingTurn(w, env, its, b, source, n, i + 1, sources, path, Turn(w, env, its, b, v, i, sources, path, r).1, p, f);
      }
    }
  }

  /** A list emits below one of its positions. */
  lemma {:induction false} ListBelow(w: World, env: Env, its: seq<Iteration>, blocks: seq<Block>, path: string, run: Run, p: string, f: Item)
    requires AllEmit(w, env, its, blocks, 0, path, run, p, f)
    ensures path <= p
    decreases blocks
  {
    var j, r := EmittingBlock(w, env, its, blocks, 0, path, run, p, f);
    BlockBelow(w, env, its, blocks[j], At(path, j), r, p, f);
    PrefixTwice(path, At(path, j), p);
  }

  /** A block emits at its path or below it. */
  lemma {:induction false} BlockBelow(w: World, env: Env, its: seq<Iteration>, b: Block, path: string, run: Run, p: string, f: Item)
    requires OneEmits(w, env, its, b, path, run, p, f)
    ensures path <= p
    decreases b
  {
    var inner := Inner(its, b, path, run);
    match b
    case Group(_, _, items) =>
      ListBelow(w, env, its, items, path + ".items", CountOutput(w, inner).1, p, f);
      PrefixTwice(path, path + ".items", p);
    case Emit(_, _, _, _) =>
    case If(_, condition, yes, no) =>
      var o := Predicate(w, env, condition, inner.core);
      var place := path + (if o.r.value then ".then" else ".else");
      ListBelow(w, env, its, if o.r.value then yes else no, place, inner.(core := o.st), p, f);
      PrefixTwice(path, place, p);
    case ForEach(_, value, _, items) =>
      var o := Expression(w, env, value, inner.core);
      var j, r := EmittingTurn(w, env, its, b, o.r.value, Count(w, o.r.value, o.st).r.value, 0, o.st.used, path, inner.(core := o.st), p, f);
      TurnBelow(w, Bind(env, b.item, Index(o.r.value, j).value, o.st.used), its + [Iteration(b.id, j)], b, j, path, r, p, f);
      PrefixTwice(path, At(path + ".iterations", j), p);
  }

  lemma {:induction false} TurnBelow(w: World, env: Env, its: seq<Iteration>, b: Block, i: nat, path: string, run: Run, p: string, f: Item)
    requires b.ForEach? && TurnEmits(w, env, its, b, i, path, run, p, f)
    ensures At(path + ".iterations", i) <= p
    decreases b, 0
  {
    var place := At(path + ".iterations", i) + ".items";
    ListBelow(w, env, its, b.items, place, run, p, f);
    PrefixTwice(At(path + ".iterations", i), place, p);
  }

  // ----- Two evaluations -----

  predicate Alike(f: Item, g: Item) {
    f.Fragment? && g.Fragment? && f.role == g.role && f.format == g.format && f.value == g.value && f.sources == g.sources
  }

  /** Environments and worlds in which what is emitted can be compared. */
  ghost predicate Related(w: World, v: World, a: Env, b: Env, f: Item) {
    Twin(w, v) && Kin(w, v, a, b) && f.Fragment? && Agree(w, v, f.sources)
  }

  lemma {:induction false} ListsAlike(w: World, v: World, a: Env, b: Env, its: seq<Iteration>, blocks: seq<Block>, path: string,
    run: Run, other: Run, p: string, f: Item, g: Item)
    requires Related(w, v, a, b, f) && AllEmit(w, a, its, blocks, 0, path, run, p, f) && AllEmit(v, b, its, blocks, 0, path, other, p, g)
    ensures Alike(f, g)
    decreases blocks
  {
    var j, r := EmittingBlock(w, a, its, blocks, 0, path, run, p, f);
    var k, s := EmittingBlock(v, b, its, blocks, 0, path, other, p, g);
    BlockBelow(w, a, its, blocks[j], At(path, j), r, p, f);
    BlockBelow(v, b, its, blocks[k], At(path, k), s, p, g);
    OnePosition(path, j, k, p);
    BlocksAlike(w, v, a, b, its, blocks[j], At(path, j), r, s, p, f, g);
  }

  lemma {:induction false} BlocksAlike(w: World, v: World, a: Env, b: Env, its: seq<Iteration>, block: Block, path: string,
    run: Run, other: Run, p: string, f: Item, g: Item)
    requires Related(w, v, a, b, f) && OneEmits(w, a, its, block, path, run, p, f) && OneEmits(v, b, its, block, path, other, p, g)
    ensures Alike(f, g)
    decreases block
  {
    match block
    case Group(_, _, items) =>
      ListsAlike(w, v, a, b, its, items, path + ".items",
        CountOutput(w, Inner(its, block, path, run)).1, CountOutput(v, Inner(its, block, path, other)).1, p, f, g);
    case Emit(_, _, _, _) => FragmentDependsOnSources(w, v, a, b, its, block, path, run, other);
    case If(_, _, _, _) => BranchesAlike(w, v, a, b, its, block, path, run, other, p, f, g);
    case ForEach(_, _, _, _) => LoopsAlike(w, v, a, b, its, block, path, run, other, p, f, g);
  }

  lemma OneBranch(path: string, x: bool, y: bool, p: string)
    requires path + (if x then ".then" else ".else") <= p && path + (if y then ".then" else ".else") <= p
    ensures x == y
  {
    var s, t, n := path + (if x then ".then" else ".else"), path + (if y then ".then" else ".else"), |path| + 1;
    assert s[n] == p[n] && t[n] == p[n] && s[n] == (if x then 't' else 'e') && t[n] == (if y then 't' else 'e');
  }

  /** The same path leads through the same branch. */
  lemma {:induction false} BranchesAlike(w: World, v: World, a: Env, b: Env, its: seq<Iteration>, block: Block, path: string,
    run: Run, other: Run, p: string, f: Item, g: Item)
    requires block.If? && Related(w, v, a, b, f)
    requires OneEmits(w, a, its, block, path, run, p, f) && OneEmits(v, b, its, block, path, other, p, g)
    ensures Alike(f, g)
    decreases block, 0
  {
    var r, s := Inner(its, block, path, run), Inner(its, block, path, other);
    var x, y := Predicate(w, a, block.condition, r.core), Predicate(v, b, block.condition, s.core);
    var chosen, taken := if x.r.value then block.yes else block.no, if y.r.value then block.yes else block.no;
    var place, there := path + (if x.r.value then ".then" else ".else"), path + (if y.r.value then ".then" else ".else");
    ListBelow(w, a, its, chosen, place, r.(core := x.st), p, f);
    ListBelow(v, b, its, taken, there, s.(core := y.st), p, g);
    OneBranch(path, x.r.value, y.r.value, p);
    ListsAlike(w, v, a, b, its, chosen, place, r.(core := x.st), s.(core := y.st), p, f, g);
  }

  /** The same path leads through the same turn, whose variable its sources determine. */
  lemma {:induction false} LoopsAlike(w: World, v: World, a: Env, b: Env, its: seq<Iteration>, block: Block, path: string,
    run: Run, other: Run, p: string, f: Item, g: Item)
    requires block.ForEach? && Related(w, v, a, b, f)
    requires OneEmits(w, a, its, block, path, run, p, f) && OneEmits(v, b, its, block, path, other, p, g)
    ensures Alike(f, g)
    decreases block, 0
  {
    var r, s := Inner(its, block, path, run), Inner(its, block, path, other);
    var x, y := Expression(w, a, block.value, r.core), Expression(v, b, block.value, s.core);
    var i, q := EmittingTurn(w, a, its, block, x.r.value, Count(w, x.r.value, x.st).r.value, 0, x.st.used, path, r.(core := x.st), p, f);
    var k, t := EmittingTurn(v, b, its, block, y.r.value, Count(v, y.r.value, y.st).r.value, 0, y.st.used, path, s.(core := y.st), p, g);
    var c, d := Bind(a, block.item, Index(x.r.value, i).value, x.st.used), Bind(b, block.item, Index(y.r.value, k).value, y.st.used);
    TurnBelow(w, c, its + [Iteration(block.id, i)], block, i, path, q, p, f);
    TurnBelow(v, d, its + [Iteration(block.id, k)], block, k, path, t, p, g);
    OnePosition(path + ".iterations", i, k, p);
    TurnsStayKin(w, v, a, b, block, i, r.core, s.core);
    ListsAlike(w, v, c, d, its + [Iteration(block.id, i)], block.items, At(path + ".iterations", i) + ".items", q, t, p, f, g);
  }

  // ----- Whole evaluations -----

  /** The evaluation of the program emits `f` at the path `p`. */
  ghost predicate EmitsAt(w: World, program: seq<Block>, p: string, f: Item) {
    AllEmit(w, Env(map[], map[]), [], program, 0, "program", Start(program), p, f)
  }

  function Start(program: seq<Block>): Run {
    Run(EMPTY, map[], 0, 0, set i | 0 <= i < |BlockIds(program)| :: BlockIds(program)[i], [])
  }

  /** Every fragment of a result was emitted at some path, and nothing else was. In another world, at the
      same path, stands the same value with the same sources, role and format, if the worlds agree on
      the sources of the fragment. */
  lemma SourcesDetermineFragments(w: World, v: World, program: seq<Block>, p: string, f: Item, g: Item)
    ensures InTree(Evaluation_(w, program).items, f) <==> f.Fragment? && exists q :: EmitsAt(w, program, q, f)
    ensures Twin(w, v) && EmitsAt(w, program, p, f) && EmitsAt(v, program, p, g) && f.Fragment? && Agree(w, v, f.sources) ==> Alike(f, g)
  {
    var env := Env(map[], map[]);
    AllAreEmitted(w, env, [], program, 0, "program", [], Start(program), f);
    var items := Evaluation_(w, program).items;
    assert items == All(w, env, [], program, 0, "program", [], Start(program)).0 && items[0..] == items;
    forall q ensures EmitsAt(w, program, q, f) <==> AllEmit(w, env, [], program, 0, "program", Start(program), q, f) { }
    if Twin(w, v) && EmitsAt(w, program, p, f) && EmitsAt(v, program, p, g) && f.Fragment? && Agree(w, v, f.sources) {
      ListsAlike(w, v, env, env, [], program, "program", Start(program), Start(program), p, f, g);
    }
  }
}
