/** What every evaluation keeps about its output: budgets, exact counts and distinct identifiers. */
module Outputs {
  import opened Base
  import opened Pointers
  import opened Views
  import opened Syntax
  import opened Acceptance
  import opened Evaluation
  import opened Blocks

  // ----- Counting -----

  function Nodes_(items: seq<Item>): nat {
    if items == [] then 0 else Nodes_(items[..|items| - 1]) + ItemNodes(items[|items| - 1])
  }

  function ItemNodes(x: Item): nat {
    match x
    case ItemGroup(_, _, items) => 1 + Nodes_(items)
    case Fragment(_, _, _, _, _) => 1
  }

  function Weight(items: seq<Item>, encode: Json -> string): nat {
    if items == [] then 0 else Weight(items[..|items| - 1], encode) + ItemWeight(items[|items| - 1], encode)
  }

  function ItemWeight(x: Item, encode: Json -> string): nat {
    match x
    case ItemGroup(_, _, items) => Weight(items, encode)
    case Fragment(_, _, _, value, _) => MeasuredBytes(value, encode)
  }

  lemma {:induction false} CountsAdd(xs: seq<Item>, ys: seq<Item>, encode: Json -> string)
    ensures Nodes_(xs + ys) == Nodes_(xs) + Nodes_(ys) && Weight(xs + ys, encode) == Weight(xs, encode) + Weight(ys, encode)
  {
    if ys == [] {
      assert xs + ys == xs;
    } else {
      var n := |ys| - 1;
      CountsAdd(xs, ys[..n], encode);
      assert (xs + ys)[..|xs + ys| - 1] == xs + ys[..n];
    }
  }

  predicate RunInBudget(w: World, run: Run) {
    && InBudget(w, run.core) && run.outputBytes <= w.limits.maxBytes
    && run.outputItems <= w.limits.maxItems && |run.trace| <= w.limits.maxItems
  }

  /** From `a` to `b` the items `xs` were added: the counters grew by exactly their size. */
  predicate Counted(w: World, a: Run, b: Run, xs: seq<Item>) {
    && b.outputItems == a.outputItems + Nodes_(xs) && b.outputBytes == a.outputBytes + Weight(xs, w.encode)
    && (RunInBudget(w, a) ==> RunInBudget(w, b))
  }

  lemma CountedTwice(w: World, a: Run, b: Run, c: Run, xs: seq<Item>, ys: seq<Item>)
    requires Counted(w, a, b, xs) && Counted(w, b, c, ys)
    ensures Counted(w, a, c, xs + ys)
  {
    CountsAdd(xs, ys, w.encode);
  }

  /** Everything after the first `|done|` items is new. */
  predicate Extends_(items: seq<Item>, done: seq<Item>) {
    |done| <= |items| && items[..|done|] == done
  }

  lemma ExtendsMore(items: seq<Item>, done: seq<Item>, xs: seq<Item>)
    requires Extends_(items, done + xs)
    ensures Extends_(items, done) && items[|done|..] == xs + items[|done + xs|..]
  {
    assert items[..|done|] == items[..|done + xs|][..|done|];
    assert items == (done + xs) + items[|done + xs|..];
  }

  lemma {:induction false} AllCounted(w: World, env: Env, its: seq<Iteration>, blocks: seq<Block>, i: nat, path: string, done: seq<Item>, run: Run)
    requires i <= |blocks|
    ensures var (items, r) := All(w, env, its, blocks, i, path, done, run);
      Extends_(items, done) && Counted(w, run, r, items[|done|..])
    decreases Left(w, run.core), 1, |blocks| - i
  {
    if i < |blocks| {
      var tick := Tick(w, run.core);
      var r := run.(core := tick.st);
      if tick.r.Ok? && |r.trace| < w.limits.maxItems {
        var b := One(w, env, its, blocks[i], At(path, i), r);
        OneCounted(w, env, its, blocks[i], At(path, i), r);
        AllCounted(w, env, its, blocks, i + 1, path, done + b.items, b.run);
        var (items, last) := All(w, env, its, blocks, i + 1, path, done + b.items, b.run);
        ExtendsMore(items, done, b.items);
        CountedTwice(w, r, b.run, last, b.items, items[|done + b.items|..]);
      }
    }
  }

  lemma {:induction false} OneCounted(w: World, env: Env, its: seq<Iteration>, b: Block, path: string, run: Run)
    ensures var r := One(w, env, its, b, path, run); Counted(w, run, r.run, r.items)
    decreases Left(w, run.core), 3, 0
  {
    var (id, ids) := OccurrenceId(run.ids, b.id, path, its != []);
    BodyCounted(w, env, its, b, id, path, run.(ids := ids, core := run.core.(used := {})));
  }

  lemma {:induction false} BodyCounted(w: World, env: Env, its: seq<Iteration>, b: Block, id: string, path: string, run: Run)
    ensures var r := Body(w, env, its, b, id, path, run); Counted(w, run, r.run, r.items)
    decreases Left(w, run.core), 2, 1
  {
    match b
    case Group(_, _, _) => GroupCounted(w, env, its, b, id, path, run);
    case Emit(_, _, _, _) => EmitCounted(w, env, its, b, id, path, run);
    case If(_, _, _, _) => IfCounted(w, env, its, b, id, path, run);
    case ForEach(_, _, _, _) => ForEachCounted(w, env, its, b, id, path, run);
  }

  lemma {:induction false} GroupCounted(w: World, env: Env, its: seq<Iteration>, b: Block, id: string, path: string, run: Run)
    requires b.Group?
    ensures var r := Body(w, env, its, b, id, path, run); Counted(w, run, r.run, r.items)
    decreases Left(w, run.core), 2, 0
  {
    var (ok, r) := CountOutput(w, run);
    if ok {
      AllCounted(w, env, its, b.items, 0, path + ".items", [], r);
      var (children, last) := All(w, env, its, b.items, 0, path + ".items", [], r);
      assert children[0..] == children;
      assert [ItemGroup(id, b.title, children)][..0] == [];
    }
  }

  lemma EmitCounted(w: World, env: Env, its: seq<Iteration>, b: Block, id: string, path: string, run: Run)
    requires b.Emit?
    ensures var r := Body(w, env, its, b, id, path, run); Counted(w, run, r.run, r.items)
  {
    var o := Expression(w, env, b.value, run.core);
    if o.r.Ok? { OutputCounted(w, b, id, o.r.value, run.(core := o.st)); }
  }

  lemma {:induction false} IfCounted(w: World, env: Env, its: seq<Iteration>, b: Block, id: string, path: string, run: Run)
    requires b.If?
    ensures var r := Body(w, env, its, b, id, path, run); Counted(w, run, r.run, r.items)
    decreases Left(w, run.core), 2, 0
  {
    var o := Predicate(w, env, b.condition, run.core);
    if o.r.Ok? {
      AllCounted(w, env, its, if o.r.value then b.yes else b.no, 0, path + (if o.r.value then ".then" else ".else"), [], run.(core := o.st));
    }
  }

  lemma {:induction false} ForEachCounted(w: World, env: Env, its: seq<Iteration>, b: Block, id: string, path: string, run: Run)
    requires b.ForEach?
    ensures var r := Body(w, env, its, b, id, path, run); Counted(w, run, r.run, r.items)
    decreases Left(w, run.core), 2, 0
  {
    var o := Expression(w, env, b.value, run.core);
    if o.r.Ok? {
      var n := Count(w, o.r.value, o.st);
      if n.r.Ok? { LoopCounted(w, env, its, b, o.r.value, n.r.value, 0, o.st.used, path, [], run.(core := o.st)); }
    }
  }

  lemma OutputCounted(w: World, b: Block, id: string, v: View, run: Run)
    requires b.Emit?
    ensures var r := Output(w, b, id, v, run); Counted(w, run, r.run, r.items)
  {
    var r := Output(w, b, id, v, run);
    if r.items != [] { assert r.items[..0] == []; }
  }

  lemma {:induction false} LoopCounted(w: World, env: Env, its: seq<Iteration>, b: Block, source: View, n: nat, i: nat,
    sources: set<string>, path: string, done: seq<Item>, run: Run)
    requires b.ForEach? && i <= n
    ensures var (items, r) := Loop(w, env, its, b, source, n, i, sources, path, done, run);
      Extends_(items, done) && Counted(w, run, r, items[|done|..])
    decreases Left(w, run.core), 1, n - i
  {
    if i < n {
      var tick := Tick(w, run.core);
      var r := run.(core := tick.st);
      if tick.r.Ok? && |r.trace| < w.limits.maxItems {
        var x := Index(source, i);
        if x.None? {
          LoopCounted(w, env, its, b, source, n, i + 1, sources, path, done, r);
        } else {
          var (xs, r1) := Turn(w, env, its, b, x.value, i, sources, path, r);
          AllCounted(w, Bind(env, b.item, x.value, sources), its + [Iteration(b.id, i)], b.items, 0,
            path + ".iterations[" + Decimal(i) + "].items", [], r);
          LoopCounted(w, env, its, b, source, n, i + 1, sources, path, done + xs, r1);
          var (items, last) := Loop(w, env, its, b, source, n, i + 1, sources, path, done + xs, r1);
          ExtendsMore(items, done, xs);
          CountedTwice(w, r, r1, last, xs, items[|done + xs|..]);
        }
      }
    }
  }

  // ----- Identifiers -----

  /** Identifiers of a result tree in document order. */
  function Ids(items: seq<Item>): seq<string> {
    if items == [] then [] else ItemIdsOf(items[0]) + Ids(items[1..])
  }

  function ItemIdsOf(x: Item): seq<string> {
    match x
    case ItemGroup(id, _, items) => [id] + Ids(items)
    case Fragment(id, _, _, _, _) => [id]
  }

  lemma {:induction false} IdsAdd(xs: seq<Item>, ys: seq<Item>)
    ensures Ids(xs + ys) == Ids(xs) + Ids(ys)
  {
    if xs == [] {
      assert xs + ys == ys;
    } else {
      IdsAdd(xs[1..], ys);
      assert (xs + ys)[1..] == xs[1..] + ys && (xs + ys)[0] == xs[0];
      assert ItemIdsOf(xs[0]) + (Ids(xs[1..]) + Ids(ys)) == ItemIdsOf(xs[0]) + Ids(xs[1..]) + Ids(ys);
    }
  }

  /** `new` are distinct and reserved in `b`, and each is either fresh since `a` or one of `authored`. */
  ghost predicate Labelled(new_: seq<string>, a: set<string>, b: set<string>, authored: seq<string>) {
    && Distinct(new_) && a <= b
    && forall k | 0 <= k < |new_| :: new_[k] in b && (new_[k] !in a || new_[k] in authored)
  }

  /** Authored identifiers are reserved and distinct; inside a loop none are used as such. */
  ghost predicate Reserved(authored: seq<string>, a: set<string>) {
    Distinct(authored) && forall k | 0 <= k < |authored| :: authored[k] in a
  }

  lemma NotBoth(p: seq<string>, q: seq<string>, a: set<string>, u: string)
    requires Reserved(p + q, a) && u in p
    ensures u !in q
  {
    var l :| 0 <= l < |p| && p[l] == u;
    assert (p + q)[l] == u;
    forall m | 0 <= m < |q| ensures q[m] != u { assert (p + q)[|p| + m] == q[m]; }
  }

  lemma LabelledTwice(x: seq<string>, y: seq<string>, a: set<string>, b: set<string>, c: set<string>, p: seq<string>, q: seq<string>)
    requires Labelled(x, a, b, p) && Labelled(y, b, c, q) && Reserved(p + q, a)
    ensures Labelled(x + y, a, c, p + q)
  {
    var z := x + y;
    forall m | 0 <= m < |q| ensures q[m] in a { assert (p + q)[|p| + m] == q[m]; }
    forall i, j | 0 <= i < j < |z| ensures z[i] != z[j] {
      if i < |x| <= j {
        var u, v := x[i], y[j - |x|];
        if u in p { NotBoth(p, q, a, u); }
        assert v in q ==> v in a;
      }
    }
    forall k | 0 <= k < |z| ensures z[k] in c && (z[k] !in a || z[k] in p + q) {
      if k < |x| { assert x[k] in b; }
    }
  }

  lemma ReservedPart(p: seq<string>, q: seq<string>, a: set<string>, b: set<string>)
    requires Reserved(p + q, a) && a <= b
    ensures Reserved(p, b) && Reserved(q, b) && Reserved(p + q, b)
  {
    var all := p + q;
    assert forall k | 0 <= k < |p| :: p[k] == all[k];
    assert forall k | 0 <= k < |q| :: q[k] == all[k + |p|];
  }

  /** The identifiers that blocks may use as they are: all of them outside loops, none inside. */
  function Own(its: seq<Iteration>, ids: seq<string>): seq<string> {
    if its == [] then ids else []
  }

  lemma {:induction false} AllLabelled(w: World, env: Env, its: seq<Iteration>, blocks: seq<Block>, i: nat, path: string, done: seq<Item>, run: Run)
    requires i <= |blocks| && Reserved(Own(its, BlockIds(blocks[i..])), run.ids)
    ensures var (items, r) := All(w, env, its, blocks, i, path, done, run);
      Extends_(items, done) && Labelled(Ids(items[|done|..]), run.ids, r.ids, Own(its, BlockIds(blocks[i..])))
    decreases Left(w, run.core), 1, |blocks| - i
  {
    if i < |blocks| {
      var tick := Tick(w, run.core);
      var r := run.(core := tick.st);
      if tick.r.Ok? && |r.trace| < w.limits.maxItems {
        var b := One(w, env, its, blocks[i], At(path, i), r);
        var head, tail := Own(its, [blocks[i].id] + ChildIds(blocks[i])), Own(its, BlockIds(blocks[i + 1..]));
        assert blocks[i..][1..] == blocks[i + 1..];
        assert Own(its, BlockIds(blocks[i..])) == head + tail;
        ReservedPart(head, tail, run.ids, run.ids);
        OneLabelled(w, env, its, blocks[i], At(path, i), r);
        ReservedPart(head, tail, run.ids, b.run.ids);
        AllLabelled(w, env, its, blocks, i + 1, path, done + b.items, b.run);
        var (items, last) := All(w, env, its, blocks, i + 1, path, done + b.items, b.run);
        ExtendsMore(items, done, b.items);
        IdsAdd(b.items, items[|done + b.items|..]);
        LabelledTwice(Ids(b.items), Ids(items[|done + b.items|..]), run.ids, b.run.ids, last.ids, head, tail);
      }
    }
  }

  lemma {:induction false} OneLabelled(w: World, env: Env, its: seq<Iteration>, b: Block, path: string, run: Run)
    requires Reserved(Own(its, [b.id] + ChildIds(b)), run.ids)
    ensures var r := One(w, env, its, b, path, run);
      Labelled(Ids(r.items), run.ids, r.run.ids, Own(its, [b.id] + ChildIds(b)))
    decreases Left(w, run.core), 3, 0
  {
    var (id, ids) := OccurrenceId(run.ids, b.id, path, its != []);
    var inner := run.(ids := ids, core := run.core.(used := {}));
    var own, rest := Own(its, [b.id]), Own(its, ChildIds(b));
    assert Own(its, [b.id] + ChildIds(b)) == own + rest;
    OwnLabelled(run.ids, b.id, path, its, rest);
    ReservedPart(own, rest, run.ids, ids);
    BodyLabelled(w, env, its, b, id, path, inner);
    var r := Body(w, env, its, b, id, path, inner);
    LabelledTail(Ids(r.items), id, run.ids, ids, r.run.ids, own, rest);
  }

  /** A block's own identifier is fresh, or authored and reserved. */
  lemma OwnLabelled(ids: set<string>, blockId: string, path: string, its: seq<Iteration>, rest: seq<string>)
    requires Reserved(Own(its, [blockId]) + rest, ids)
    ensures var (id, after) := OccurrenceId(ids, blockId, path, its != []);
      Labelled([id], ids, after, Own(its, [blockId])) && ids <= after
  {
    if its == [] { assert (Own(its, [blockId]) + rest)[0] == blockId; }
  }

  /** A body's items carry the block's identifier, if any, and otherwise those of its children. */
  ghost predicate BodyLabels(ids: seq<string>, id: string, a: set<string>, b: set<string>, rest: seq<string>) {
    a <= b && exists child :: Labelled(child, a, b, rest) && (ids == child || ids == [id] + child)
  }

  /** The block's own identifier, or not, followed by those of its children. */
  lemma LabelledTail(new_: seq<string>, id: string, a: set<string>, b: set<string>, c: set<string>, own: seq<string>, rest: seq<string>)
    requires Labelled([id], a, b, own) && Reserved(own + rest, a)
    requires BodyLabels(new_, id, b, c, rest)
    ensures Labelled(new_, a, c, own + rest)
  {
    var child :| Labelled(child, b, c, rest) && (new_ == child || new_ == [id] + child);
    LabelledTwice([id], child, a, b, c, own, rest);
    var both := [id] + child;
    assert forall k | 0 <= k < |child| :: child[k] == both[k + 1];
  }

  lemma {:induction false} BodyLabelled(w: World, env: Env, its: seq<Iteration>, b: Block, id: string, path: string, run: Run)
    requires Reserved(Own(its, ChildIds(b)), run.ids)
    ensures var r := Body(w, env, its, b, id, path, run);
      BodyLabels(Ids(r.items), id, run.ids, r.run.ids, Own(its, ChildIds(b)))
    decreases Left(w, run.core), 2, 1
  {
    var rest := Own(its, ChildIds(b));
    var result := Body(w, env, its, b, id, path, run);
    assert Labelled([], run.ids, run.ids, rest);
    match b
    case Group(_, title, items) =>
      var (ok, r) := CountOutput(w, run);
      if ok {
        assert items[0..] == items;
        AllLabelled(w, env, its, items, 0, path + ".items", [], r);
        var (children, last) := All(w, env, its, items, 0, path + ".items", [], r);
        assert children[0..] == children;
        assert result.items[1..] == [];
        assert Ids(result.items) == [id] + Ids(children);
      }
    case Emit(_, _, _, value) =>
      var o := Expression(w, env, value, run.core);
      if o.r.Ok? && result.items != [] {
        assert result.items[1..] == [];
        assert Ids(result.items) == [id] + [];
      }
    case If(_, condition, yes, no) => IfLabelled(w, env, its, b, id, path, run);
    case ForEach(_, value, _, items) =>
      var o := Expression(w, env, value, run.core);
      if o.r.Ok? {
        var n := Count(w, o.r.value, o.st);
        if n.r.Ok? {
          LoopLabelled(w, env, its, b, o.r.value, n.r.value, 0, o.st.used, path, [], run.(core := o.st));
          assert result.items[0..] == result.items;
          Widened(Ids(result.items), run.ids, result.run.ids, rest);
        }
      }
  }

  lemma Widened(ids: seq<string>, a: set<string>, b: set<string>, rest: seq<string>)
    requires Labelled(ids, a, b, [])
    ensures Labelled(ids, a, b, rest)
  {
  }

  lemma {:induction false} IfLabelled(w: World, env: Env, its: seq<Iteration>, b: Block, id: string, path: string, run: Run)
    requires b.If? && Reserved(Own(its, ChildIds(b)), run.ids)
    ensures var r := Body(w, env, its, b, id, path, run);
      BodyLabels(Ids(r.items), id, run.ids, r.run.ids, Own(its, ChildIds(b)))
    decreases Left(w, run.core), 2, 0
  {
    var rest := Own(its, ChildIds(b));
    assert Labelled([], run.ids, run.ids, rest);
    var o := Predicate(w, env, b.condition, run.core);
    if o.r.Ok? {
      var chosen := if o.r.value then b.yes else b.no;
      var p, q := Own(its, BlockIds(b.yes)), Own(its, BlockIds(b.no));
      assert rest == p + q;
      ReservedPart(p, q, run.ids, run.ids);
      assert chosen[0..] == chosen;
      AllLabelled(w, env, its, chosen, 0, path + (if o.r.value then ".then" else ".else"), [], run.(core := o.st));
      var r := Body(w, env, its, b, id, path, run);
      assert r.items[0..] == r.items;
      LabelledHalf(Ids(r.items), run.ids, r.run.ids, p, q);
    }
  }

  lemma LabelledHalf(ids: seq<string>, a: set<string>, b: set<string>, p: seq<string>, q: seq<string>)
    requires Labelled(ids, a, b, p) || Labelled(ids, a, b, q)
    ensures Labelled(ids, a, b, p + q)
  {
  }

  lemma {:induction false} LoopLabelled(w: World, env: Env, its: seq<Iteration>, b: Block, source: View, n: nat, i: nat,
    sources: set<string>, path: string, done: seq<Item>, run: Run)
    requires b.ForEach? && i <= n
    ensures var (items, r) := Loop(w, env, its, b, source, n, i, sources, path, done, run);
      Extends_(items, done) && Labelled(Ids(items[|done|..]), run.ids, r.ids, [])
    decreases Left(w, run.core), 1, n - i
  {
    if i < n {
      var tick := Tick(w, run.core);
      var r := run.(core := tick.st);
      if tick.r.Ok? && |r.trace| < w.limits.maxItems {
        var x := Index(source, i);
        if x.None? {
          LoopLabelled(w, env, its, b, source, n, i + 1, sources, path, done, r);
        } else {
          var (xs, r1) := Turn(w, env, its, b, x.value, i, sources, path, r);
          TurnLabelled(w, env, its, b, x.value, i, sources, path, r);
          LoopLabelled(w, env, its, b, source, n, i + 1, sources, path, done + xs, r1);
          var (items, last) := Loop(w, env, its, b, source, n, i + 1, sources, path, done + xs, r1);
          LabelledNext(items, done, xs, run.ids, r1.ids, last.ids);
        }
      }
    }
  }

  lemma {:induction false} TurnLabelled(w: World, env: Env, its: seq<Iteration>, b: Block, v: View, i: nat,
    sources: set<string>, path: string, run: Run)
    requires b.ForEach?
    ensures var (xs, r) := Turn(w, env, its, b, v, i, sources, path, run); Labelled(Ids(xs), run.ids, r.ids, [])
    decreases Left(w, run.core), 2, 0
  {
    AllLabelled(w, Bind(env, b.item, v, sources), its + [Iteration(b.id, i)], b.items, 0,
      path + ".iterations[" + Decimal(i) + "].items", [], run);
    var (xs, r) := Turn(w, env, its, b, v, i, sources, path, run);
    assert xs[0..] == xs;
  }

  /** The identifiers of one turn followed by those of the others. */
  lemma LabelledNext(items: seq<Item>, done: seq<Item>, xs: seq<Item>, a: set<string>, b: set<string>, c: set<string>)
    requires Extends_(items, done + xs) && Labelled(Ids(xs), a, b, []) && Labelled(Ids(items[|done + xs|..]), b, c, [])
    ensures Extends_(items, done) && Labelled(Ids(items[|done|..]), a, c, [])
  {
    ExtendsMore(items, done, xs);
    IdsAdd(xs, items[|done + xs|..]);
    var none: seq<string> := [];
    assert none + none == none;
    LabelledTwice(Ids(xs), Ids(items[|done + xs|..]), a, b, c, none, none);
  }

  /** Every evaluation stays within all its budgets, its counters are the size of its result, and all
      identifiers of the result are distinct. */
  lemma OutputIsAccounted(w: World, program: seq<Block>)
    requires Distinct(BlockIds(program))
    ensures var ev := Evaluation_(w, program);
      && RunInBudget(w, ev.run)
      && ev.run.outputItems == Nodes_(ev.items) && ev.run.outputBytes == Weight(ev.items, w.encode)
      && Distinct(Ids(ev.items))
  {
    var ids := set i | 0 <= i < |BlockIds(program)| :: BlockIds(program)[i];
    var run := Run(EMPTY, map[], 0, 0, ids, []);
    assert program[0..] == program;
    AllCounted(w, Env(map[], map[]), [], program, 0, "program", [], run);
    AllLabelled(w, Env(map[], map[]), [], program, 0, "program", [], run);
    var ev := Evaluation_(w, program);
    assert ev.items[0..] == ev.items;
  }
}
