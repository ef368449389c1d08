/** Acceptance of a whole strategy: what `validate_strategy_with_library` establishes
    (rust/crates/zf-context/src/context.rs, `check`). */
module Acceptance {
  import opened Base
  import opened Types
  import opened Syntax
  import opened Typing
  import opened Checker
  import opened CheckerSound

  const CONTEXT_VERSION := 1
  const EXPLICIT_CONTEXT_VERSION := 2

  /** Authored and external types may share a name only with the same definition. */
  predicate Mergeable(strategy: Strategy, external: Registry) {
    forall n | n in strategy.types && n in external :: external[n] == strategy.types[n]
  }

  function Link(strategy: Strategy, external: Registry, library: Library): Linked {
    Linked(external + strategy.types, strategy.requirements, library)
  }

  /** Whether the strategy's header must be reported. */
  ghost predicate Misstated(g: Linked, s: Strategy) {
    || (s.version != CONTEXT_VERSION && s.version != EXPLICIT_CONTEXT_VERSION)
    || !ValidId(s.id) || Blank(s.name)
    || (exists n :: n in s.types && (Blank(n) || !TypeOk(s.types[n], g.types)))
    || (exists n :: n in s.requirements && (Blank(n) || !TypeOk(s.requirements[n], g.types)))
    || (exists i :: 0 <= i < |s.capabilities| && Blank(s.capabilities[i].id))
    || (exists i, j :: 0 <= i < j < |s.capabilities| && s.capabilities[i].id == s.capabilities[j].id)
    || (exists i :: 0 <= i < |s.capabilities|
          && (!TypeOk(s.capabilities[i].input, g.types) || !TypeOk(s.capabilities[i].output, g.types)))
  }

  /** The state after checking the header, every library function in the order `keys`, and the program. */
  ghost function Checked(s: Strategy, external: Registry, library: Library, keys: seq<Key>): State {
    var g := Link(s, external, library);
    var header := State(Misstated(g, s), 0, {}, [], {});
    Blocks(g, map[], s.program, 0, 0, Functions(g, keys, 0, header))
  }

  ghost predicate Accepts_(s: Strategy, external: Registry, library: Library, keys: seq<Key>) {
    Mergeable(s, external) && !Checked(s, external, library, keys).failed
  }

  /** `keys` lists the whole library. */
  ghost predicate Lists(keys: seq<Key>, library: Library) {
    forall k :: k in keys <==> k in library
  }

  predicate Distinct(ids: seq<string>) {
    forall i, j | 0 <= i < j < |ids| :: ids[i] != ids[j]
  }

  /** What an accepted program is: typed, uniquely labelled, over a library without recursion. */
  ghost predicate WellTyped(g: Linked, s: Strategy, order: seq<Key>) {
    && LinkedWf(g) && ValidId(s.id)
    && Ordered(g.library, order) && AllOk(g, order)
    && BlocksOk(g, map[], s.program) && Distinct(BlockIds(s.program))
    && AllWithin(s.program, order)
  }

  // ----- Identifiers -----

  /** `ids` are new, distinct, and all that was added between two states. */
  ghost predicate Added(a: set<string>, b: set<string>, ids: seq<string>) {
    Distinct(ids) && (forall i | 0 <= i < |ids| :: ids[i] !in a) && b == a + set i | 0 <= i < |ids| :: ids[i]
  }

  lemma AddedTwice(a: set<string>, b: set<string>, c: set<string>, x: seq<string>, y: seq<string>)
    requires Added(a, b, x) && Added(b, c, y)
    ensures Added(a, c, x + y)
  {
    var z := x + y;
    forall i | 0 <= i < |z| ensures z[i] !in a && z[i] in c {
      if i < |x| { assert x[i] in b; } else { assert y[i - |x|] !in b; }
    }
    forall i, j | 0 <= i < j < |z| ensures z[i] != z[j] {
      if i < |x| <= j { assert x[i] in b && y[j - |x|] !in b; }
    }
    forall k | k in c ensures k in a + set i | 0 <= i < |z| :: z[i] {
      if k in b {
        if k !in a { var i :| 0 <= i < |x| && x[i] == k; assert z[i] == k; }
      } else {
        var i :| 0 <= i < |y| && y[i] == k;
        assert z[i + |x|] == k;
      }
    }
    assert c == a + set i | 0 <= i < |z| :: z[i];
  }

  lemma AddedOne(a: set<string>, id: string)
    requires id !in a
    ensures Added(a, a + {id}, [id])
  {
    assert [id][0] == id;
    assert a + {id} == a + set i | 0 <= i < |[id]| :: [id][i];
  }

  // ----- Blocks -----

  ghost predicate Grows(a: State, b: State) {
    (a.failed ==> b.failed) && a.active == b.active && forall k | k in a.done :: k in b.done
  }

  ghost predicate BlockStep(g: Linked, a: State, b: State, ids: seq<string>) {
    Grows(a, b) && Good(g, b) && (!b.failed ==> Added(a.ids, b.ids, ids))
  }

  lemma StepTwice(g: Linked, a: State, b: State, c: State, x: seq<string>, y: seq<string>)
    requires BlockStep(g, a, b, x) && BlockStep(g, b, c, y)
    ensures BlockStep(g, a, c, x + y)
  {
    if !c.failed { AddedTwice(a.ids, b.ids, c.ids, x, y); }
  }

  predicate AllWithin(blocks: seq<Block>, done: seq<Key>) {
    forall i | 0 <= i < |blocks| :: Within(BlockCalls(blocks[i]), done)
  }

  lemma StillWithin(blocks: seq<Block>, a: State, b: State)
    requires AllWithin(blocks, a.done) && Grows(a, b)
    ensures AllWithin(blocks, b.done)
  {
  }

  lemma IfWithin(b: Block, done: seq<Key>)
    requires b.If? && Within(PredCalls(b.condition), done) && AllWithin(b.yes, done) && AllWithin(b.no, done)
    ensures Within(BlockCalls(b), done)
  {
  }

  lemma StepNone(g: Linked, a: State, b: State)
    requires Extends(a, b) && Good(g, b)
    ensures BlockStep(g, a, b, [])
  {
  }

  lemma {:induction false} BlocksSound(g: Linked, scope: Scope, blocks: seq<Block>, from: nat, depth: nat, st: State)
    requires Ready(g, scope, st) && from <= |blocks|
    ensures var r := Blocks(g, scope, blocks, from, depth, st);
      && BlockStep(g, st, r, BlockIds(blocks[from..]))
      && (!r.failed ==> forall i | from <= i < |blocks| ::
            BlockOk(g, scope, blocks[i]) && Within(BlockCalls(blocks[i]), r.done))
    decreases Room(depth), 2, |blocks| - from
  {
    if from < |blocks| {
      var (ok, s) := Enter(depth, st);
      if ok {
        var b := blocks[from];
        var s1 := s.Fail(Blank(b.id) || b.id in s.ids).(ids := s.ids + {b.id});
        var s2 := BlockBody(g, scope, b, depth, s1);
        BlockBodySound(g, scope, b, depth, s1);
        assert BlockStep(g, st, s1, [b.id]) by {
          if !s1.failed { AddedOne(st.ids, b.id); }
        }
        StepTwice(g, st, s1, s2, [b.id], ChildIds(b));
        BlocksSound(g, scope, blocks, from + 1, depth, s2);
        var r := Blocks(g, scope, blocks, from, depth, st);
        StepTwice(g, st, s2, r, [b.id] + ChildIds(b), BlockIds(blocks[from + 1..]));
        assert blocks[from..][1..] == blocks[from + 1..];
      }
    }
  }

  lemma {:induction false} BlockBodySound(g: Linked, scope: Scope, b: Block, depth: nat, st: State)
    requires Ready(g, scope, st) && depth <= MAX_DEPTH
    ensures var r := BlockBody(g, scope, b, depth, st);
      && BlockStep(g, st, r, ChildIds(b))
      && (!r.failed && !Blank(b.id) ==> BlockOk(g, scope, b) && Within(BlockCalls(b), r.done))
    decreases Room(depth), 0, 1
  {
    match b
    case ForEach(_, _, _, _) => ForEachSound(g, scope, b, depth, st);
    case Group(_, title, items) => GroupSound(g, scope, b, depth, st);
    case Emit(_, _, _, _) => EmitSound(g, scope, b, depth, st);
    case If(_, _, _, _) => IfSound(g, scope, b, depth, st);
  }

  lemma {:induction false} ForEachSound(g: Linked, scope: Scope, b: Block, depth: nat, st: State)
    requires Ready(g, scope, st) && depth <= MAX_DEPTH && b.ForEach?
    ensures var r := BlockBody(g, scope, b, depth, st);
      && BlockStep(g, st, r, ChildIds(b))
      && (!r.failed && !Blank(b.id) ==> BlockOk(g, scope, b) && Within(BlockCalls(b), r.done))
    decreases Room(depth), 0, 0
  {
    CollectionSound(g, scope, false, b.value, b.item, depth + 1, st);
    var ty := CollectionItem(g, scope, false, b.value, b.item, depth + 1, st);
    StepNone(g, st, ty.st);
    if ty.t.Some? {
      NestedSound(g, scope[b.item := ty.t.value], b.items, depth + 1, st, [], ty.st);
    }
  }

  lemma {:induction false} GroupSound(g: Linked, scope: Scope, b: Block, depth: nat, st: State)
    requires Ready(g, scope, st) && depth <= MAX_DEPTH && b.Group?
    ensures var r := BlockBody(g, scope, b, depth, st);
      && BlockStep(g, st, r, ChildIds(b))
      && (!r.failed && !Blank(b.id) ==> BlockOk(g, scope, b) && Within(BlockCalls(b), r.done))
    decreases Room(depth), 0, 0
  {
    NestedSound(g, scope, b.items, depth + 1, st, [], st.Fail(Blank(b.title)));
  }

  lemma {:induction false} IfSound(g: Linked, scope: Scope, b: Block, depth: nat, st: State)
    requires Ready(g, scope, st) && depth <= MAX_DEPTH && b.If?
    ensures var r := BlockBody(g, scope, b, depth, st);
      && BlockStep(g, st, r, ChildIds(b))
      && (!r.failed && !Blank(b.id) ==> BlockOk(g, scope, b) && Within(BlockCalls(b), r.done))
    decreases Room(depth), 0, 0
  {
    PredicateSound(g, scope, false, b.condition, depth + 1, st);
    var s := Predicate(g, scope, false, b.condition, depth + 1, st);
    StepNone(g, st, s);
    NestedSound(g, scope, b.yes, depth + 1, st, [], s);
    var y := Blocks(g, scope, b.yes, 0, depth + 1, s);
    NestedSound(g, scope, b.no, depth + 1, st, BlockIds(b.yes), y);
    var r := Blocks(g, scope, b.no, 0, depth + 1, y);
    if !r.failed {
      StillWithin(b.yes, y, r);
      IfWithin(b, r.done);
    }
  }

  lemma {:induction false} EmitSound(g: Linked, scope: Scope, b: Block, depth: nat, st: State)
    requires Ready(g, scope, st) && depth <= MAX_DEPTH && b.Emit?
    ensures var r := BlockBody(g, scope, b, depth, st);
      && BlockStep(g, st, r, ChildIds(b))
      && (!r.failed && !Blank(b.id) ==> BlockOk(g, scope, b) && Within(BlockCalls(b), r.done))
    decreases Room(depth), 0, 0
  {
    ExpressionSound(g, scope, false, b.value, depth + 1, st);
    var v := Expression(g, scope, false, b.value, depth + 1, st);
    StepNone(g, st, v.st);
    StepNone(g, st, v.st.Fail(true));
    if !v.st.failed {
      InferWf(g, scope, false, b.value);
      ResolvedMeans(Null, v.t.value, g.types);
    }
  }

  /** Checking child blocks after `ids` were added since `st`. */
  lemma {:induction false} NestedSound(g: Linked, scope: Scope, items: seq<Block>, depth: nat, st: State, ids: seq<string>, s: State)
    requires Ready(g, scope, s) && BlockStep(g, st, s, ids)
    ensures var r := Blocks(g, scope, items, 0, depth, s);
      && BlockStep(g, st, r, ids + BlockIds(items)) && Grows(s, r) && ([] + BlockIds(items) == BlockIds(items))
      && (!r.failed ==> BlocksOk(g, scope, items) && AllWithin(items, r.done))
    decreases Room(depth), 3, 0
  {
    BlocksSound(g, scope, items, 0, depth, s);
    assert items[0..] == items;
    StepTwice(g, st, s, Blocks(g, scope, items, 0, depth, s), ids, BlockIds(items));
  }

  lemma {:induction false} FunctionsSound(g: Linked, keys: seq<Key>, from: nat, st: State)
    requires Ready(g, map[], st) && from <= |keys|
    ensures var r := Functions(g, keys, from, st);
      && Extends(st, r) && Good(g, r)
      && (!r.failed ==> forall i | from <= i < |keys| :: keys[i] in r.done)
    decreases |keys| - from
  {
    if from < |keys| {
      FunctionSound(g, keys[from], 0, st);
      var s := Function_(g, keys[from], 0, st).st;
      FunctionsSound(g, keys, from + 1, s);
      var r := Functions(g, keys, from + 1, s);
      assert Functions(g, keys, from, st) == r;
      FunctionFirst(g, keys, from, st, s, r);
    }
  }

  /** A function checked first stays in the list of checked ones. */
  lemma FunctionFirst(g: Linked, keys: seq<Key>, from: nat, st: State, s: State, r: State)
    requires from < |keys| && Extends(st, s) && Extends(s, r) && (!s.failed ==> keys[from] in s.done)
    requires !r.failed ==> forall i | from + 1 <= i < |keys| :: keys[i] in r.done
    ensures Extends(st, r) && (!r.failed ==> forall i | from <= i < |keys| :: keys[i] in r.done)
  {
  }

  /** An accepted strategy obeys the typing rules, its block identifiers are distinct, and every
      library function calls only functions that come before it in one fixed order. */
  lemma AcceptedIsWellTyped(s: Strategy, external: Registry, library: Library, keys: seq<Key>) returns (order: seq<Key>)
    requires Accepts_(s, external, library, keys)
    ensures WellTyped(Link(s, external, library), s, order)
    ensures forall i | 0 <= i < |keys| :: keys[i] in order
  {
    var g := Link(s, external, library);
    var header := State(Misstated(g, s), 0, {}, [], {});
    FunctionsSound(g, keys, 0, header);
    var st := Functions(g, keys, 0, header);
    ProgramSound(g, s.program, st);
    order := Checked(s, external, library, keys).done;
    HeaderSound(g, s);
  }

  lemma HeaderSound(g: Linked, s: Strategy)
    requires !Misstated(g, s) && g.requirements == s.requirements
    ensures LinkedWf(g) && ValidId(s.id)
  {
  }

  lemma ProgramSound(g: Linked, program: seq<Block>, st: State)
    requires Ready(g, map[], st)
    ensures var r := Blocks(g, map[], program, 0, 0, st);
      BlockStep(g, st, r, BlockIds(program)) && (!r.failed ==> BlocksOk(g, map[], program) && AllWithin(program, r.done))
  {
    BlocksSound(g, map[], program, 0, 0, st);
    assert program[0..] == program;
  }

  // ----- Call depth -----

  predicate DistinctKeys(keys: seq<Key>) {
    forall i, j | 0 <= i < j < |keys| :: keys[i] != keys[j]
  }

  /** An order without repetition over the same functions. */
  lemma {:induction false} Pruned(library: Library, order: seq<Key>) returns (p: seq<Key>)
    requires Ordered(library, order)
    ensures Ordered(library, p) && DistinctKeys(p) && forall k :: k in p <==> k in order
  {
    if order == [] {
      p := [];
    } else {
      var n := |order| - 1;
      p := Pruned(library, order[..n]);
      assert order == order[..n] + [order[n]];
      if order[n] !in p {
        p := p + [order[n]];
        assert p[..|p| - 1] + [order[n]] == p;
      }
    }
  }

  lemma {:induction false} DistinctFit(keys: seq<Key>, all: set<Key>)
    requires DistinctKeys(keys) && forall k | k in keys :: k in all
    ensures |keys| <= |all|
  {
    if keys != [] {
      var n := |keys| - 1;
      forall k | k in keys[..n] ensures k in all - {keys[n]} { assert k != keys[n]; }
      DistinctFit(keys[..n], all - {keys[n]});
    }
  }

  lemma {:induction false} OrderedInLibrary(library: Library, order: seq<Key>)
    requires Ordered(library, order)
    ensures forall k | k in order :: k in library
  {
    if order != [] {
      OrderedInLibrary(library, order[..|order| - 1]);
      assert order == order[..|order| - 1] + [order[|order| - 1]];
    }
  }

  /** In an accepted program, calls never nest deeper than the library has functions. */
  lemma AcceptedCallDepth(s: Strategy, external: Registry, library: Library, keys: seq<Key>) returns (order: seq<Key>)
    requires Accepts_(s, external, library, keys)
    ensures WellTyped(Link(s, external, library), s, order) && |order| <= |library|
  {
    var long := AcceptedIsWellTyped(s, external, library, keys);
    var g := Link(s, external, library);
    order := Pruned(library, long);
    OrderedInLibrary(library, order);
    DistinctFit(order, library.Keys);
    forall i | 0 <= i < |order| ensures order[i] in g.library && ValidId(order[i].name) && FunctionOk(g, g.library[order[i]]) {
      assert order[i] in long;
      DoneIsOk(g, long, order[i]);
    }
  }
}
