/** When a strategy is accepted: exactly if its header is in order, it is well typed, its identifiers are
    distinct, its library has no recursion, and reading it in full stays within the limits
    (rust/crates/zf-context/src/context.rs, `validate_strategy_with_library`). */
module ExactAcceptance {
  import opened Base
  import opened Types
  import opened Syntax
  import opened Tours
  import opened Typing
  import opened Checker
  import opened CheckerSound
  import opened Acceptance
  import opened Completeness

  // ----- Blocks -----

  /** Identifiers that have not been met yet. */
  predicate Unmet(ids: seq<string>, st: State) {
    Distinct(ids) && forall i | 0 <= i < |ids| :: ids[i] !in st.ids
  }

  lemma UnmetParts(x: seq<string>, y: seq<string>, st: State)
    requires Unmet(x + y, st)
    ensures Unmet(x, st) && Unmet(y, st)
  {
    var z := x + y;
    assert forall i | 0 <= i < |x| :: x[i] == z[i];
    assert forall i | 0 <= i < |y| :: y[i] == z[|x| + i];
  }

  lemma UnmetAfter(x: seq<string>, y: seq<string>, st: State, s: State)
    requires Unmet(x + y, st) && Added(st.ids, s.ids, x)
    ensures Unmet(y, s)
  {
    UnmetParts(x, y, st);
    var z := x + y;
    forall i | 0 <= i < |y| ensures y[i] !in s.ids {
      forall j | 0 <= j < |x| ensures x[j] != y[i] { assert x[j] == z[j] && y[i] == z[|x| + i]; }
    }
  }

  /** Going on after blocks that were met without a report. */
  lemma SettingNext(g: Linked, scope: Scope, st: State, r: State, depth: nat, t: Tour, order: seq<Key>)
    requires Setting(g, scope, st, order) && Grows(st, r) && Good(g, r) && Met(st, r, depth, t) && !r.failed
    ensures Setting(g, scope, r, order)
  {
  }

  lemma {:induction false} BlocksComplete(g: Linked, scope: Scope, blocks: seq<Block>, from: nat, depth: nat, st: State, order: seq<Key>)
    requires Setting(g, scope, st, order) && from <= |blocks|
    requires BlocksOk(g, scope, blocks) && AllWithin(blocks, order) && Unmet(BlockIds(blocks[from..]), st)
    ensures Met(st, Blocks(g, scope, blocks, from, depth, st), depth, BlocksTour(g.library, blocks, from, Seen(st)))
    decreases Room(depth), 2, |blocks| - from
  {
    var r := Blocks(g, scope, blocks, from, depth, st);
    if from == |blocks| {
      MetNothing(st, depth);
    } else if !Enter(depth, st).0 {
      MetFails(st, r, depth, BlocksTour(g.library, blocks, from, Seen(st)));
    } else {
      var b := blocks[from];
      assert blocks[from..][1..] == blocks[from + 1..];
      BlockComplete(g, scope, b, depth, st, order, BlockIds(blocks[from + 1..]));
      var s2 := AfterBlock(g, scope, b, depth, st);
      BlocksSound(g, scope, blocks, from + 1, depth, s2);
      if !s2.failed { BlocksComplete(g, scope, blocks, from + 1, depth, s2, order); }
      var t := BlockTour(g.library, b, Seen(st));
      MetThen(st, s2, r, depth, t, BlocksTour(g.library, blocks, from + 1, t.seen));
    }
  }

  /** The state after one block whose node has been counted. */
  ghost function AfterBlock(g: Linked, scope: Scope, b: Block, depth: nat, st: State): State
    requires Enter(depth, st).0
  {
    var s := Enter(depth, st).1;
    BlockBody(g, scope, b, depth, s.Fail(Blank(b.id) || b.id in s.ids).(ids := s.ids + {b.id}))
  }

  lemma {:induction false} BlockComplete(g: Linked, scope: Scope, b: Block, depth: nat, st: State, order: seq<Key>, later: seq<string>)
    requires Setting(g, scope, st, order) && Enter(depth, st).0
    requires BlockOk(g, scope, b) && Within(BlockCalls(b), order) && Unmet([b.id] + ChildIds(b) + later, st)
    ensures var r := AfterBlock(g, scope, b, depth, st);
      && Met(st, r, depth, BlockTour(g.library, b, Seen(st))) && Ready(g, scope, r)
      && (!r.failed ==> Setting(g, scope, r, order) && Unmet(later, r))
    decreases Room(depth), 1, 0
  {
    SettingInside(g, scope, st, depth, order);
    var s := Enter(depth, st).1;
    var own := [b.id] + ChildIds(b);
    UnmetParts(own, later, st);
    assert own[0] == b.id;
    var s1 := s.(ids := s.ids + {b.id});
    AddedOne(st.ids, b.id);
    UnmetAfter([b.id], ChildIds(b), st, s1);
    InnerComplete(g, scope, b, depth, s1, order);
    BlockBodySound(g, scope, b, depth, s1);
    var r := AfterBlock(g, scope, b, depth, st);
    assert r == BlockBody(g, scope, b, depth, s1);
    MetUnder(st, r, depth, InnerTour(g.library, b, Seen(st)));
    if !r.failed {
      AddedTwice(st.ids, s1.ids, r.ids, [b.id], ChildIds(b));
      UnmetAfter(own, later, st, r);
      SettingNext(g, scope, st, r, depth, BlockTour(g.library, b, Seen(st)), order);
    }
  }

  /** What a block contains is met below it. */
  lemma {:induction false} InnerComplete(g: Linked, scope: Scope, b: Block, depth: nat, st: State, order: seq<Key>)
    requires Setting(g, scope, st, order) && depth <= MAX_DEPTH
    requires BlockOk(g, scope, b) && Within(BlockCalls(b), order) && Unmet(ChildIds(b), st)
    ensures Met(st, BlockBody(g, scope, b, depth, st), depth + 1, InnerTour(g.library, b, Seen(st)))
    decreases Room(depth), 0, 1
  {
    match b
    case ForEach(_, _, _, _) => ForEachComplete(g, scope, b, depth, st, order);
    case Group(_, _, items) =>
      assert items[0..] == items && AllWithin(items, order) && BlocksOk(g, scope, items);
      BlocksComplete(g, scope, items, 0, depth + 1, st, order);
    case Emit(_, _, _, _) => EmitComplete(g, scope, b, depth, st, order);
    case If(_, _, _, _) => IfComplete(g, scope, b, depth, st, order);
  }

  lemma {:induction false} ForEachComplete(g: Linked, scope: Scope, b: Block, depth: nat, st: State, order: seq<Key>)
    requires Setting(g, scope, st, order) && depth <= MAX_DEPTH && b.ForEach?
    requires BlockOk(g, scope, b) && Within(BlockCalls(b), order) && Unmet(ChildIds(b), st)
    ensures Met(st, BlockBody(g, scope, b, depth, st), depth + 1, InnerTour(g.library, b, Seen(st)))
    decreases Room(depth), 0, 0
  {
    LoopComplete(g, scope, b, depth + 1, st, order);
    var ty := CollectionItem(g, scope, false, b.value, b.item, depth + 1, st);
    var r := BlockBody(g, scope, b, depth, st);
    var t := ExprTour(g.library, b.value, Seen(st));
    ItemsWithin(b, order);
    if ty.t.Some? { ItemsComplete(g, scope[b.item := ty.t.value], b.items, depth + 1, ty.st, order); }
    MetThen(st, ty.st, r, depth + 1, t, BlocksTour(g.library, b.items, 0, t.seen));
  }

  lemma ItemsWithin(b: Block, order: seq<Key>)
    requires b.ForEach? && Within(BlockCalls(b), order)
    ensures Within(Calls(b.value), order) && AllWithin(b.items, order)
  {
    forall i | 0 <= i < |b.items| ensures Within(BlockCalls(b.items[i]), order) {
      forall k | k in BlockCalls(b.items[i]) ensures k in order { assert k in BlockCalls(b); }
    }
  }

  /** The collection of a loop, and what it leaves for the blocks. */
  lemma {:induction false} LoopComplete(g: Linked, scope: Scope, b: Block, depth: nat, st: State, order: seq<Key>)
    requires Setting(g, scope, st, order) && b.ForEach? && BlockOk(g, scope, b) && Within(BlockCalls(b), order) && Unmet(ChildIds(b), st)
    ensures var ty := CollectionItem(g, scope, false, b.value, b.item, depth, st);
      && Met(st, ty.st, depth, ExprTour(g.library, b.value, Seen(st))) && (ty.t.None? ==> ty.st.failed)
      && (ty.t.Some? ==> Ready(g, scope[b.item := ty.t.value], ty.st))
      && (!ty.st.failed ==> var inner := scope[b.item := ty.t.value];
            Setting(g, inner, ty.st, order) && BlocksOk(g, inner, b.items) && Unmet(BlockIds(b.items), ty.st))
    decreases Room(depth), 2, 0
  {
    ItemsWithin(b, order);
    CollectionComplete(g, scope, false, b.value, b.item, depth, st, order);
    CollectionSound(g, scope, false, b.value, b.item, depth, st);
  }

  /** The blocks of a loop over a collection that may have been reported. */
  lemma {:induction false} ItemsComplete(g: Linked, scope: Scope, items: seq<Block>, depth: nat, st: State, order: seq<Key>)
    requires Ready(g, scope, st)
    requires !st.failed ==> Setting(g, scope, st, order) && BlocksOk(g, scope, items) && AllWithin(items, order) && Unmet(BlockIds(items), st)
    ensures var r := Blocks(g, scope, items, 0, depth, st);
      (st.failed ==> r.failed) && (!st.failed ==> Met(st, r, depth, BlocksTour(g.library, items, 0, Seen(st))))
    decreases Room(depth), 3, 0
  {
    assert items[0..] == items;
    BlocksSound(g, scope, items, 0, depth, st);
    if !st.failed { BlocksComplete(g, scope, items, 0, depth, st, order); }
  }

  lemma {:induction false} EmitComplete(g: Linked, scope: Scope, b: Block, depth: nat, st: State, order: seq<Key>)
    requires Setting(g, scope, st, order) && depth <= MAX_DEPTH && b.Emit?
    requires BlockOk(g, scope, b) && Within(BlockCalls(b), order)
    ensures Met(st, BlockBody(g, scope, b, depth, st), depth + 1, InnerTour(g.library, b, Seen(st)))
    decreases Room(depth), 0, 0
  {
    ExpressionComplete(g, scope, false, b.value, depth + 1, st, order);
    ExpressionSound(g, scope, false, b.value, depth + 1, st);
    MetSame(st, Expression(g, scope, false, b.value, depth + 1, st).st, BlockBody(g, scope, b, depth, st), depth + 1,
      ExprTour(g.library, b.value, Seen(st)));
  }

  lemma {:induction false} IfComplete(g: Linked, scope: Scope, b: Block, depth: nat, st: State, order: seq<Key>)
    requires Setting(g, scope, st, order) && depth <= MAX_DEPTH && b.If?
    requires BlockOk(g, scope, b) && Within(BlockCalls(b), order) && Unmet(ChildIds(b), st)
    ensures Met(st, BlockBody(g, scope, b, depth, st), depth + 1, InnerTour(g.library, b, Seen(st)))
    decreases Room(depth), 0, 0
  {
    var s := Predicate(g, scope, false, b.condition, depth + 1, st);
    var t := PredTour(g.library, b.condition, Seen(st));
    PredicateComplete(g, scope, false, b.condition, depth + 1, st, order);
    PredicateSound(g, scope, false, b.condition, depth + 1, st);
    if !s.failed { SettingAfter(g, scope, st, s, depth + 1, t, scope, order); }
    BranchesComplete(g, scope, b, depth + 1, s, order);
    MetThen(st, s, BlockBody(g, scope, b, depth, st), depth + 1, t, BranchesTour(g.library, b, t.seen));
  }

  function BranchesTour(library: Library, b: Block, seen: set<Key>): (t: Tour)
    requires b.If?
    ensures Flat(t)
  {
    var yes := BlocksTour(library, b.yes, 0, seen);
    Then(yes, BlocksTour(library, b.no, 0, yes.seen))
  }

  lemma {:induction false} BranchesComplete(g: Linked, scope: Scope, b: Block, depth: nat, st: State, order: seq<Key>)
    requires Ready(g, scope, st) && b.If? && BlockOk(g, scope, b) && Within(BlockCalls(b), order)
    requires !st.failed ==> Setting(g, scope, st, order) && Unmet(ChildIds(b), st)
    ensures var r := Blocks(g, scope, b.no, 0, depth, Blocks(g, scope, b.yes, 0, depth, st));
      (st.failed ==> r.failed) && (!st.failed ==> Met(st, r, depth, BranchesTour(g.library, b, Seen(st))))
    decreases Room(depth), 3, 0
  {
    var y := Blocks(g, scope, b.yes, 0, depth, st);
    var r := Blocks(g, scope, b.no, 0, depth, y);
    assert b.yes[0..] == b.yes && b.no[0..] == b.no;
    BlocksSound(g, scope, b.yes, 0, depth, st);
    BlocksSound(g, scope, b.no, 0, depth, y);
    if !st.failed {
      assert BlocksOk(g, scope, b.yes) && AllWithin(b.yes, order) && BlocksOk(g, scope, b.no) && AllWithin(b.no, order);
      UnmetParts(BlockIds(b.yes), BlockIds(b.no), st);
      BlocksComplete(g, scope, b.yes, 0, depth, st, order);
      var t := BlocksTour(g.library, b.yes, 0, Seen(st));
      if !y.failed {
        UnmetAfter(BlockIds(b.yes), BlockIds(b.no), st, y);
        SettingNext(g, scope, st, y, depth, t, order);
        BlocksComplete(g, scope, b.no, 0, depth, y, order);
      }
      MetThen(st, y, r, depth, t, BlocksTour(g.library, b.no, 0, t.seen));
    }
  }

  predicate Covers(order: seq<Key>, keys: seq<Key>) {
    forall i | 0 <= i < |keys| :: keys[i] in order
  }

  lemma {:induction false} FunctionsComplete(g: Linked, keys: seq<Key>, from: nat, st: State, order: seq<Key>)
    requires Setting(g, map[], st, order) && from <= |keys| && Covers(order, keys)
    ensures Met(st, Functions(g, keys, from, st), 0, LibraryTour(g.library, keys, from, Seen(st)))
    decreases |keys| - from
  {
    if from == |keys| {
      MetNothing(st, 0);
    } else {
      var s := Function_(g, keys[from], 0, st).st;
      FirstComplete(g, keys[from], st, order);
      FunctionsSound(g, keys, from + 1, s);
      if !s.failed { FunctionsComplete(g, keys, from + 1, s, order); }
      MoreFunctions(g, keys, from, st);
    }
  }

  lemma MoreFunctions(g: Linked, keys: seq<Key>, from: nat, st: State)
    requires from < |keys| && Sane(st)
    requires var s := Function_(g, keys[from], 0, st).st;
      var r := Functions(g, keys, from + 1, s);
      && Met(st, s, 0, FunctionTour(g.library, keys[from], Seen(st))) && (s.failed ==> r.failed)
      && (!s.failed ==> Met(s, r, 0, LibraryTour(g.library, keys, from + 1, Seen(s))))
    ensures Met(st, Functions(g, keys, from, st), 0, LibraryTour(g.library, keys, from, Seen(st)))
  {
    var s, t := Function_(g, keys[from], 0, st).st, FunctionTour(g.library, keys[from], Seen(st));
    MetThen(st, s, Functions(g, keys, from + 1, s), 0, t, LibraryTour(g.library, keys, from + 1, t.seen));
  }

  lemma FirstComplete(g: Linked, key: Key, st: State, order: seq<Key>)
    requires Setting(g, map[], st, order) && key in order
    ensures var s := Function_(g, key, 0, st).st;
      Met(st, s, 0, FunctionTour(g.library, key, Seen(st))) && Ready(g, map[], s) && (!s.failed ==> Setting(g, map[], s, order))
  {
    CalleeComplete(g, map[], key, 0, st, order);
    var s := Function_(g, key, 0, st).st;
    if !s.failed { SettingAfter(g, map[], st, s, 0, FunctionTour(g.library, key, Seen(st)), map[], order); }
  }

  // ----- Typed programs call known functions -----

  lemma {:induction false} CallsAreKnown(g: Linked, scope: Scope, inFunction: bool, e: Expr)
    requires Infer(g, scope, inFunction, e).Some?
    ensures Calls(e) <= g.library.Keys
    decreases e
  {
    match e
    case Unary(_, value) => CallsAreKnown(g, scope, inFunction, value);
    case Filter(value, item, condition) =>
      CallsAreKnown(g, scope, inFunction, value);
      PredCallsAreKnown(g, scope[item := ItemType(g, Infer(g, scope, inFunction, value)).value], inFunction, condition);
    case Keyed(_, value, item, key) =>
      CallsAreKnown(g, scope, inFunction, value);
      CallsAreKnown(g, scope[item := ItemType(g, Infer(g, scope, inFunction, value)).value], inFunction, key);
    case Build(_, args) =>
      forall i | 0 <= i < |args| ensures Calls(args[i].value) <= g.library.Keys { CallsAreKnown(g, scope, inFunction, args[i].value); }
    case Call(_, args) =>
      forall i | 0 <= i < |args| ensures Calls(args[i].value) <= g.library.Keys { CallsAreKnown(g, scope, inFunction, args[i].value); }
    case _ =>
  }

  lemma {:induction false} PredCallsAreKnown(g: Linked, scope: Scope, inFunction: bool, p: Pred)
    requires PredOk(g, scope, inFunction, p)
    ensures PredCalls(p) <= g.library.Keys
    decreases p
  {
    match p
    case Compare(left, _, right) =>
      CallsAreKnown(g, scope, inFunction, left);
      CallsAreKnown(g, scope, inFunction, right);
    case Contains(value, element) =>
      CallsAreKnown(g, scope, inFunction, value);
      CallsAreKnown(g, scope, inFunction, element);
    case Present(value) => CallsAreKnown(g, scope, inFunction, value);
    case Eq(left, right) =>
      CallsAreKnown(g, scope, inFunction, left);
      CallsAreKnown(g, scope, inFunction, right);
    case And(items) =>
      forall i | 0 <= i < |items| ensures PredCalls(items[i]) <= g.library.Keys { PredCallsAreKnown(g, scope, inFunction, items[i]); }
    case Or(items) =>
      forall i | 0 <= i < |items| ensures PredCalls(items[i]) <= g.library.Keys { PredCallsAreKnown(g, scope, inFunction, items[i]); }
    case Not(item) => PredCallsAreKnown(g, scope, inFunction, item);
  }

  lemma {:induction false} BlockCallsAreKnown(g: Linked, scope: Scope, b: Block)
    requires BlockOk(g, scope, b)
    ensures BlockCalls(b) <= g.library.Keys
    decreases b
  {
    match b
    case ForEach(_, value, item, items) =>
      CallsAreKnown(g, scope, false, value);
      var inner := scope[item := ItemType(g, Infer(g, scope, false, value)).value];
      forall i | 0 <= i < |items| ensures BlockCalls(items[i]) <= g.library.Keys { BlockCallsAreKnown(g, inner, items[i]); }
    case Group(_, _, items) =>
      forall i | 0 <= i < |items| ensures BlockCalls(items[i]) <= g.library.Keys { BlockCallsAreKnown(g, scope, items[i]); }
    case Emit(_, _, _, value) => CallsAreKnown(g, scope, false, value);
    case If(_, condition, yes, no) =>
      PredCallsAreKnown(g, scope, false, condition);
      forall i | 0 <= i < |yes| ensures BlockCalls(yes[i]) <= g.library.Keys { BlockCallsAreKnown(g, scope, yes[i]); }
      forall i | 0 <= i < |no| ensures BlockCalls(no[i]) <= g.library.Keys { BlockCallsAreKnown(g, scope, no[i]); }
  }

  // ----- Acceptance -----

  predicate Titled(names: set<string>) { forall n | n in names :: !Blank(n) }

  ghost predicate CapabilitiesOk(g: Linked, capabilities: seq<Capability>) {
    && (forall c | c in capabilities :: !Blank(c.id) && TypeOk(c.input, g.types) && TypeOk(c.output, g.types))
    && (forall i, j | 0 <= i < j < |capabilities| :: capabilities[i].id != capabilities[j].id)
  }

  /** A known version, names that are not blank, and types that are valid. */
  ghost predicate HeaderOk(g: Linked, s: Strategy) {
    && (s.version == 1 || s.version == 2) && ValidId(s.id) && !Blank(s.name)
    && Titled(s.types.Keys) && (forall n | n in s.types :: TypeOk(s.types[n], g.types))
    && Titled(s.requirements.Keys) && (forall n | n in s.requirements :: TypeOk(s.requirements[n], g.types))
    && CapabilitiesOk(g, s.capabilities)
  }

  ghost predicate LibraryOk(g: Linked) {
    forall k | k in g.library :: ValidId(k.name) && FunctionOk(g, g.library[k])
  }

  /** The functions can be listed so that each calls only earlier ones. */
  ghost predicate WithoutRecursion(library: Library) {
    exists order: seq<Key> :: Ordered(library, order) && forall k | k in library :: k in order
  }

  lemma HeaderMeans(g: Linked, s: Strategy)
    ensures Misstated(g, s) <==> !HeaderOk(g, s)
  {
    if HeaderOk(g, s) {
      forall i | 0 <= i < |s.capabilities|
        ensures !Blank(s.capabilities[i].id) && TypeOk(s.capabilities[i].input, g.types) && TypeOk(s.capabilities[i].output, g.types)
      {
        assert s.capabilities[i] in s.capabilities;
      }
    }
  }

  /** The strategy without its limits: what must hold of it, apart from its size. */
  ghost predicate WellFormed(g: Linked, s: Strategy) {
    && HeaderOk(g, s) && LibraryOk(g) && WithoutRecursion(g.library)
    && BlocksOk(g, map[], s.program) && Distinct(BlockIds(s.program))
  }

  /** An order of the whole library, each function once. */
  lemma GoodOrder(g: Linked) returns (order: seq<Key>)
    requires LibraryOk(g) && WithoutRecursion(g.library)
    ensures Known(g, order) && forall k :: k in order <==> k in g.library
  {
    var all: seq<Key> :| Ordered(g.library, all) && forall k | k in g.library :: k in all;
    order := Pruned(g.library, all);
    OrderedInLibrary(g.library, order);
    forall i | 0 <= i < |order|
      ensures order[i] in g.library && ValidId(order[i].name) && FunctionOk(g, g.library[order[i]])
    {
      assert order[i] in order;
    }
  }

  /** The whole traversal of a well-formed strategy meets exactly the tour. */
  lemma CheckedComplete(s: Strategy, external: Registry, library: Library, keys: seq<Key>)
    requires Lists(keys, library) && WellFormed(Link(s, external, library), s)
    ensures !Checked(s, external, library, keys).failed <==> WithinLimits(library, keys, s.program)
  {
    var g := Link(s, external, library);
    var order := GoodOrder(g);
    HeaderMeans(g, s);
    var st := State(false, 0, {}, [], {});
    assert st == State(Misstated(g, s), 0, {}, [], {}) && Setting(g, map[], st, order) && Seen(st) == {};
    LibraryMet(g, keys, st, order);
    var mid := Functions(g, keys, 0, st);
    var first := LibraryTour(library, keys, 0, {});
    ProgramNext(g, s.program, st, mid, first, order);
    MetWithin(st, Blocks(g, map[], s.program, 0, 0, mid), Then(first, BlocksTour(library, s.program, 0, first.seen)));
  }

  lemma LibraryMet(g: Linked, keys: seq<Key>, st: State, order: seq<Key>)
    requires Setting(g, map[], st, order) && Lists(keys, g.library) && forall k :: k in order <==> k in g.library
    ensures var mid := Functions(g, keys, 0, st);
      Met(st, mid, 0, LibraryTour(g.library, keys, 0, Seen(st))) && Extends(st, mid) && Good(g, mid)
  {
    forall i | 0 <= i < |keys| ensures keys[i] in order { assert keys[i] in keys; }
    FunctionsComplete(g, keys, 0, st, order);
    FunctionsSound(g, keys, 0, st);
  }

  /** The program after the library. */
  lemma ProgramNext(g: Linked, program: seq<Block>, st: State, mid: State, first: Tour, order: seq<Key>)
    requires Setting(g, map[], st, order) && st.ids == {} && (forall k :: k in order <==> k in g.library)
    requires Met(st, mid, 0, first) && Flat(first) && Extends(st, mid) && Good(g, mid)
    requires BlocksOk(g, map[], program) && Distinct(BlockIds(program))
    ensures Met(st, Blocks(g, map[], program, 0, 0, mid), 0, Then(first, BlocksTour(g.library, program, 0, first.seen)))
  {
    ProgramSound(g, program, mid);
    if !mid.failed {
      SettingAfter(g, map[], st, mid, 0, first, map[], order);
      ProgramComplete(g, program, mid, order);
    }
    MetThen(st, mid, Blocks(g, map[], program, 0, 0, mid), 0, first, BlocksTour(g.library, program, 0, first.seen));
  }

  lemma ProgramComplete(g: Linked, program: seq<Block>, st: State, order: seq<Key>)
    requires Setting(g, map[], st, order) && st.ids == {} && (forall k :: k in order <==> k in g.library)
    requires BlocksOk(g, map[], program) && Distinct(BlockIds(program))
    ensures Met(st, Blocks(g, map[], program, 0, 0, st), 0, BlocksTour(g.library, program, 0, Seen(st)))
  {
    ProgramKnown(g, program, order);
    assert program[0..] == program;
    BlocksComplete(g, map[], program, 0, 0, st, order);
  }

  lemma MetWithin(st: State, r: State, t: Tour)
    requires Met(st, r, 0, t) && Sane(st) && st.nodes == 0 && Flat(t)
    ensures !r.failed <==> t.levels <= MAX_LEVELS_BELOW && t.nodes <= MAX_NODES_MET
  {
  }

  lemma ProgramKnown(g: Linked, program: seq<Block>, order: seq<Key>)
    requires BlocksOk(g, map[], program) && forall k :: k in order <==> k in g.library
    ensures AllWithin(program, order)
  {
    forall i | 0 <= i < |program| ensures Within(BlockCalls(program[i]), order) { BlockCallsAreKnown(g, map[], program[i]); }
  }

  /** A strategy is accepted if and only if its header is in order, it is well typed, its identifiers are
      distinct, its library is well typed and without recursion, and reading the library and then the
      program, each function in full once, meets at most 4096 nodes at no more than 64 levels below the
      first. Nothing else is refused. */
  lemma AcceptedExactly(s: Strategy, external: Registry, library: Library, keys: seq<Key>)
    requires Lists(keys, library)
    ensures Accepts_(s, external, library, keys)
      <==> Mergeable(s, external) && WellFormed(Link(s, external, library), s) && WithinLimits(library, keys, s.program)
  {
    var g := Link(s, external, library);
    if Accepts_(s, external, library, keys) {
      var order := AcceptedIsWellTyped(s, external, library, keys);
      HeaderHolds(s, external, library, keys);
      forall k | k in library ensures ValidId(k.name) && FunctionOk(g, library[k]) {
        assert k in keys;
        DoneIsOk(g, order, k);
      }
      assert WithoutRecursion(library) by { assert forall k | k in library :: k in keys; }
    }
    if WellFormed(g, s) { CheckedComplete(s, external, library, keys); }
  }

  lemma HeaderHolds(s: Strategy, external: Registry, library: Library, keys: seq<Key>)
    requires !Checked(s, external, library, keys).failed
    ensures HeaderOk(Link(s, external, library), s)
  {
    var g := Link(s, external, library);
    HeaderMeans(g, s);
    var header := State(Misstated(g, s), 0, {}, [], {});
    FunctionsSound(g, keys, 0, header);
    BlocksSound(g, map[], s.program, 0, 0, Functions(g, keys, 0, header));
  }
}
