/** The size of a program as a reader would count it: the nodes met when every library function is read
    in full where it is first called and only named afterwards, and how deeply they are nested
    (rust/crates/zf-context/src/context.rs, the limits of `depth`). Nothing here looks at types. */
module Tours {
  import opened Syntax

  /** Nodes met, levels below the first of them, and functions read so far. */
  datatype Tour = Tour(nodes: nat, levels: nat, seen: set<Key>)

  /** One tour after the other, at the same level. */
  function Then(a: Tour, b: Tour): Tour {
    Tour(a.nodes + b.nodes, if a.levels < b.levels then b.levels else a.levels, b.seen)
  }

  /** A node above what it contains. */
  function Under(inner: Tour): Tour {
    Tour(1 + inner.nodes, if inner.nodes == 0 then 0 else 1 + inner.levels, inner.seen)
  }

  function Nothing(seen: set<Key>): Tour { Tour(0, 0, seen) }

  function ExprTour(library: Library, e: Expr, seen: set<Key>): (t: Tour)
    ensures seen <= t.seen && t.nodes > 0
    decreases library.Keys - seen, 1, e, 0
  {
    match e
    case Variable(_) => Under(Nothing(seen))
    case Resource(_) => Under(Nothing(seen))
    case Literal(_, _) => Under(Nothing(seen))
    case Unary(_, value) => Under(ExprTour(library, value, seen))
    case Filter(value, _, condition) =>
      var first := ExprTour(library, value, seen);
      Under(Then(first, PredTour(library, condition, first.seen)))
    case Keyed(_, value, _, key) =>
      var first := ExprTour(library, value, seen);
      Under(Then(first, ExprTour(library, key, first.seen)))
    case Build(_, args) => Under(ArgsTour(library, args, 0, seen))
    case Call(key, args) =>
      var first := FunctionTour(library, key, seen);
      Under(Then(first, ArgsTour(library, args, 0, first.seen)))
  }

  /** A call's function: its body where it has not been read yet. */
  function FunctionTour(library: Library, key: Key, seen: set<Key>): (t: Tour)
    ensures seen <= t.seen && t.nodes > 0
    decreases library.Keys - seen, 0
  {
    if key in seen || key !in library then Under(Nothing(seen))
    else Under(ExprTour(library, library[key].body, seen + {key}))
  }

  function ArgsTour(library: Library, args: seq<Arg>, from: nat, seen: set<Key>): (t: Tour)
    requires from <= |args|
    ensures seen <= t.seen && (t.nodes == 0 ==> t.levels == 0)
    decreases library.Keys - seen, 1, args, |args| - from
  {
    if from == |args| then Nothing(seen)
    else
      var first := ExprTour(library, args[from].value, seen);
      Then(first, ArgsTour(library, args, from + 1, first.seen))
  }

  function PredTour(library: Library, p: Pred, seen: set<Key>): (t: Tour)
    ensures seen <= t.seen && t.nodes > 0
    decreases library.Keys - seen, 1, p, 0
  {
    match p
    case Compare(left, _, right) =>
      var first := ExprTour(library, left, seen);
      Under(Then(first, ExprTour(library, right, first.seen)))
    case Contains(value, element) =>
      var first := ExprTour(library, value, seen);
      Under(Then(first, ExprTour(library, element, first.seen)))
    case Present(value) => Under(ExprTour(library, value, seen))
    case Eq(left, right) =>
      var first := ExprTour(library, left, seen);
      Under(Then(first, ExprTour(library, right, first.seen)))
    case And(items) => Under(PredsTour(library, items, 0, seen))
    case Or(items) => Under(PredsTour(library, items, 0, seen))
    case Not(item) => Under(PredTour(library, item, seen))
  }

  function PredsTour(library: Library, ps: seq<Pred>, from: nat, seen: set<Key>): (t: Tour)
    requires from <= |ps|
    ensures seen <= t.seen && (t.nodes == 0 ==> t.levels == 0)
    decreases library.Keys - seen, 1, ps, |ps| - from
  {
    if from == |ps| then Nothing(seen)
    else
      var first := PredTour(library, ps[from], seen);
      Then(first, PredsTour(library, ps, from + 1, first.seen))
  }

  function BlockTour(library: Library, b: Block, seen: set<Key>): (t: Tour)
    ensures seen <= t.seen && t.nodes > 0
    decreases b, 1
  {
    Under(InnerTour(library, b, seen))
  }

  /** What a block contains. */
  function InnerTour(library: Library, b: Block, seen: set<Key>): (t: Tour)
    ensures seen <= t.seen && (t.nodes == 0 ==> t.levels == 0)
    decreases b, 0
  {
    match b
    case ForEach(_, value, _, items) =>
      var first := ExprTour(library, value, seen);
      Then(first, BlocksTour(library, items, 0, first.seen))
    case Group(_, _, items) => BlocksTour(library, items, 0, seen)
    case Emit(_, _, _, value) => ExprTour(library, value, seen)
    case If(_, condition, yes, no) =>
      var first := PredTour(library, condition, seen);
      var second := BlocksTour(library, yes, 0, first.seen);
      Then(first, Then(second, BlocksTour(library, no, 0, second.seen)))
  }

  function BlocksTour(library: Library, blocks: seq<Block>, from: nat, seen: set<Key>): (t: Tour)
    requires from <= |blocks|
    ensures seen <= t.seen && (t.nodes == 0 ==> t.levels == 0)
    decreases blocks, |blocks| - from
  {
    if from == |blocks| then Nothing(seen)
    else
      var first := BlockTour(library, blocks[from], seen);
      Then(first, BlocksTour(library, blocks, from + 1, first.seen))
  }

  /** The library functions in the order of their keys. */
  function LibraryTour(library: Library, keys: seq<Key>, from: nat, seen: set<Key>): (t: Tour)
    requires from <= |keys|
    ensures t.nodes == 0 ==> t.levels == 0
    decreases |keys| - from
  {
    if from == |keys| then Nothing(seen)
    else
      var first := FunctionTour(library, keys[from], seen);
      Then(first, LibraryTour(library, keys, from + 1, first.seen))
  }

  const MAX_LEVELS_BELOW := 64
  const MAX_NODES_MET := 4096

  /** The library and then the program, at most 64 levels below the first and 4096 nodes in all. */
  predicate WithinLimits(library: Library, keys: seq<Key>, program: seq<Block>) {
    var functions := LibraryTour(library, keys, 0, {});
    var all := Then(functions, BlocksTour(library, program, 0, functions.seen));
    all.levels <= MAX_LEVELS_BELOW && all.nodes <= MAX_NODES_MET
  }
}
