/** The context language: expressions, conditions, blocks, strategies and function libraries
    (rust/crates/zf-context/src/context.rs and context_library.rs). Named arguments are listed in
    the key order in which the source's ordered maps are walked. */
module Syntax {
  import opened Base
  import opened Types

  datatype Role = Instruction | Data
  datatype Format = AsText | AsJson | AsMedia | AsMessages
  datatype Comparison = Lt | Lte | Gt | Gte | Ne
  datatype Unit = Bytes | Items | MediaCount
  datatype LibraryKind = Projection | Subprogram
  datatype Key = Key(kind: LibraryKind, name: string)

  /** Operations on the value of one operand. */
  datatype UnaryOp =
    | Construct(name: string)
    | Take(count: nat)
    | Truncate(count: nat)
    | ToJson
    | Measure(unit: Unit)
    | FieldOf(field: string)
    | Project(fields: seq<string>)

  /** Operations that evaluate one key or body per list element. */
  datatype KeyedOp = MapOp | SortOp(descending: bool) | GroupOp | DedupOp

  /** Values built from several operands; list elements leave their argument name unused. */
  datatype BuildOp = RecordOf | ListOf(itemType: DataType) | Template(text: string)

  datatype Arg = Arg(name: string, value: Expr)

  datatype Expr =
    | Variable(name: string)
    | Resource(name: string)
    | Literal(dataType: DataType, json: Json)
    | Unary(op: UnaryOp, value: Expr)
    | Filter(value: Expr, item: string, condition: Pred)
    | Keyed(keyedOp: KeyedOp, value: Expr, item: string, key: Expr)
    | Build(buildOp: BuildOp, args: seq<Arg>)
    | Call(function_: Key, args: seq<Arg>)

  datatype Pred =
    | Compare(left: Expr, operator: Comparison, right: Expr)
    | Contains(value: Expr, element: Expr)
    | Present(value: Expr)
    | Eq(left: Expr, right: Expr)
    | And(items: seq<Pred>)
    | Or(items: seq<Pred>)
    | Not(item: Pred)

  datatype Block =
    | ForEach(id: string, value: Expr, item: string, items: seq<Block>)
    | Group(id: string, title: string, items: seq<Block>)
    | Emit(id: string, role: Role, format: Format, value: Expr)
    | If(id: string, condition: Pred, yes: seq<Block>, no: seq<Block>)

  datatype Function = Function(parameters: map<string, DataType>, output: DataType, body: Expr)
  type Library = map<Key, Function>

  datatype Capability = Capability(id: string, input: DataType, output: DataType)

  datatype Strategy = Strategy(
    version: nat,
    id: string,
    name: string,
    types: Registry,
    requirements: map<string, DataType>,
    capabilities: seq<Capability>,
    program: seq<Block>)

  function ArgNames(args: seq<Arg>): set<string> {
    set i | 0 <= i < |args| :: args[i].name
  }

  /** The library functions that an expression calls directly. */
  function Calls(e: Expr): set<Key> {
    match e
    case Variable(_) => {}
    case Resource(_) => {}
    case Literal(_, _) => {}
    case Unary(_, value) => Calls(value)
    case Filter(value, _, condition) => Calls(value) + PredCalls(condition)
    case Keyed(_, value, _, key) => Calls(value) + Calls(key)
    case Build(_, args) => set i, k | 0 <= i < |args| && k in Calls(args[i].value) :: k
    case Call(key, args) => {key} + set i, k | 0 <= i < |args| && k in Calls(args[i].value) :: k
  }

  function PredCalls(p: Pred): set<Key> {
    match p
    case Compare(left, _, right) => Calls(left) + Calls(right)
    case Contains(value, element) => Calls(value) + Calls(element)
    case Present(value) => Calls(value)
    case Eq(left, right) => Calls(left) + Calls(right)
    case And(items) => set i, k | 0 <= i < |items| && k in PredCalls(items[i]) :: k
    case Or(items) => set i, k | 0 <= i < |items| && k in PredCalls(items[i]) :: k
    case Not(item) => PredCalls(item)
  }

  function BlockCalls(b: Block): set<Key> {
    match b
    case ForEach(_, value, _, items) => Calls(value) + set i, k | 0 <= i < |items| && k in BlockCalls(items[i]) :: k
    case Group(_, _, items) => set i, k | 0 <= i < |items| && k in BlockCalls(items[i]) :: k
    case Emit(_, _, _, value) => Calls(value)
    case If(_, condition, yes, no) =>
      PredCalls(condition)
      + (set i, k | 0 <= i < |yes| && k in BlockCalls(yes[i]) :: k)
      + (set i, k | 0 <= i < |no| && k in BlockCalls(no[i]) :: k)
  }

  predicate Within(calls: set<Key>, order: seq<Key>) {
    forall k | k in calls :: k in order
  }

  /** A list of functions that each call only functions listed before them. */
  predicate Ordered(library: Library, order: seq<Key>) {
    if order == [] then true
    else
      var n := |order| - 1;
      Ordered(library, order[..n]) && order[n] in library && Within(Calls(library[order[n]].body), order[..n])
  }

  /** What a listed function calls is listed before it. */
  lemma {:induction false} CalledBefore(library: Library, order: seq<Key>, key: Key) returns (before: seq<Key>)
    requires Ordered(library, order) && key in order
    ensures before < order && order[|before|] == key && Ordered(library, before)
    ensures key in library && Within(Calls(library[key].body), before)
  {
    var n := |order| - 1;
    if order[n] == key {
      before := order[..n];
    } else {
      before := CalledBefore(library, order[..n], key);
    }
  }

  /** Authored identifiers in document order. */
  function BlockIds(blocks: seq<Block>): seq<string> {
    if blocks == [] then []
    else [blocks[0].id] + ChildIds(blocks[0]) + BlockIds(blocks[1..])
  }

  function ChildIds(b: Block): seq<string> {
    match b
    case ForEach(_, _, _, items) => BlockIds(items)
    case Group(_, _, items) => BlockIds(items)
    case Emit(_, _, _, _) => []
    case If(_, _, yes, no) => BlockIds(yes) + BlockIds(no)
  }

  // ----- Templates -----

  datatype Part = Plain(text: string) | Hole(name: string)

  /** Position of the first doubled `c`. */
  function FindPair(s: string, c: char): (r: Option<nat>)
    ensures r.Some? ==> r.value + 2 <= |s| && s[r.value] == c && s[r.value + 1] == c
  {
    if |s| < 2 then None
    else if s[0] == c && s[1] == c then Some(0)
    else
      var r := FindPair(s[1..], c);
      if r.None? then None else Some(r.value + 1)
  }

  /** Literal text and `{{name}}` holes of a template, or nothing if it is malformed. */
  function TemplateParts(tail: string): Option<seq<Part>>
    decreases |tail|
  {
    var start := FindPair(tail, '{');
    if start.None? then Some([Plain(tail)])
    else
      var inner := tail[start.value + 2..];
      var end := FindPair(inner, '}');
      if end.None? || !ValidId(inner[..end.value]) then None
      else
        var rest := TemplateParts(inner[end.value + 2..]);
        if rest.None? then None
        else Some([Plain(tail[..start.value]), Hole(inner[..end.value])] + rest.value)
  }

  function Holes(parts: seq<Part>): set<string> {
    set i | 0 <= i < |parts| && parts[i].Hole? :: parts[i].name
  }
}
