/** Strategies as Rust constructor trees: the terms, and the printers
    (rust/crates/zf-context/src/context_source.rs, `generate`, `type_source`, `expression_source`,
    `predicate_source`, `blocks_source` and `json_source`). */
module SourceTerms {
  import opened Base
  import opened Types
  import opened Syntax

  /** The Rust paths that printed sources use; any other path is `POther`. */
  datatype Path =
    | PBlockBranch | PBlockEmit | PBlockForEach | PBlockGroup | PBoxNew | PCapabilityNew | PExprCall
    | PExprConstruct | PExprDedup | PExprField | PExprFilter | PExprGroupBy | PExprList | PExprLiteral
    | PExprMap | PExprMeasure | PExprProject | PExprRecord | PExprResource | PExprSort | PExprTake
    | PExprTemplate | PExprToJson | PExprTruncate | PExprVariable | PFormatAdkMessages | PFormatJson
    | PFormatMedia | PFormatText | PKindProjection | PKindSubprogram | PMapFrom | POpGt | POpGte | POpLt
    | POpLte | POpNe | PPredAll | PPredAny | PPredCompare | PPredContains | PPredEqual | PPredNegate
    | PPredPresent | PRoleData | PRoleInstruction | PStrategyNew | PStrategyNewV2 | PTypeBoolean | PTypeNumber
    | PTypeText | PUnitBytes | PUnitItems | PUnitMedia | POther(text: string)

  /** The struct literals of types: a variant with its one field. */
  datatype Shape = ListItem | RecordFields | MediaType | NamedName | OtherShape(text: string)

  datatype MethodName = DefineType | Require | AddCapability | WithProgram | OtherMethod(text: string)

  /** JSON literals as tokens; integers carry their suffix. */
  datatype JsonTerm =
    | JNull
    | JBool(b: bool)
    | JSigned(i: int)
    | JUnsigned(i: int)
    | JFloat(r: Finite)
    | JText(s: string)
    | JArray(items: seq<JsonTerm>)
    | JObject(members: seq<Member>)

  datatype Member = Member(name: string, value: JsonTerm)

  datatype Term =
    | PathTo(path: Path)
    | TextLit(text: string)
    | BoolLit(b: bool)
    | SizeLit(n: nat)
    | Into(text: string)
    | Invoke(path: Path, args: seq<Term>)
    | StructOf(shape: Shape, value: Term)
    | ArrayOf(items: seq<Term>)
    | Pair(first: Term, second: Term)
    | Borrow(inner: Term)
    | VecOf(items: seq<Term>)
    | JsonOf(json: JsonTerm)

  /** A builder: a constructor call followed by method calls. */
  datatype Method = Method(name: MethodName, args: seq<Term>)
  datatype Builder = Builder(constructor_: Term, methods: seq<Method>)

  /** The ascending listing of names in which ordered maps are walked. */
  type Names = set<string> -> seq<string>

  ghost predicate Lists(names: Names) {
    forall s: set<string> :: Listing(names(s), s)
  }

  ghost predicate Listing(list: seq<string>, s: set<string>) {
    (forall x :: x in list <==> x in s) && forall i, j | 0 <= i < j < |list| :: list[i] != list[j]
  }

  // ----- Printers -----

  function PrintJson(v: Json, names: Names): JsonTerm
    decreases v, 1
  {
    match v
    case Null => JNull
    case Bool(b) => JBool(b)
    case Numeric(Int(i)) => if i < 0x8000_0000_0000_0000 then JSigned(i) else JUnsigned(i)
    case Numeric(Float(r)) => JFloat(r)
    case Str(s) => JText(s)
    case Arr(items) => JArray(seq(|items|, i requires 0 <= i < |items| => PrintJson(items[i], names)))
    case Obj(fields) => JObject(PrintMembers(v, names(fields.Keys), names))
  }

  function PrintMembers(v: Json, list: seq<string>, names: Names): seq<Member>
    requires v.Obj?
    decreases v, 0, |list|
  {
    if list == [] then []
    else if list[0] in v.fields then [Member(list[0], PrintJson(v.fields[list[0]], names))] + PrintMembers(v, list[1..], names)
    else PrintMembers(v, list[1..], names)
  }

  function PairsTerm(pairs: seq<Term>): Term {
    Invoke(PMapFrom, [ArrayOf(pairs)])
  }

  function PrintType(t: DataType, names: Names): Term
    decreases t, 1
  {
    match t
    case Boolean => PathTo(PTypeBoolean)
    case Number => PathTo(PTypeNumber)
    case Text => PathTo(PTypeText)
    case List(item) => StructOf(ListItem, Invoke(PBoxNew, [PrintType(item, names)]))
    case Record(fields) => StructOf(RecordFields, PairsTerm(PrintFields(t, names(fields.Keys), names)))
    case Media(m) => StructOf(MediaType, Into(m))
    case Named(n) => StructOf(NamedName, Into(n))
  }

  function PrintFields(t: DataType, list: seq<string>, names: Names): seq<Term>
    requires t.Record?
    decreases t, 0, |list|
  {
    if list == [] then []
    else if list[0] in t.fields then [Pair(Into(list[0]), PrintType(t.fields[list[0]], names))] + PrintFields(t, list[1..], names)
    else PrintFields(t, list[1..], names)
  }

  function UnitPath(u: Unit): Path {
    match u
    case Bytes => PUnitBytes
    case Items => PUnitItems
    case MediaCount => PUnitMedia
  }

  function ComparisonPath(c: Comparison): Path {
    match c
    case Lt => POpLt
    case Lte => POpLte
    case Gt => POpGt
    case Gte => POpGte
    case Ne => POpNe
  }

  function KindPath(k: LibraryKind): Path {
    match k
    case Projection => PKindProjection
    case Subprogram => PKindSubprogram
  }

  function RolePath(r: Role): Path {
    match r
    case Instruction => PRoleInstruction
    case Data => PRoleData
  }

  function FormatPath(f: Format): Path {
    match f
    case AsText => PFormatText
    case AsJson => PFormatJson
    case AsMedia => PFormatMedia
    case AsMessages => PFormatAdkMessages
  }

  function TextLits(ss: seq<string>): seq<Term> {
    seq(|ss|, i requires 0 <= i < |ss| => TextLit(ss[i]))
  }

  function PrintUnary(op: UnaryOp, value: Term): Term {
    match op
    case Construct(name) => Invoke(PExprConstruct, [TextLit(name), value])
    case Take(count) => Invoke(PExprTake, [value, SizeLit(count)])
    case Truncate(count) => Invoke(PExprTruncate, [value, SizeLit(count)])
    case ToJson => Invoke(PExprToJson, [value])
    case Measure(unit) => Invoke(PExprMeasure, [value, PathTo(UnitPath(unit))])
    case FieldOf(field) => Invoke(PExprField, [value, TextLit(field)])
    case Project(fields) => Invoke(PExprProject, [value, Borrow(ArrayOf(TextLits(fields)))])
  }

  function PrintKeyed(op: KeyedOp, value: Term, item: string, key: Term): Term {
    match op
    case MapOp => Invoke(PExprMap, [value, TextLit(item), key])
    case GroupOp => Invoke(PExprGroupBy, [value, TextLit(item), key])
    case DedupOp => Invoke(PExprDedup, [value, TextLit(item), key])
    case SortOp(descending) => Invoke(PExprSort, [value, TextLit(item), key, BoolLit(descending)])
  }

  function PrintExpr(e: Expr, names: Names): Term
    decreases e, 1
  {
    match e
    case Variable(name) => Invoke(PExprVariable, [TextLit(name)])
    case Resource(name) => Invoke(PExprResource, [TextLit(name)])
    case Literal(t, json) => Invoke(PExprLiteral, [PrintType(t, names), JsonOf(PrintJson(json, names))])
    case Unary(op, value) => PrintUnary(op, PrintExpr(value, names))
    case Filter(value, item, condition) =>
      Invoke(PExprFilter, [PrintExpr(value, names), TextLit(item), PrintPred(condition, names)])
    case Keyed(op, value, item, key) => PrintKeyed(op, PrintExpr(value, names), item, PrintExpr(key, names))
    case Build(ListOf(t), args) => Invoke(PExprList, [PrintType(t, names), VecOf(PrintValues(args, names))])
    case Build(RecordOf, args) => Invoke(PExprRecord, [PairsTerm(PrintArgs(args, names))])
    case Build(Template(text), args) => Invoke(PExprTemplate, [TextLit(text), PairsTerm(PrintArgs(args, names))])
    case Call(key, args) =>
      Invoke(PExprCall, [PathTo(KindPath(key.kind)), TextLit(key.name), PairsTerm(PrintArgs(args, names))])
  }

  function PrintValues(args: seq<Arg>, names: Names): (r: seq<Term>)
    ensures |r| == |args|
    decreases args, 0
  {
    if args == [] then [] else [PrintExpr(args[0].value, names)] + PrintValues(args[1..], names)
  }

  function PrintArgs(args: seq<Arg>, names: Names): (r: seq<Term>)
    ensures |r| == |args|
    decreases args, 0
  {
    if args == [] then [] else [Pair(Into(args[0].name), PrintExpr(args[0].value, names))] + PrintArgs(args[1..], names)
  }

  function PrintPred(p: Pred, names: Names): Term
    decreases p, 1
  {
    match p
    case Compare(left, op, right) =>
      Invoke(PPredCompare, [PrintExpr(left, names), PathTo(ComparisonPath(op)), PrintExpr(right, names)])
    case Contains(value, element) => Invoke(PPredContains, [PrintExpr(value, names), PrintExpr(element, names)])
    case Present(value) => Invoke(PPredPresent, [PrintExpr(value, names)])
    case Eq(left, right) => Invoke(PPredEqual, [PrintExpr(left, names), PrintExpr(right, names)])
    case And(items) => Invoke(PPredAll, [VecOf(PrintPreds(items, names))])
    case Or(items) => Invoke(PPredAny, [VecOf(PrintPreds(items, names))])
    case Not(item) => Invoke(PPredNegate, [PrintPred(item, names)])
  }

  function PrintPreds(ps: seq<Pred>, names: Names): (r: seq<Term>)
    ensures |r| == |ps|
    decreases ps, 0
  {
    if ps == [] then [] else [PrintPred(ps[0], names)] + PrintPreds(ps[1..], names)
  }

  function PrintBlock(b: Block, names: Names): Term
    decreases b, 1
  {
    match b
    case ForEach(id, value, item, items) =>
      Invoke(PBlockForEach, [TextLit(id), PrintExpr(value, names), TextLit(item), PrintBlocks(items, names)])
    case Group(id, title, items) => Invoke(PBlockGroup, [TextLit(id), TextLit(title), PrintBlocks(items, names)])
    case Emit(id, role, format, value) =>
      Invoke(PBlockEmit, [TextLit(id), PathTo(RolePath(role)), PathTo(FormatPath(format)), PrintExpr(value, names)])
    case If(id, condition, yes, no) =>
      Invoke(PBlockBranch, [TextLit(id), PrintPred(condition, names), PrintBlocks(yes, names), PrintBlocks(no, names)])
  }

  function PrintBlocks(blocks: seq<Block>, names: Names): Term
    decreases blocks, 1
  {
    VecOf(PrintBlockList(blocks, names))
  }

  function PrintBlockList(blocks: seq<Block>, names: Names): (r: seq<Term>)
    ensures |r| == |blocks|
    decreases blocks, 0
  {
    if blocks == [] then [] else [PrintBlock(blocks[0], names)] + PrintBlockList(blocks[1..], names)
  }

  function PrintDeclared(method_: MethodName, types: map<string, DataType>, list: seq<string>, names: Names): seq<Method> {
    if list == [] then []
    else if list[0] in types then
      [Method(method_, [TextLit(list[0]), PrintType(types[list[0]], names)])] + PrintDeclared(method_, types, list[1..], names)
    else PrintDeclared(method_, types, list[1..], names)
  }

  function PrintCapabilities(cs: seq<Capability>, names: Names): seq<Method> {
    if cs == [] then []
    else [Method(AddCapability, [Invoke(PCapabilityNew,
            [TextLit(cs[0].id), PrintType(cs[0].input, names), PrintType(cs[0].output, names)])])]
         + PrintCapabilities(cs[1..], names)
  }

  /** The builder chain of a strategy. */
  function PrintStrategy(s: Strategy, names: Names): Builder {
    Builder(Invoke(if s.version == 2 then PStrategyNewV2 else PStrategyNew, [TextLit(s.id), TextLit(s.name)]),
      PrintDeclared(DefineType, s.types, names(s.types.Keys), names)
      + PrintDeclared(Require, s.requirements, names(s.requirements.Keys), names)
      + PrintCapabilities(s.capabilities, names)
      + [Method(WithProgram, [PrintBlocks(s.program, names)])])
  }
}
