/** The typing rules of the context language, stated without the checker's traversal state:
    no node or depth limits, no list of functions already visited. */
module Typing {
  import opened Base
  import opened Types
  import opened Syntax

  /** What a linked program is checked against. */
  datatype Linked = Linked(types: Registry, requirements: map<string, DataType>, library: Library)

  type Scope = map<string, DataType>

  /** The item type of a list expression's type. */
  function ItemType(g: Linked, t: Option<DataType>): Option<DataType> {
    if t.None? then None
    else
      var r := Resolved(t.value, g.types);
      if r.Some? && r.value.List? then Some(r.value.item) else None
  }

  /** The type of an operation on a value of type `t`. */
  ghost function UnaryType(g: Linked, op: UnaryOp, t: DataType): Option<DataType> {
    var r := Resolved(t, g.types);
    if r.None? then None else
    match op
    case Construct(name) =>
      var target := Resolved(Named(name), g.types);
      if TypeOk(Named(name), g.types) && target.Some? && Compatible(r.value, target.value, g.types)
      then Some(Named(name)) else None
    case Take(_) => if r.value.List? then Some(t) else None
    case Truncate(_) => if r.value == Text then Some(Text) else None
    case ToJson => Some(Text)
    case Measure(unit) => if Measurable(g, r.value, unit) then Some(Number) else None
    case FieldOf(field) => if r.value.Record? && field in r.value.fields then Some(r.value.fields[field]) else None
    case Project(selected) =>
      if r.value.Record? && selected != []
        && (forall i | 0 <= i < |selected| :: selected[i] in r.value.fields)
        && (forall i, j | 0 <= i < j < |selected| :: selected[i] != selected[j])
      then Some(Record(map k | k in selected :: r.value.fields[k])) else None
  }

  predicate Measurable(g: Linked, r: DataType, unit: Unit) {
    match unit
    case Bytes => true
    case Items => r.List?
    case MediaCount => r.Media? || (r.List? && var i := Resolved(r.item, g.types); i.Some? && i.value.Media?)
  }

  function KeyedType(g: Linked, op: KeyedOp, ty: DataType, result: DataType): Option<DataType> {
    match op
    case MapOp => Some(List(result))
    case GroupOp => Some(List(Record(map["key" := result, "items" := List(ty)])))
    case DedupOp => Some(List(ty))
    case SortOp(_) =>
      var r := Resolved(result, g.types);
      if r == Some(Text) || r == Some(Number) then Some(List(ty)) else None
  }

  /** A later argument of the same name would win, as when filling a map. */
  function FieldsOf(args: seq<Arg>, ts: seq<DataType>): map<string, DataType>
    requires |ts| == |args|
  {
    if args == [] then map[]
    else
      var n := |args| - 1;
      FieldsOf(args[..n], ts[..n])[args[n].name := ts[n]]
  }

  ghost function BuildType(g: Linked, op: BuildOp, args: seq<Arg>, ts: seq<DataType>): Option<DataType>
    requires |ts| == |args|
  {
    match op
    case RecordOf => Some(Record(FieldsOf(args, ts)))
    case ListOf(itemType) =>
      if TypeOk(itemType, g.types) && forall i | 0 <= i < |ts| :: Compatible(ts[i], itemType, g.types)
      then Some(List(itemType)) else None
    case Template(text) =>
      var parts := TemplateParts(text);
      if parts.Some? && Holes(parts.value) == ArgNames(args)
        && forall i | 0 <= i < |ts| :: Resolved(ts[i], g.types) == Some(Text)
      then Some(Text) else None
  }

  ghost function CallType(g: Linked, key: Key, args: seq<Arg>, ts: seq<DataType>): Option<DataType>
    requires |ts| == |args|
  {
    if key in g.library && TypeOk(g.library[key].output, g.types)
      && ArgNames(args) == g.library[key].parameters.Keys
      && forall i | 0 <= i < |ts| ::
           args[i].name in g.library[key].parameters
           && Compatible(ts[i], g.library[key].parameters[args[i].name], g.types)
    then Some(g.library[key].output) else None
  }

  /** The type of `e`, or nothing when `e` is not well typed. */
  ghost function Infer(g: Linked, scope: Scope, inFunction: bool, e: Expr): Option<DataType>
    decreases e
  {
    match e
    case Variable(name) => if name in scope then Some(scope[name]) else None
    case Resource(name) =>
      if !inFunction && name in g.requirements then Some(g.requirements[name]) else None
    case Literal(dataType, json) =>
      if TypeOk(dataType, g.types) && Inhabits(json, dataType, g.types) then Some(dataType) else None
    case Unary(op, value) =>
      var t := Infer(g, scope, inFunction, value);
      if t.None? then None else UnaryType(g, op, t.value)
    case Filter(value, item, condition) =>
      var ty := ItemType(g, Infer(g, scope, inFunction, value));
      if ValidId(item) && ty.Some? && PredOk(g, scope[item := ty.value], inFunction, condition)
      then Some(List(ty.value)) else None
    case Keyed(op, value, item, key) =>
      var ty := ItemType(g, Infer(g, scope, inFunction, value));
      if !ValidId(item) || ty.None? then None else
      var result := Infer(g, scope[item := ty.value], inFunction, key);
      if result.None? then None else KeyedType(g, op, ty.value, result.value)
    case Build(op, args) =>
      if exists i | 0 <= i < |args| :: Infer(g, scope, inFunction, args[i].value).None? then None
      else BuildType(g, op, args, ArgTypes(g, scope, inFunction, args))
    case Call(key, args) =>
      if exists i | 0 <= i < |args| :: Infer(g, scope, inFunction, args[i].value).None? then None
      else CallType(g, key, args, ArgTypes(g, scope, inFunction, args))
  }

  ghost function ArgTypes(g: Linked, scope: Scope, inFunction: bool, args: seq<Arg>): (ts: seq<DataType>)
    requires forall i | 0 <= i < |args| :: Infer(g, scope, inFunction, args[i].value).Some?
    ensures |ts| == |args|
    ensures forall i | 0 <= i < |args| :: Some(ts[i]) == Infer(g, scope, inFunction, args[i].value)
    decreases args
  {
    if args == [] then []
    else [Infer(g, scope, inFunction, args[0].value).value] + ArgTypes(g, scope, inFunction, args[1..])
  }

  ghost predicate PredOk(g: Linked, scope: Scope, inFunction: bool, p: Pred)
    decreases p
  {
    match p
    case Compare(left, op, right) =>
      var l := Infer(g, scope, inFunction, left);
      l.Some? && l == Infer(g, scope, inFunction, right)
      && (op == Ne || Resolved(l.value, g.types) == Some(Number))
    case Contains(value, element) =>
      var v, i := Infer(g, scope, inFunction, value), Infer(g, scope, inFunction, element);
      v.Some? && i.Some? &&
      var r := Resolved(v.value, g.types);
      r.Some? && ((r.value == Text && i.value == Text) || r.value == List(i.value))
    case Present(value) => Infer(g, scope, inFunction, value).Some?
    case Eq(left, right) =>
      var l := Infer(g, scope, inFunction, left);
      l.Some? && l == Infer(g, scope, inFunction, right)
    case And(items) => items != [] && forall i | 0 <= i < |items| :: PredOk(g, scope, inFunction, items[i])
    case Or(items) => items != [] && forall i | 0 <= i < |items| :: PredOk(g, scope, inFunction, items[i])
    case Not(item) => PredOk(g, scope, inFunction, item)
  }

  /** The representation of a fragment agrees with the type of its value. */
  predicate FormatOk(g: Linked, t: DataType, format: Format) {
    var r := Resolved(t, g.types);
    r.Some? &&
    match format
    case AsText => r.value == Text
    case AsJson => !r.value.Media?
    case AsMedia => r.value.Media?
    case AsMessages => r.value.List? && var i := Resolved(r.value.item, g.types); i.Some? && i.value.Record?
  }

  ghost predicate BlockOk(g: Linked, scope: Scope, b: Block)
    decreases b
  {
    !Blank(b.id) &&
    match b
    case ForEach(_, value, item, items) =>
      var ty := ItemType(g, Infer(g, scope, false, value));
      ValidId(item) && ty.Some? && forall i | 0 <= i < |items| :: BlockOk(g, scope[item := ty.value], items[i])
    case Group(_, title, items) => !Blank(title) && forall i | 0 <= i < |items| :: BlockOk(g, scope, items[i])
    case Emit(_, role, format, value) =>
      var t := Infer(g, scope, false, value);
      (role == Instruction ==> format == AsText) && t.Some? && FormatOk(g, t.value, format)
    case If(_, condition, yes, no) =>
      && PredOk(g, scope, false, condition)
      && (forall i | 0 <= i < |yes| :: BlockOk(g, scope, yes[i]))
      && (forall i | 0 <= i < |no| :: BlockOk(g, scope, no[i]))
  }

  ghost predicate BlocksOk(g: Linked, scope: Scope, blocks: seq<Block>) {
    forall i | 0 <= i < |blocks| :: BlockOk(g, scope, blocks[i])
  }

  ghost predicate FunctionOk(g: Linked, f: Function) {
    && (forall p | p in f.parameters :: ValidId(p) && TypeOk(f.parameters[p], g.types))
    && TypeOk(f.output, g.types)
    && var actual := Infer(g, f.parameters, true, f.body);
       actual.Some? && Compatible(actual.value, f.output, g.types)
  }

  predicate ScopeWf(g: Linked, scope: Scope) {
    forall x | x in scope :: Wf(scope[x], g.types)
  }

  ghost predicate LinkedWf(g: Linked) {
    forall r | r in g.requirements :: TypeOk(g.requirements[r], g.types)
  }

  lemma UnaryTypeWf(g: Linked, op: UnaryOp, t: DataType)
    requires Wf(t, g.types) && UnaryType(g, op, t).Some?
    ensures Wf(UnaryType(g, op, t).value, g.types)
  {
    ResolvedMeans(Null, t, g.types);
    if op.Construct? { TypeOkWf(Named(op.name), g.types); }
  }

  lemma {:induction false} FieldsOfWf(g: Linked, args: seq<Arg>, ts: seq<DataType>)
    requires |ts| == |args| && forall i | 0 <= i < |ts| :: Wf(ts[i], g.types)
    ensures Wf(Record(FieldsOf(args, ts)), g.types)
  {
    if args != [] {
      var n := |args| - 1;
      FieldsOfWf(g, args[..n], ts[..n]);
    }
  }

  /** Every inferred type is well formed, although it may be deeper than a validated one. */
  lemma {:induction false} InferWf(g: Linked, scope: Scope, inFunction: bool, e: Expr)
    requires LinkedWf(g) && ScopeWf(g, scope) && Infer(g, scope, inFunction, e).Some?
    ensures Wf(Infer(g, scope, inFunction, e).value, g.types)
    decreases e, 0
  {
    var t := Infer(g, scope, inFunction, e).value;
    match e
    case Variable(_) =>
    case Resource(_) => TypeOkWf(t, g.types);
    case Literal(_, _) => TypeOkWf(t, g.types);
    case Unary(op, value) =>
      InferWf(g, scope, inFunction, value);
      UnaryTypeWf(g, op, Infer(g, scope, inFunction, value).value);
    case Filter(value, _, _) => ItemTypeWf(g, scope, inFunction, value);
    case Keyed(op, value, item, key) =>
      ItemTypeWf(g, scope, inFunction, value);
      var ty := ItemType(g, Infer(g, scope, inFunction, value)).value;
      InferWf(g, scope[item := ty], inFunction, key);
    case Build(op, args) =>
      var ts := ArgTypes(g, scope, inFunction, args);
      forall i | 0 <= i < |args| ensures Wf(ts[i], g.types) { InferWf(g, scope, inFunction, args[i].value); }
      FieldsOfWf(g, args, ts);
      if op.ListOf? { TypeOkWf(op.itemType, g.types); }
    case Call(key, _) => TypeOkWf(t, g.types);
  }

  lemma {:induction false} ItemTypeWf(g: Linked, scope: Scope, inFunction: bool, e: Expr)
    requires LinkedWf(g) && ScopeWf(g, scope) && ItemType(g, Infer(g, scope, inFunction, e)).Some?
    ensures Wf(ItemType(g, Infer(g, scope, inFunction, e)).value, g.types)
    decreases e, 1
  {
    InferWf(g, scope, inFunction, e);
    ResolvedMeans(Null, Infer(g, scope, inFunction, e).value, g.types);
  }
}
