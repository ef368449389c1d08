/** What printed sources mean to Rust: the values that the constructors and builder methods of the
    context language make of their arguments (rust/crates/zf-context/src/context.rs). The parser of
    SourceParser.dfy never runs them, and reads the same. */
module Constructors {
  import opened Base
  import opened Types
  import opened Syntax
  import opened SourceTerms
  import opened SourceParser
  import opened StrategyRoundTrip

  // ----- Values of literals -----

  /** The value of a `json!` literal whose integers fit their suffixes; the last of several equal names
      wins. */
  function JsonValue(t: JsonTerm): Option<Json>
    decreases t, 1
  {
    match t
    case JNull => Some(Null)
    case JBool(b) => Some(Bool(b))
    case JSigned(i) => if -0x8000_0000_0000_0000 <= i < 0x8000_0000_0000_0000 then Some(Numeric(Int(i))) else None
    case JUnsigned(i) => if 0 <= i < 0x1_0000_0000_0000_0000 then Some(Numeric(Int(i))) else None
    case JFloat(r) => Some(Numeric(Float(r)))
    case JText(s) => Some(Str(s))
    case JArray(items) =>
      var vs := JsonsValue(items);
      if vs.Some? then Some(Arr(vs.value)) else None
    case JObject(members) =>
      var fields := MembersValue(members);
      if fields.Some? then Some(Obj(fields.value)) else None
  }

  function JsonsValue(ts: seq<JsonTerm>): Option<seq<Json>>
    decreases ts, 0
  {
    if ts == [] then Some([])
    else
      var n := |ts| - 1;
      var before, last := JsonsValue(ts[..n]), JsonValue(ts[n]);
      if before.Some? && last.Some? then Some(before.value + [last.value]) else None
  }

  function MembersValue(ms: seq<Member>): Option<map<string, Json>>
    decreases ms, 0
  {
    if ms == [] then Some(map[])
    else
      var n := |ms| - 1;
      var before, last := MembersValue(ms[..n]), MemberValue(ms[n]);
      if before.Some? && last.Some? then Some(before.value[ms[n].name := last.value]) else None
  }

  function MemberValue(m: Member): Option<Json>
    decreases m, 2
  {
    JsonValue(m.value)
  }

  function TypeValue(t: Term): Option<DataType>
    decreases t, 1
  {
    match t
    case PathTo(PTypeBoolean) => Some(Boolean)
    case PathTo(PTypeNumber) => Some(Number)
    case PathTo(PTypeText) => Some(DataType.Text)
    case StructOf(ListItem, value) =>
      if value.Invoke? && value.path == PBoxNew && |value.args| == 1 then
        var item := TypeValue(value.args[0]);
        if item.Some? then Some(DataType.List(item.value)) else None
      else None
    case StructOf(MediaType, Into(text)) => Some(Media(text))
    case StructOf(NamedName, Into(text)) => Some(Named(text))
    case StructOf(RecordFields, value) =>
      if value.Invoke? && value.path == PMapFrom && |value.args| == 1 && value.args[0].ArrayOf? then
        var fields := FieldsValue(value.args[0].items);
        if fields.Some? then Some(Record(fields.value)) else None
      else None
    case _ => None
  }

  /** A map from an array of pairs; the last of several equal keys wins. */
  function FieldsValue(ts: seq<Term>): Option<map<string, DataType>>
    decreases ts, 0
  {
    if ts == [] then Some(map[])
    else
      var n := |ts| - 1;
      var before, last := FieldsValue(ts[..n]), FieldValue(ts[n]);
      if before.Some? && last.Some? && ts[n].Pair? && ts[n].first.Into? then Some(before.value[ts[n].first.text := last.value]) else None
  }

  function FieldValue(t: Term): Option<DataType>
    decreases t, 2
  {
    if t.Pair? then TypeValue(t.second) else None
  }

  // ----- Constructors of expressions and conditions -----

  function UnitValue(t: Term): Option<Unit> {
    match t
    case PathTo(PUnitBytes) => Some(Bytes)
    case PathTo(PUnitItems) => Some(Items)
    case PathTo(PUnitMedia) => Some(MediaCount)
    case _ => None
  }

  function KindValue(t: Term): Option<LibraryKind> {
    match t
    case PathTo(PKindProjection) => Some(Projection)
    case PathTo(PKindSubprogram) => Some(Subprogram)
    case _ => None
  }

  function ComparisonValue(t: Term): Option<Comparison> {
    match t
    case PathTo(POpLt) => Some(Lt)
    case PathTo(POpLte) => Some(Lte)
    case PathTo(POpGt) => Some(Gt)
    case PathTo(POpGte) => Some(Gte)
    case PathTo(POpNe) => Some(Ne)
    case _ => None
  }

  function RoleValue(t: Term): Option<Role> {
    match t
    case PathTo(PRoleInstruction) => Some(Instruction)
    case PathTo(PRoleData) => Some(Data)
    case _ => None
  }

  function FormatValue(t: Term): Option<Format> {
    match t
    case PathTo(PFormatText) => Some(AsText)
    case PathTo(PFormatJson) => Some(AsJson)
    case PathTo(PFormatMedia) => Some(AsMedia)
    case PathTo(PFormatAdkMessages) => Some(AsMessages)
    case _ => None
  }

  function TextsValue(ts: seq<Term>): Option<seq<string>> {
    if forall i | 0 <= i < |ts| :: ts[i].TextLit? then Some(seq(|ts|, i requires 0 <= i < |ts| => ts[i].text)) else None
  }

  /** The constructors of operations on one operand, and the position of the operand. */
  function OperationValue(t: Term): (r: Option<(UnaryOp, nat)>)
    requires t.Invoke?
    ensures r.Some? ==> r.value.1 < |t.args|
  {
    match t.path
    case PExprConstruct => if |t.args| == 2 && t.args[0].TextLit? then Some((Construct(t.args[0].text), 1)) else None
    case PExprTake => if |t.args| == 2 && t.args[1].SizeLit? then Some((Take(t.args[1].n), 0)) else None
    case PExprTruncate => if |t.args| == 2 && t.args[1].SizeLit? then Some((Truncate(t.args[1].n), 0)) else None
    case PExprToJson => if |t.args| == 1 then Some((ToJson, 0)) else None
    case PExprMeasure =>
      if |t.args| == 2 && UnitValue(t.args[1]).Some? then Some((Measure(UnitValue(t.args[1]).value), 0)) else None
    case PExprField => if |t.args| == 2 && t.args[1].TextLit? then Some((FieldOf(t.args[1].text), 0)) else None
    case PExprProject =>
      if |t.args| == 2 && t.args[1].Borrow? && t.args[1].inner.ArrayOf? && TextsValue(t.args[1].inner.items).Some?
      then Some((Project(TextsValue(t.args[1].inner.items).value), 0)) else None
    case _ => None
  }

  /** The constructors of operations with a variable and a key. */
  function KeyedValue(t: Term): (r: Option<KeyedOp>)
    requires t.Invoke?
    ensures r.Some? ==> |t.args| >= 3 && t.args[1].TextLit?
  {
    if |t.args| < 3 || !t.args[1].TextLit? then None else
    match t.path
    case PExprMap => if |t.args| == 3 then Some(MapOp) else None
    case PExprGroupBy => if |t.args| == 3 then Some(GroupOp) else None
    case PExprDedup => if |t.args| == 3 then Some(DedupOp) else None
    case PExprSort => if |t.args| == 4 && t.args[3].BoolLit? then Some(SortOp(t.args[3].b)) else None
    case _ => None
  }

  /** The constructors of `ContextExpr`, by name. */
  function ExprValue(t: Term, names: Names): Option<Expr>
    decreases t, 2
  {
    if !t.Invoke? then None
    else if OperationValue(t).Some? then
      var (op, k) := OperationValue(t).value;
      var value := ExprValue(t.args[k], names);
      if value.Some? then Some(Unary(op, value.value)) else None
    else if KeyedValue(t).Some? then
      var value, key := ExprValue(t.args[0], names), ExprValue(t.args[2], names);
      if value.Some? && key.Some? then Some(Keyed(KeyedValue(t).value, value.value, t.args[1].text, key.value)) else None
    else
    match t.path
    case PExprVariable => if |t.args| == 1 && t.args[0].TextLit? then Some(Variable(t.args[0].text)) else None
    case PExprResource => if |t.args| == 1 && t.args[0].TextLit? then Some(Resource(t.args[0].text)) else None
    case PExprLiteral =>
      if |t.args| == 2 && TypeValue(t.args[0]).Some? && t.args[1].JsonOf? && JsonValue(t.args[1].json).Some?
      then Some(Literal(TypeValue(t.args[0]).value, JsonValue(t.args[1].json).value)) else None
    case PExprFilter =>
      if |t.args| == 3 && t.args[1].TextLit? then
        var value, condition := ExprValue(t.args[0], names), PredValue(t.args[2], names);
        if value.Some? && condition.Some? then Some(Filter(value.value, t.args[1].text, condition.value)) else None
      else None
    case PExprList =>
      if |t.args| == 2 && TypeValue(t.args[0]).Some? && t.args[1].VecOf? then
        var items := ExprsValue(t.args[1].items, names);
        if items.Some? then Some(Build(ListOf(TypeValue(t.args[0]).value), items.value)) else None
      else None
    case PExprRecord =>
      if |t.args| == 1 then
        var args := ArgsValue(t.args[0], names);
        if args.Some? then Some(Build(RecordOf, args.value)) else None
      else None
    case PExprTemplate =>
      if |t.args| == 2 && t.args[0].TextLit? then
        var args := ArgsValue(t.args[1], names);
        if args.Some? then Some(Build(Template(t.args[0].text), args.value)) else None
      else None
    case PExprCall =>
      if |t.args| == 3 && KindValue(t.args[0]).Some? && t.args[1].TextLit? then
        var args := ArgsValue(t.args[2], names);
        if args.Some? then Some(Call(Key(KindValue(t.args[0]).value, t.args[1].text), args.value)) else None
      else None
    case _ => None
  }

  /** Named arguments: a map from an array of pairs, walked in key order. */
  function ArgsValue(t: Term, names: Names): Option<seq<Arg>>
    decreases t, 1
  {
    if PairTerms(t).None? then None
    else
      var m := PairsValue(t.args[0].items, names);
      if m.Some? then Some(ListArgs(m.value, names(m.value.Keys))) else None
  }

  function PairsValue(ts: seq<Term>, names: Names): Option<map<string, Expr>>
    decreases ts, 0
  {
    if ts == [] then Some(map[])
    else
      var n := |ts| - 1;
      var before, last := PairsValue(ts[..n], names), PairValue(ts[n], names);
      if before.Some? && last.Some? && ts[n].Pair? && ts[n].first.Into? then Some(before.value[ts[n].first.text := last.value]) else None
  }

  function PairValue(t: Term, names: Names): Option<Expr>
    decreases t, 3
  {
    if t.Pair? then ExprValue(t.second, names) else None
  }

  function ExprsValue(ts: seq<Term>, names: Names): Option<seq<Arg>>
    decreases ts, 0
  {
    if ts == [] then Some([])
    else
      var n := |ts| - 1;
      var before, last := ExprsValue(ts[..n], names), ExprValue(ts[n], names);
      if before.Some? && last.Some? then Some(before.value + [Arg("", last.value)]) else None
  }

  /** The constructors of `ContextPredicate`, by name. */
  function PredValue(t: Term, names: Names): Option<Pred>
    decreases t, 2
  {
    if !t.Invoke? then None else
    match t.path
    case PPredCompare =>
      if |t.args| == 3 && ComparisonValue(t.args[1]).Some? then
        var l, r := ExprValue(t.args[0], names), ExprValue(t.args[2], names);
        if l.Some? && r.Some? then Some(Compare(l.value, ComparisonValue(t.args[1]).value, r.value)) else None
      else None
    case PPredContains =>
      if |t.args| == 2 then
        var l, r := ExprValue(t.args[0], names), ExprValue(t.args[1], names);
        if l.Some? && r.Some? then Some(Contains(l.value, r.value)) else None
      else None
    case PPredPresent =>
      if |t.args| == 1 && ExprValue(t.args[0], names).Some? then Some(Present(ExprValue(t.args[0], names).value)) else None
    case PPredEqual =>
      if |t.args| == 2 then
        var l, r := ExprValue(t.args[0], names), ExprValue(t.args[1], names);
        if l.Some? && r.Some? then Some(Eq(l.value, r.value)) else None
      else None
    case PPredAll =>
      if |t.args| == 1 && t.args[0].VecOf? then
        var ps := PredsValue(t.args[0].items, names);
        if ps.Some? then Some(And(ps.value)) else None
      else None
    case PPredAny =>
      if |t.args| == 1 && t.args[0].VecOf? then
        var ps := PredsValue(t.args[0].items, names);
        if ps.Some? then Some(Or(ps.value)) else None
      else None
    case PPredNegate =>
      if |t.args| == 1 && PredValue(t.args[0], names).Some? then Some(Not(PredValue(t.args[0], names).value)) else None
    case _ => None
  }

  function PredsValue(ts: seq<Term>, names: Names): Option<seq<Pred>>
    decreases ts, 0
  {
    if ts == [] then Some([])
    else
      var n := |ts| - 1;
      var before, last := PredsValue(ts[..n], names), PredValue(ts[n], names);
      if before.Some? && last.Some? then Some(before.value + [last.value]) else None
  }

  // ----- Blocks and strategies -----

  /** The constructors of `ContextBlock`, by name. */
  function BlockValue(t: Term, names: Names): Option<Block>
    decreases t, 2
  {
    if !t.Invoke? || t.args == [] || !t.args[0].TextLit? then None else
    var id := t.args[0].text;
    match t.path
    case PBlockGroup =>
      if |t.args| == 3 && t.args[1].TextLit? then
        var items := BlocksValue(t.args[2], names);
        if items.Some? then Some(Group(id, t.args[1].text, items.value)) else None
      else None
    case PBlockForEach =>
      if |t.args| == 4 && t.args[2].TextLit? then
        var value, items := ExprValue(t.args[1], names), BlocksValue(t.args[3], names);
        if value.Some? && items.Some? then Some(ForEach(id, value.value, t.args[2].text, items.value)) else None
      else None
    case PBlockEmit =>
      if |t.args| == 4 && RoleValue(t.args[1]).Some? && FormatValue(t.args[2]).Some? then
        var value := ExprValue(t.args[3], names);
        if value.Some? then Some(Emit(id, RoleValue(t.args[1]).value, FormatValue(t.args[2]).value, value.value)) else None
      else None
    case PBlockBranch =>
      if |t.args| == 4 then
        var condition, yes, no := PredValue(t.args[1], names), BlocksValue(t.args[2], names), BlocksValue(t.args[3], names);
        if condition.Some? && yes.Some? && no.Some? then Some(If(id, condition.value, yes.value, no.value)) else None
      else None
    case _ => None
  }

  function BlocksValue(t: Term, names: Names): Option<seq<Block>>
    decreases t, 1
  {
    if t.VecOf? then BlockListValue(t.items, names) else None
  }

  function BlockListValue(ts: seq<Term>, names: Names): Option<seq<Block>>
    decreases ts, 0
  {
    if ts == [] then Some([])
    else
      var n := |ts| - 1;
      var before, last := BlockListValue(ts[..n], names), BlockValue(ts[n], names);
      if before.Some? && last.Some? then Some(before.value + [last.value]) else None
  }

  function CapabilityValue(t: Term): Option<Capability> {
    if t.Invoke? && t.path == PCapabilityNew && |t.args| == 3 && t.args[0].TextLit? then
      var input, output := TypeValue(t.args[1]), TypeValue(t.args[2]);
      if input.Some? && output.Some? then Some(Capability(t.args[0].text, input.value, output.value)) else None
    else None
  }

  /** A builder method; the last definition of a name and the last program win. */
  function MethodValue(m: Method, s: Strategy, names: Names): Option<Strategy> {
    match m.name
    case DefineType =>
      if |m.args| == 2 && m.args[0].TextLit? && TypeValue(m.args[1]).Some?
      then Some(s.(types := s.types[m.args[0].text := TypeValue(m.args[1]).value])) else None
    case Require =>
      if |m.args| == 2 && m.args[0].TextLit? && TypeValue(m.args[1]).Some?
      then Some(s.(requirements := s.requirements[m.args[0].text := TypeValue(m.args[1]).value])) else None
    case AddCapability =>
      if |m.args| == 1 && CapabilityValue(m.args[0]).Some?
      then Some(s.(capabilities := s.capabilities + [CapabilityValue(m.args[0]).value])) else None
    case WithProgram =>
      if |m.args| == 1 && BlocksValue(m.args[0], names).Some? then Some(s.(program := BlocksValue(m.args[0], names).value)) else None
    case OtherMethod(_) => None
  }

  function MethodsValue(ms: seq<Method>, s: Strategy, names: Names): Option<Strategy> {
    if ms == [] then Some(s)
    else
      var n := |ms| - 1;
      var before := MethodsValue(ms[..n], s, names);
      if before.Some? then MethodValue(ms[n], before.value, names) else None
  }

  /** What compiling and running the builder chain gives. */
  function StrategyValue(b: Builder, names: Names): Option<Strategy> {
    var t := b.constructor_;
    if t.Invoke? && |t.args| == 2 && t.args[0].TextLit? && t.args[1].TextLit? && (t.path == PStrategyNew || t.path == PStrategyNewV2)
    then MethodsValue(b.methods,
           Strategy(if t.path == PStrategyNew then 1 else 2, t.args[0].text, t.args[1].text, map[], map[], [], []), names)
    else None
  }

  // ----- The parser reads the same -----

  /** What was read is what it means. */
  predicate Same<T(==)>(read: Option<T>, value: Option<T>) { read.Some? ==> value == read }

  lemma {:induction false} JsonIsRead(t: JsonTerm, depth: nat)
    ensures Same(ParseJson(t, depth), JsonValue(t))
    decreases t, 1
  {
    if depth <= MAX_NESTING {
      match t
      case JArray(items) =>
        assert items[..0] == [] && items[..|items|] == items;
        JsonsAreRead(items, 0, depth + 1, []);
      case JObject(members) =>
        assert members[..0] == [] && members[..|members|] == members;
        MembersAreRead(members, 0, depth + 1, map[]);
      case _ =>
    }
  }

  lemma {:induction false} JsonsAreRead(ts: seq<JsonTerm>, i: nat, depth: nat, done: seq<Json>)
    requires i <= |ts| && JsonsValue(ts[..i]) == Some(done)
    ensures Same(ParseJsons(ts, i, depth, done), JsonsValue(ts[..|ts|]))
    decreases ts, 0, |ts| - i
  {
    if i < |ts| {
      assert ts[..i + 1][..i] == ts[..i];
      JsonIsRead(ts[i], depth);
      var v := ParseJson(ts[i], depth);
      if v.Some? { JsonsAreRead(ts, i + 1, depth, done + [v.value]); }
    }
  }

  lemma {:induction false} MembersAreRead(ms: seq<Member>, i: nat, depth: nat, done: map<string, Json>)
    requires i <= |ms| && MembersValue(ms[..i]) == Some(done)
    ensures Same(ParseMembers(ms, i, depth, done), MembersValue(ms[..|ms|]))
    decreases ms, 0, |ms| - i
  {
    if i < |ms| {
      assert ms[..i + 1][..i] == ms[..i];
      MemberIsRead(ms[i], depth);
      var v := ParseMember(ms[i], depth);
      if v.Some? && Put(done, ms[i].name, v.value).Some? {
        MembersAreRead(ms, i + 1, depth, done[ms[i].name := v.value]);
      }
    }
  }

  lemma {:induction false} MemberIsRead(m: Member, depth: nat)
    ensures Same(ParseMember(m, depth), MemberValue(m))
    decreases m, 2
  {
    JsonIsRead(m.value, depth);
  }

  lemma {:induction false} TypeIsRead(t: Term, depth: nat)
    ensures Same(ParseType(t, depth), TypeValue(t))
    decreases t, 1
  {
    if t.StructOf? && ParseType(t, depth).Some? {
      if t.shape == ListItem {
        TypeIsRead(t.value.args[0], depth + 1);
      } else if t.shape == RecordFields {
        var items := t.value.args[0].items;
        assert items[..0] == [] && items[..|items|] == items;
        FieldsAreRead(items, 0, depth + 1, map[]);
      }
    }
  }

  lemma {:induction false} FieldsAreRead(ts: seq<Term>, i: nat, depth: nat, done: map<string, DataType>)
    requires i <= |ts| && FieldsValue(ts[..i]) == Some(done)
    ensures Same(ParseFields(ts, i, depth, done), FieldsValue(ts[..|ts|]))
    decreases ts, 0, |ts| - i
  {
    if i < |ts| && ts[i].Pair? && ts[i].first.Into? {
      assert ts[..i + 1][..i] == ts[..i];
      FieldIsRead(ts[i], depth);
      var v := ParseField(ts[i], depth);
      if v.Some? && Put(done, ts[i].first.text, v.value).Some? {
        FieldsAreRead(ts, i + 1, depth, done[ts[i].first.text := v.value]);
      }
    }
  }

  lemma {:induction false} FieldIsRead(t: Term, depth: nat)
    requires t.Pair?
    ensures Same(ParseField(t, depth), FieldValue(t))
    decreases t, 2
  {
    TypeIsRead(t.second, depth);
  }

  predicate AreTexts(ts: seq<Term>, texts: seq<string>) {
    |texts| == |ts| && forall i | 0 <= i < |ts| :: ts[i].TextLit? && texts[i] == ts[i].text
  }

  lemma {:induction false} EachTextIsRead(ts: seq<Term>)
    ensures AllTexts(ts).Some? ==> AreTexts(ts, AllTexts(ts).value)
  {
    if ts != [] {
      EachTextIsRead(ts[1..]);
      var texts := AllTexts(ts);
      if texts.Some? {
        forall i | 0 <= i < |ts| ensures ts[i].TextLit? && texts.value[i] == ts[i].text {
          if i > 0 { assert ts[i] == ts[1..][i - 1]; }
        }
      }
    }
  }

  lemma TextsAreRead(ts: seq<Term>)
    ensures Same(AllTexts(ts), TextsValue(ts))
  {
    EachTextIsRead(ts);
    if AllTexts(ts).Some? {
      var a, b := AllTexts(ts).value, TextsValue(ts).value;
      assert forall i | 0 <= i < |ts| :: a[i] == b[i];
      assert a == b;
    }
  }

  // ----- Expressions -----

  lemma EnumerationsAreRead(t: Term)
    ensures Same(ParseUnit(t), UnitValue(t)) && Same(ParseKind(t), KindValue(t)) && Same(ParseComparison(t), ComparisonValue(t))
    ensures Same(ParseRole(t), RoleValue(t)) && Same(ParseFormat(t), FormatValue(t))
  {
  }

  lemma {:induction false} ExprIsRead(t: Term, depth: nat, names: Names)
    ensures Same(ParseExpr(t, depth, names), ExprValue(t, names))
    decreases t, 3
  {
    if ParseExpr(t, depth, names).Some? {
      if ParseUnaryOp(t).Some? {
        UnaryIsRead(t, depth, names);
      } else if ParseKeyedOp(t).Some? {
        KeyedIsRead(t, depth, names);
      } else if t.path == PExprFilter {
        ExprIsRead(t.args[0], depth + 1, names);
        PredIsRead(t.args[2], depth + 1, names);
      } else if t.path == PExprLiteral {
        TypeIsRead(t.args[0], 0);
        JsonIsRead(t.args[1].json, 0);
      } else {
        BuiltIsRead(t, depth, names);
      }
    }
  }

  lemma OperationIsRead(t: Term)
    requires t.Invoke?
    ensures Same(ParseUnaryOp(t), OperationValue(t)) && Same(ParseKeyedOp(t), KeyedValue(t))
  {
    if t.path == PExprMeasure && |t.args| == 2 { EnumerationsAreRead(t.args[1]); }
    if t.path == PExprProject && |t.args| == 2 && t.args[1].Borrow? && t.args[1].inner.ArrayOf? { TextsAreRead(t.args[1].inner.items); }
  }

  lemma {:induction false} UnaryIsRead(t: Term, depth: nat, names: Names)
    requires t.Invoke? && ParseUnaryOp(t).Some? && ParseExpr(t, depth, names).Some?
    ensures ExprValue(t, names) == ParseExpr(t, depth, names)
    decreases t, 1
  {
    var (op, k) := ParseUnaryOp(t).value;
    ExprIsRead(t.args[k], depth + 1, names);
    OperationIsRead(t);
  }

  lemma {:induction false} KeyedIsRead(t: Term, depth: nat, names: Names)
    requires t.Invoke? && ParseUnaryOp(t).None? && ParseKeyedOp(t).Some? && ParseExpr(t, depth, names).Some?
    ensures ExprValue(t, names) == ParseExpr(t, depth, names)
    decreases t, 1
  {
    ExprIsRead(t.args[0], depth + 1, names);
    ExprIsRead(t.args[2], depth + 1, names);
    OperationIsRead(t);
  }

  /** Variables, resources, lists, records, templates and calls. */
  lemma {:induction false} BuiltIsRead(t: Term, depth: nat, names: Names)
    requires t.Invoke? && ParseUnaryOp(t).None? && ParseKeyedOp(t).None? && ParseExpr(t, depth, names).Some?
    requires t.path != PExprFilter && t.path != PExprLiteral
    ensures ExprValue(t, names) == ParseExpr(t, depth, names)
    decreases t, 2
  {
    if t.path == PExprList {
      ListIsRead(t, depth, names);
    } else if t.path == PExprRecord {
      RecordIsRead(t, depth, names);
    } else if t.path == PExprTemplate {
      TemplateIsRead(t, depth, names);
    } else if t.path == PExprCall {
      CallIsRead(t, depth, names);
    } else {
      NameIsRead(t, depth, names);
    }
  }

  lemma NameIsRead(t: Term, depth: nat, names: Names)
    requires t.Invoke? && ParseUnaryOp(t).None? && ParseKeyedOp(t).None? && ParseExpr(t, depth, names).Some?
    requires t.path !in {PExprFilter, PExprLiteral, PExprList, PExprRecord, PExprTemplate, PExprCall}
    ensures ExprValue(t, names) == ParseExpr(t, depth, names)
  {
  }

  lemma {:induction false} RecordIsRead(t: Term, depth: nat, names: Names)
    requires t.Invoke? && t.path == PExprRecord && ParseUnaryOp(t).None? && ParseKeyedOp(t).None? && ParseExpr(t, depth, names).Some?
    ensures ExprValue(t, names) == ParseExpr(t, depth, names)
    decreases t, 1
  {
    ArgsAreRead(t.args[0], depth + 1, names);
  }

  lemma {:induction false} TemplateIsRead(t: Term, depth: nat, names: Names)
    requires t.Invoke? && t.path == PExprTemplate && ParseUnaryOp(t).None? && ParseKeyedOp(t).None? && ParseExpr(t, depth, names).Some?
    ensures ExprValue(t, names) == ParseExpr(t, depth, names)
    decreases t, 1
  {
    ArgsAreRead(t.args[1], depth + 1, names);
  }

  lemma {:induction false} ListIsRead(t: Term, depth: nat, names: Names)
    requires t.Invoke? && t.path == PExprList && ParseUnaryOp(t).None? && ParseKeyedOp(t).None? && ParseExpr(t, depth, names).Some?
    ensures ExprValue(t, names) == ParseExpr(t, depth, names)
    decreases t, 1
  {
    TypeIsRead(t.args[0], 0);
    var items := t.args[1].items;
    assert items[..0] == [] && items[..|items|] == items;
    ExprsAreRead(items, 0, depth + 1, [], names);
  }

  lemma {:induction false} CallIsRead(t: Term, depth: nat, names: Names)
    requires t.Invoke? && t.path == PExprCall && ParseUnaryOp(t).None? && ParseKeyedOp(t).None? && ParseExpr(t, depth, names).Some?
    ensures ExprValue(t, names) == ParseExpr(t, depth, names)
    decreases t, 1
  {
    EnumerationsAreRead(t.args[0]);
    ArgsAreRead(t.args[2], depth + 1, names);
  }

  lemma {:induction false} ArgsAreRead(t: Term, depth: nat, names: Names)
    ensures Same(ParseArgs(t, depth, names), ArgsValue(t, names))
    decreases t, 1
  {
    if ParseArgs(t, depth, names).Some? {
      var items := t.args[0].items;
      assert items[..0] == [] && items[..|items|] == items;
      PairsAreRead(items, 0, depth + 1, map[], names);
    }
  }

  lemma {:induction false} PairsAreRead(ts: seq<Term>, i: nat, depth: nat, done: map<string, Expr>, names: Names)
    requires i <= |ts| && PairsValue(ts[..i], names) == Some(done)
    ensures Same(ParsePairs(ts, i, depth, done, names), PairsValue(ts[..|ts|], names))
    decreases ts, 0, |ts| - i
  {
    if i < |ts| && ts[i].Pair? && ts[i].first.Into? {
      assert ts[..i + 1][..i] == ts[..i];
      PairIsRead(ts[i], depth, names);
      var v := ParseNamed(ts[i], depth, names);
      if v.Some? && Put(done, ts[i].first.text, v.value).Some? {
        PairsAreRead(ts, i + 1, depth, done[ts[i].first.text := v.value], names);
      }
    }
  }

  lemma {:induction false} PairIsRead(t: Term, depth: nat, names: Names)
    requires t.Pair?
    ensures Same(ParseNamed(t, depth, names), PairValue(t, names))
    decreases t, 4
  {
    ExprIsRead(t.second, depth, names);
  }

  lemma {:induction false} ExprsAreRead(ts: seq<Term>, i: nat, depth: nat, done: seq<Arg>, names: Names)
    requires i <= |ts| && ExprsValue(ts[..i], names) == Some(done)
    ensures Same(ParseExprs(ts, i, depth, done, names), ExprsValue(ts[..|ts|], names))
    decreases ts, 0, |ts| - i
  {
    if i < |ts| {
      assert ts[..i + 1][..i] == ts[..i];
      ExprIsRead(ts[i], depth, names);
      var v := ParseExpr(ts[i], depth, names);
      if v.Some? { ExprsAreRead(ts, i + 1, depth, done + [Arg("", v.value)], names); }
    }
  }

  lemma {:induction false} PredIsRead(t: Term, depth: nat, names: Names)
    ensures Same(ParsePred(t, depth, names), PredValue(t, names))
    decreases t, 2
  {
    if ParsePred(t, depth, names).Some? {
      if t.path == PPredCompare {
        EnumerationsAreRead(t.args[1]);
        ExprIsRead(t.args[0], depth + 1, names);
        ExprIsRead(t.args[2], depth + 1, names);
      } else if t.path == PPredContains || t.path == PPredEqual {
        ExprIsRead(t.args[0], depth + 1, names);
        ExprIsRead(t.args[1], depth + 1, names);
      } else if t.path == PPredPresent {
        ExprIsRead(t.args[0], depth + 1, names);
      } else if t.path == PPredNegate {
        PredIsRead(t.args[0], depth + 1, names);
      } else {
        var items := t.args[0].items;
        assert items[..0] == [] && items[..|items|] == items;
        PredsAreRead(items, 0, depth + 1, [], names);
      }
    }
  }

  lemma {:induction false} PredsAreRead(ts: seq<Term>, i: nat, depth: nat, done: seq<Pred>, names: Names)
    requires i <= |ts| && PredsValue(ts[..i], names) == Some(done)
    ensures Same(ParsePreds(ts, i, depth, done, names), PredsValue(ts[..|ts|], names))
    decreases ts, 0, |ts| - i
  {
    if i < |ts| {
      assert ts[..i + 1][..i] == ts[..i];
      PredIsRead(ts[i], depth, names);
      var v := ParsePred(ts[i], depth, names);
      if v.Some? { PredsAreRead(ts, i + 1, depth, done + [v.value], names); }
    }
  }

  // ----- Blocks and strategies -----

  lemma {:induction false} BlockIsRead(t: Term, depth: nat, names: Names)
    ensures Same(ParseBlock(t, depth, names), BlockValue(t, names))
    decreases t, 2
  {
    if ParseBlock(t, depth, names).Some? {
      if t.path == PBlockGroup {
        BlocksAreRead(t.args[2], depth + 1, names);
      } else if t.path == PBlockForEach {
        ExprIsRead(t.args[1], depth + 1, names);
        BlocksAreRead(t.args[3], depth + 1, names);
      } else if t.path == PBlockEmit {
        EnumerationsAreRead(t.args[1]);
        EnumerationsAreRead(t.args[2]);
        ExprIsRead(t.args[3], depth + 1, names);
      } else {
        PredIsRead(t.args[1], depth + 1, names);
        BlocksAreRead(t.args[2], depth + 1, names);
        BlocksAreRead(t.args[3], depth + 1, names);
      }
    }
  }

  lemma {:induction false} BlocksAreRead(t: Term, depth: nat, names: Names)
    ensures Same(ParseBlocks(t, depth, names), BlocksValue(t, names))
    decreases t, 1
  {
    if ParseBlocks(t, depth, names).Some? {
      assert t.items[..0] == [] && t.items[..|t.items|] == t.items;
      BlockListIsRead(t.items, 0, depth, [], names);
    }
  }

  lemma {:induction false} BlockListIsRead(ts: seq<Term>, i: nat, depth: nat, done: seq<Block>, names: Names)
    requires i <= |ts| && BlockListValue(ts[..i], names) == Some(done)
    ensures Same(ParseBlockList(ts, i, depth, done, names), BlockListValue(ts[..|ts|], names))
    decreases ts, 0, |ts| - i
  {
    if i < |ts| {
      assert ts[..i + 1][..i] == ts[..i];
      BlockIsRead(ts[i], depth, names);
      var b := ParseBlock(ts[i], depth, names);
      if b.Some? { BlockListIsRead(ts, i + 1, depth, done + [b.value], names); }
    }
  }

  lemma MethodIsRead(m: Method, s: Strategy, done: bool, names: Names)
    requires ParseMethod(m, s, done, names).Some?
    ensures MethodValue(m, s, names) == Some(ParseMethod(m, s, done, names).value.0)
  {
    if m.name == DefineType || m.name == Require {
      TypeIsRead(m.args[1], 0);
    } else if m.name == AddCapability {
      TypeIsRead(m.args[0].args[1], 0);
      TypeIsRead(m.args[0].args[2], 0);
    } else {
      BlocksAreRead(m.args[0], 0, names);
    }
  }

  lemma {:induction false} MethodsAreRead(ms: seq<Method>, i: nat, start: Strategy, s: Strategy, done: bool, names: Names)
    requires i <= |ms| && MethodsValue(ms[..i], start, names) == Some(s)
    ensures var r := ParseMethods(ms, i, s, done, names);
      r.Some? ==> MethodsValue(ms[..|ms|], start, names) == Some(r.value.0)
    decreases |ms| - i
  {
    if i < |ms| {
      assert ms[..i + 1][..i] == ms[..i];
      var next := ParseMethod(ms[i], s, done, names);
      if next.Some? {
        MethodIsRead(ms[i], s, done, names);
        MethodsAreRead(ms, i + 1, start, next.value.0, next.value.1, names);
      }
    }
  }

  /** Whatever strategy the parser reads from a builder chain, compiling and running the chain gives the
      same. */
  lemma ParsedIsBuilt(b: Builder, names: Names)
    ensures ParsedStrategy(b, names).Some? ==> StrategyValue(b, names) == ParsedStrategy(b, names)
  {
    var s := Empty(b.constructor_);
    if ParsedStrategy(b, names).Some? {
      assert b.methods[..0] == [] && b.methods[..|b.methods|] == b.methods;
      MethodsAreRead(b.methods, 0, s.value, s.value, false, names);
    }
  }

  /** A generated source that the parser accepts is a Rust program that builds the strategy it was
      generated from. */
  lemma GeneratedSourceBuilds(s: Strategy, names: Names)
    requires Lists(names) && TidyStrategy(s, names) && (s.version == 1 || s.version == 2) && StrategyFits(s)
    ensures StrategyValue(PrintStrategy(s, names), names) == Some(s)
  {
    StrategyReturns(s, names);
    ParsedIsBuilt(PrintStrategy(s, names), names);
  }
}
