/** The parser of printed strategies (rust/crates/zf-context/src/context_source.rs, `strategy` and the
    `parse_*` functions): it accepts only the documented constructors, counts nesting as it goes, and
    refuses repeated names. */
module SourceParser {
  import opened Base
  import opened Types
  import opened Syntax
  import opened SourceTerms

  const MAX_NESTING := 64
  const MAX_METHODS := 4096

  // ----- Pieces -----

  function TextOf(t: Term): Option<string> {
    if t.TextLit? then Some(t.text) else None
  }

  /** The pairs of a literal map. */
  function PairTerms(t: Term): Option<seq<Term>> {
    if t.Invoke? && t.path == PMapFrom && |t.args| == 1 && t.args[0].ArrayOf? then Some(t.args[0].items) else None
  }

  function AllTexts(ts: seq<Term>): Option<seq<string>> {
    if ts == [] then Some([])
    else
      var first, rest := TextOf(ts[0]), AllTexts(ts[1..]);
      if first.None? || rest.None? then None else Some([first.value] + rest.value)
  }

  function Put<T>(m: map<string, T>, k: string, v: T): Option<map<string, T>> {
    if k in m then None else Some(m[k := v])
  }

  /** Named arguments in key order. */
  function ListArgs(m: map<string, Expr>, list: seq<string>): seq<Arg> {
    if list == [] then []
    else if list[0] in m then [Arg(list[0], m[list[0]])] + ListArgs(m, list[1..])
    else ListArgs(m, list[1..])
  }

  // ----- JSON -----

  function ParseJson(t: JsonTerm, depth: nat): Option<Json>
    decreases t, 1
  {
    if depth > MAX_NESTING then None else
    match t
    case JNull => Some(Null)
    case JBool(b) => Some(Bool(b))
    case JSigned(i) => if -0x8000_0000_0000_0000 <= i < 0x8000_0000_0000_0000 then Some(Numeric(Int(i))) else None
    case JUnsigned(i) => if 0 <= i < WORD then Some(Numeric(Int(i))) else None
    case JFloat(r) => Some(Numeric(Float(r)))
    case JText(s) => Some(Str(s))
    case JArray(items) =>
      var vs := ParseJsons(items, 0, depth + 1, []);
      if vs.None? then None else Some(Arr(vs.value))
    case JObject(members) =>
      var m := ParseMembers(members, 0, depth + 1, map[]);
      if m.None? then None else Some(Obj(m.value))
  }

  function ParseJsons(ts: seq<JsonTerm>, i: nat, depth: nat, done: seq<Json>): Option<seq<Json>>
    requires i <= |ts|
    decreases ts, 0, |ts| - i
  {
    if i == |ts| then Some(done)
    else
      var v := ParseJson(ts[i], depth);
      if v.None? then None else ParseJsons(ts, i + 1, depth, done + [v.value])
  }

  function ParseMember(m: Member, depth: nat): Option<Json>
    decreases m, 2
  {
    ParseJson(m.value, depth)
  }

  function ParseMembers(ps: seq<Member>, i: nat, depth: nat, done: map<string, Json>): Option<map<string, Json>>
    requires i <= |ps|
    decreases ps, 0, |ps| - i
  {
    if i == |ps| then Some(done)
    else
      var v := ParseMember(ps[i], depth);
      if v.None? then None
      else
        var next := Put(done, ps[i].name, v.value);
        if next.None? then None else ParseMembers(ps, i + 1, depth, next.value)
  }

  // ----- Types -----

  function ParseType(t: Term, depth: nat): Option<DataType>
    decreases t, 1
  {
    if depth > MAX_NESTING then None
    else if t == PathTo(PTypeBoolean) then Some(Boolean)
    else if t == PathTo(PTypeNumber) then Some(Number)
    else if t == PathTo(PTypeText) then Some(DataType.Text)
    else if !t.StructOf? then None
    else if t.shape == ListItem then
      if t.value.Invoke? && t.value.path == PBoxNew && |t.value.args| == 1 then
        var item := ParseType(t.value.args[0], depth + 1);
        if item.None? then None else Some(DataType.List(item.value))
      else None
    else if t.shape == MediaType then
      if t.value.Into? then Some(Media(t.value.text)) else None
    else if t.shape == NamedName then
      if t.value.Into? then Some(Named(t.value.text)) else None
    else if t.shape == RecordFields then
      if t.value.Invoke? && t.value.path == PMapFrom && |t.value.args| == 1 && t.value.args[0].ArrayOf? then
        var fields := ParseFields(t.value.args[0].items, 0, depth + 1, map[]);
        if fields.None? then None else Some(Record(fields.value))
      else None
    else None
  }

  function ParseField(t: Term, depth: nat): Option<DataType>
    requires t.Pair?
    decreases t, 2
  {
    ParseType(t.second, depth)
  }

  function ParseFields(ts: seq<Term>, i: nat, depth: nat, done: map<string, DataType>): Option<map<string, DataType>>
    requires i <= |ts|
    decreases ts, 0, |ts| - i
  {
    if i == |ts| then Some(done)
    else if !ts[i].Pair? || !ts[i].first.Into? then None
    else
      var v := ParseField(ts[i], depth);
      if v.None? then None
      else
        var next := Put(done, ts[i].first.text, v.value);
        if next.None? then None else ParseFields(ts, i + 1, depth, next.value)
  }

  // ----- Expressions -----

  function ParseUnit(t: Term): Option<Unit> {
    if t == PathTo(PUnitBytes) then Some(Bytes)
    else if t == PathTo(PUnitItems) then Some(Items)
    else if t == PathTo(PUnitMedia) then Some(MediaCount)
    else None
  }

  function ParseKind(t: Term): Option<LibraryKind> {
    if t == PathTo(PKindProjection) then Some(Projection)
    else if t == PathTo(PKindSubprogram) then Some(Subprogram)
    else None
  }

  function ParseComparison(t: Term): Option<Comparison> {
    if t == PathTo(POpLt) then Some(Lt)
    else if t == PathTo(POpLte) then Some(Lte)
    else if t == PathTo(POpGt) then Some(Gt)
    else if t == PathTo(POpGte) then Some(Gte)
    else if t == PathTo(POpNe) then Some(Ne)
    else None
  }

  function ParseRole(t: Term): Option<Role> {
    if t == PathTo(PRoleInstruction) then Some(Instruction)
    else if t == PathTo(PRoleData) then Some(Data)
    else None
  }

  function ParseFormat(t: Term): Option<Format> {
    if t == PathTo(PFormatText) then Some(AsText)
    else if t == PathTo(PFormatJson) then Some(AsJson)
    else if t == PathTo(PFormatMedia) then Some(AsMedia)
    else if t == PathTo(PFormatAdkMessages) then Some(AsMessages)
    else None
  }

  /** The operation of a call with one evaluated operand, and the position of that operand. */
  function ParseUnaryOp(t: Term): Option<(UnaryOp, nat)>
    requires t.Invoke?
    ensures ParseUnaryOp(t).Some? ==> ParseUnaryOp(t).value.1 < |t.args|
  {
    var n := |t.args|;
    if t.path == PExprConstruct then
      if n == 2 && t.args[0].TextLit? then Some((Construct(t.args[0].text), 1)) else None
    else if t.path == PExprTake then
      if n == 2 && t.args[1].SizeLit? then Some((Take(t.args[1].n), 0)) else None
    else if t.path == PExprTruncate then
      if n == 2 && t.args[1].SizeLit? then Some((Truncate(t.args[1].n), 0)) else None
    else if t.path == PExprToJson then
      if n == 1 then Some((ToJson, 0)) else None
    else if t.path == PExprMeasure then
      if n == 2 && ParseUnit(t.args[1]).Some? then Some((Measure(ParseUnit(t.args[1]).value), 0)) else None
    else if t.path == PExprField then
      if n == 2 && t.args[1].TextLit? then Some((FieldOf(t.args[1].text), 0)) else None
    else if t.path == PExprProject then
      if n == 2 && t.args[1].Borrow? && t.args[1].inner.ArrayOf? && AllTexts(t.args[1].inner.items).Some?
      then Some((Project(AllTexts(t.args[1].inner.items).value), 0)) else None
    else None
  }

  /** The operation of a call with a list, a variable and a key. */
  function ParseKeyedOp(t: Term): Option<KeyedOp>
    requires t.Invoke?
    ensures ParseKeyedOp(t).Some? ==> |t.args| >= 3 && t.args[1].TextLit?
  {
    var n := |t.args|;
    if n == 3 && t.args[1].TextLit? && t.path == PExprMap then Some(MapOp)
    else if n == 3 && t.args[1].TextLit? && t.path == PExprGroupBy then Some(GroupOp)
    else if n == 3 && t.args[1].TextLit? && t.path == PExprDedup then Some(DedupOp)
    else if n == 4 && t.args[1].TextLit? && t.args[3].BoolLit? && t.path == PExprSort then Some(SortOp(t.args[3].b))
    else None
  }

  function ParseExpr(t: Term, depth: nat, names: Names): Option<Expr>
    decreases t, 2
  {
    if depth > MAX_NESTING || !t.Invoke? then None
    else if ParseUnaryOp(t).Some? then
      var (op, k) := ParseUnaryOp(t).value;
      var value := ParseExpr(t.args[k], depth + 1, names);
      if value.None? then None else Some(Unary(op, value.value))
    else if ParseKeyedOp(t).Some? then
      var value, key := ParseExpr(t.args[0], depth + 1, names), ParseExpr(t.args[2], depth + 1, names);
      if value.None? || key.None? then None else Some(Keyed(ParseKeyedOp(t).value, value.value, t.args[1].text, key.value))
    else if t.path == PExprVariable then
      if |t.args| == 1 && t.args[0].TextLit? then Some(Variable(t.args[0].text)) else None
    else if t.path == PExprResource then
      if |t.args| == 1 && t.args[0].TextLit? then Some(Resource(t.args[0].text)) else None
    else if t.path == PExprLiteral then
      if |t.args| == 2 && t.args[1].JsonOf? then
        var ty, json := ParseType(t.args[0], 0), ParseJson(t.args[1].json, 0);
        if ty.None? || json.None? then None else Some(Literal(ty.value, json.value))
      else None
    else if t.path == PExprFilter then
      if |t.args| == 3 && t.args[1].TextLit? then
        var value, condition := ParseExpr(t.args[0], depth + 1, names), ParsePred(t.args[2], depth + 1, names);
        if value.None? || condition.None? then None else Some(Filter(value.value, t.args[1].text, condition.value))
      else None
    else if t.path == PExprList then
      if |t.args| == 2 && t.args[1].VecOf? then
        var ty, items := ParseType(t.args[0], 0), ParseExprs(t.args[1].items, 0, depth + 1, [], names);
        if ty.None? || items.None? then None else Some(Build(ListOf(ty.value), items.value))
      else None
    else if t.path == PExprRecord then
      if |t.args| == 1 then
        var args := ParseArgs(t.args[0], depth + 1, names);
        if args.None? then None else Some(Build(RecordOf, args.value))
      else None
    else if t.path == PExprTemplate then
      if |t.args| == 2 && t.args[0].TextLit? then
        var args := ParseArgs(t.args[1], depth + 1, names);
        if args.None? then None else Some(Build(Template(t.args[0].text), args.value))
      else None
    else if t.path == PExprCall then
      if |t.args| == 3 && ParseKind(t.args[0]).Some? && t.args[1].TextLit? then
        var args := ParseArgs(t.args[2], depth + 1, names);
        if args.None? then None else Some(Call(Key(ParseKind(t.args[0]).value, t.args[1].text), args.value))
      else None
    else None
  }

  /** Named arguments: the literal map counts as a level of its own. */
  function ParseArgs(t: Term, depth: nat, names: Names): Option<seq<Arg>>
    decreases t, 1
  {
    if depth > MAX_NESTING || PairTerms(t).None? then None
    else
      var m := ParsePairs(t.args[0].items, 0, depth + 1, map[], names);
      if m.None? then None else Some(ListArgs(m.value, names(m.value.Keys)))
  }

  function ParseNamed(t: Term, depth: nat, names: Names): Option<Expr>
    requires t.Pair?
    decreases t, 2
  {
    ParseExpr(t.second, depth, names)
  }

  function ParsePairs(ts: seq<Term>, i: nat, depth: nat, done: map<string, Expr>, names: Names): Option<map<string, Expr>>
    requires i <= |ts|
    decreases ts, 0, |ts| - i
  {
    if i == |ts| then Some(done)
    else if !ts[i].Pair? || !ts[i].first.Into? then None
    else
      var v := ParseNamed(ts[i], depth, names);
      if v.None? then None
      else
        var next := Put(done, ts[i].first.text, v.value);
        if next.None? then None else ParsePairs(ts, i + 1, depth, next.value, names)
  }

  function ParseExprs(ts: seq<Term>, i: nat, depth: nat, done: seq<Arg>, names: Names): Option<seq<Arg>>
    requires i <= |ts|
    decreases ts, 0, |ts| - i
  {
    if i == |ts| then Some(done)
    else
      var v := ParseExpr(ts[i], depth, names);
      if v.None? then None else ParseExprs(ts, i + 1, depth, done + [Arg("", v.value)], names)
  }

  function ParsePred(t: Term, depth: nat, names: Names): Option<Pred>
    decreases t, 2
  {
    if depth > MAX_NESTING || !t.Invoke? then None
    else if t.path == PPredCompare then
      if |t.args| == 3 && ParseComparison(t.args[1]).Some? then
        var l, r := ParseExpr(t.args[0], depth + 1, names), ParseExpr(t.args[2], depth + 1, names);
        if l.None? || r.None? then None else Some(Compare(l.value, ParseComparison(t.args[1]).value, r.value))
      else None
    else if t.path == PPredContains then
      if |t.args| == 2 then
        var l, r := ParseExpr(t.args[0], depth + 1, names), ParseExpr(t.args[1], depth + 1, names);
        if l.None? || r.None? then None else Some(Contains(l.value, r.value))
      else None
    else if t.path == PPredPresent then
      if |t.args| == 1 then
        var v := ParseExpr(t.args[0], depth + 1, names);
        if v.None? then None else Some(Present(v.value))
      else None
    else if t.path == PPredEqual then
      if |t.args| == 2 then
        var l, r := ParseExpr(t.args[0], depth + 1, names), ParseExpr(t.args[1], depth + 1, names);
        if l.None? || r.None? then None else Some(Eq(l.value, r.value))
      else None
    else if t.path == PPredAll || t.path == PPredAny then
      if |t.args| == 1 && t.args[0].VecOf? then
        var items := ParsePreds(t.args[0].items, 0, depth + 1, [], names);
        if items.None? then None else if t.path == PPredAll then Some(And(items.value)) else Some(Or(items.value))
      else None
    else if t.path == PPredNegate then
      if |t.args| == 1 then
        var v := ParsePred(t.args[0], depth + 1, names);
        if v.None? then None else Some(Not(v.value))
      else None
    else None
  }

  function ParsePreds(ts: seq<Term>, i: nat, depth: nat, done: seq<Pred>, names: Names): Option<seq<Pred>>
    requires i <= |ts|
    decreases ts, 0, |ts| - i
  {
    if i == |ts| then Some(done)
    else
      var v := ParsePred(ts[i], depth, names);
      if v.None? then None else ParsePreds(ts, i + 1, depth, done + [v.value], names)
  }

  // ----- Blocks -----

  /** A list of blocks, which counts as a level even when empty. */
  function ParseBlocks(t: Term, depth: nat, names: Names): Option<seq<Block>>
    decreases t, 1
  {
    if depth > MAX_NESTING || !t.VecOf? then None else ParseBlockList(t.items, 0, depth, [], names)
  }

  function ParseBlockList(ts: seq<Term>, i: nat, depth: nat, done: seq<Block>, names: Names): Option<seq<Block>>
    requires i <= |ts|
    decreases ts, 0, |ts| - i
  {
    if i == |ts| then Some(done)
    else
      var b := ParseBlock(ts[i], depth, names);
      if b.None? then None else ParseBlockList(ts, i + 1, depth, done + [b.value], names)
  }

  function ParseBlock(t: Term, depth: nat, names: Names): Option<Block>
    decreases t, 2
  {
    if !t.Invoke? || t.args == [] || !t.args[0].TextLit? then None
    else if t.path == PBlockGroup then
      if |t.args| == 3 && t.args[1].TextLit? then
        var items := ParseBlocks(t.args[2], depth + 1, names);
        if items.None? then None else Some(Group(t.args[0].text, t.args[1].text, items.value))
      else None
    else if t.path == PBlockForEach then
      if |t.args| == 4 && t.args[2].TextLit? then
        var value, items := ParseExpr(t.args[1], depth + 1, names), ParseBlocks(t.args[3], depth + 1, names);
        if value.None? || items.None? then None else Some(ForEach(t.args[0].text, value.value, t.args[2].text, items.value))
      else None
    else if t.path == PBlockEmit then
      if |t.args| == 4 && ParseRole(t.args[1]).Some? && ParseFormat(t.args[2]).Some? then
        var value := ParseExpr(t.args[3], depth + 1, names);
        if value.None? then None
        else Some(Emit(t.args[0].text, ParseRole(t.args[1]).value, ParseFormat(t.args[2]).value, value.value))
      else None
    else if t.path == PBlockBranch then
      if |t.args| == 4 then
        var condition := ParsePred(t.args[1], depth + 1, names);
        var yes, no := ParseBlocks(t.args[2], depth + 1, names), ParseBlocks(t.args[3], depth + 1, names);
        if condition.None? || yes.None? || no.None? then None
        else Some(If(t.args[0].text, condition.value, yes.value, no.value))
      else None
    else None
  }

  // ----- Strategies -----

  function ParseCapability(t: Term): Option<Capability> {
    if t.Invoke? && t.path == PCapabilityNew && |t.args| == 3 && t.args[0].TextLit? then
      var input, output := ParseType(t.args[1], 0), ParseType(t.args[2], 0);
      if input.None? || output.None? then None else Some(Capability(t.args[0].text, input.value, output.value))
    else None
  }

  /** One builder method; nothing may follow the program. */
  function ParseMethod(m: Method, s: Strategy, done: bool, names: Names): Option<(Strategy, bool)> {
    if done then None
    else if (m.name == DefineType || m.name == Require) && |m.args| == 2 && m.args[0].TextLit? then
      var t := ParseType(m.args[1], 0);
      if t.None? then None
      else if m.name == DefineType then
        var types := Put(s.types, m.args[0].text, t.value);
        if types.None? then None else Some((s.(types := types.value), false))
      else
        var requirements := Put(s.requirements, m.args[0].text, t.value);
        if requirements.None? then None else Some((s.(requirements := requirements.value), false))
    else if m.name == AddCapability && |m.args| == 1 then
      var c := ParseCapability(m.args[0]);
      if c.None? then None else Some((s.(capabilities := s.capabilities + [c.value]), false))
    else if m.name == WithProgram && |m.args| == 1 then
      var program := ParseBlocks(m.args[0], 0, names);
      if program.None? then None else Some((s.(program := program.value), true))
    else None
  }

  function ParseMethods(ms: seq<Method>, i: nat, s: Strategy, done: bool, names: Names): Option<(Strategy, bool)>
    requires i <= |ms|
    decreases |ms| - i
  {
    if i == |ms| then Some((s, done))
    else
      var next := ParseMethod(ms[i], s, done, names);
      if next.None? then None else ParseMethods(ms, i + 1, next.value.0, next.value.1, names)
  }

  function Empty(t: Term): Option<Strategy> {
    if t.Invoke? && |t.args| == 2 && t.args[0].TextLit? && t.args[1].TextLit? then
      if t.path == PStrategyNewV2 then Some(Strategy(2, t.args[0].text, t.args[1].text, map[], map[], [], []))
      else if t.path == PStrategyNew then Some(Strategy(1, t.args[0].text, t.args[1].text, map[], map[], [], []))
      else None
    else None
  }

  function ParsedStrategy(b: Builder, names: Names): Option<Strategy> {
    var s := Empty(b.constructor_);
    if |b.methods| > MAX_METHODS || s.None? then None
    else
      var r := ParseMethods(b.methods, 0, s.value, false, names);
      if r.None? || !r.value.1 then None else Some(r.value.0)
  }

  /** The loop over the builder's methods. */
  method ParseStrategy(b: Builder, names: Names) returns (s: Option<Strategy>)
    ensures s == ParsedStrategy(b, names)
  {
    if |b.methods| > MAX_METHODS { return None; }
    var start := Empty(b.constructor_);
    if start.None? { return None; }
    var result, hasProgram := start.value, false;
    var i := 0;
    while i < |b.methods|
      invariant i <= |b.methods|
      invariant ParseMethods(b.methods, i, result, hasProgram, names) == ParseMethods(b.methods, 0, start.value, false, names)
    {
      var next := ParseMethod(b.methods[i], result, hasProgram, names);
      if next.None? { return None; }
      result, hasProgram := next.value.0, next.value.1;
      i := i + 1;
    }
    s := if hasProgram then Some(result) else None;
  }
}
