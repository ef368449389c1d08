/** Printing a strategy and parsing it back gives the same strategy, exactly when the parser's own
    nesting measure stays within its limit. */
module RoundTrip {
  import opened Base
  import opened Syntax
  import opened SourceTerms
  import opened SourceParser
  import opened LiteralRoundTrip

  // ----- The nesting measure -----

  /** Levels that the parser counts below an expression: two for every named argument, one for every
      other operand. */
  function Levels(e: Expr): nat
    decreases e, 1
  {
    match e
    case Unary(_, value) => 1 + Levels(value)
    case Filter(value, _, condition) => 1 + Max(Levels(value), PredLevels(condition))
    case Keyed(_, value, _, key) => 1 + Max(Levels(value), Levels(key))
    case Build(ListOf(_), args) => ArgLevels(args)
    case Build(_, args) => 1 + ArgLevels(args)
    case Call(_, args) => 1 + ArgLevels(args)
    case _ => 0
  }

  function ArgLevels(args: seq<Arg>): nat
    decreases args, 0
  {
    if args == [] then 0 else Max(1 + Levels(args[0].value), ArgLevels(args[1..]))
  }

  function PredLevels(p: Pred): nat
    decreases p, 1
  {
    match p
    case Compare(left, _, right) => 1 + Max(Levels(left), Levels(right))
    case Contains(value, element) => 1 + Max(Levels(value), Levels(element))
    case Present(value) => 1 + Levels(value)
    case Eq(left, right) => 1 + Max(Levels(left), Levels(right))
    case And(items) => AllPredLevels(items)
    case Or(items) => AllPredLevels(items)
    case Not(item) => 1 + PredLevels(item)
  }

  function AllPredLevels(ps: seq<Pred>): nat
    decreases ps, 0
  {
    if ps == [] then 0 else Max(1 + PredLevels(ps[0]), AllPredLevels(ps[1..]))
  }

  function BlockLevels(b: Block): nat
    decreases b, 1
  {
    match b
    case ForEach(_, value, _, items) => 1 + Max(Levels(value), AllBlockLevels(items))
    case Group(_, _, items) => 1 + AllBlockLevels(items)
    case Emit(_, _, _, value) => 1 + Levels(value)
    case If(_, condition, yes, no) => 1 + Max(PredLevels(condition), Max(AllBlockLevels(yes), AllBlockLevels(no)))
  }

  function AllBlockLevels(blocks: seq<Block>): nat
    decreases blocks, 0
  {
    if blocks == [] then 0 else Max(BlockLevels(blocks[0]), AllBlockLevels(blocks[1..]))
  }

  /** Every type and every JSON literal fits its own limit. */
  predicate LiteralsFit(e: Expr)
    decreases e
  {
    match e
    case Literal(t, json) => TypeFits(t, 0) && JsonFits(json, 0)
    case Unary(_, value) => LiteralsFit(value)
    case Filter(value, _, condition) => LiteralsFit(value) && PredLiteralsFit(condition)
    case Keyed(_, value, _, key) => LiteralsFit(value) && LiteralsFit(key)
    case Build(op, args) => (op.ListOf? ==> TypeFits(op.itemType, 0)) && forall i | 0 <= i < |args| :: LiteralsFit(args[i].value)
    case Call(_, args) => forall i | 0 <= i < |args| :: LiteralsFit(args[i].value)
    case _ => true
  }

  predicate PredLiteralsFit(p: Pred)
    decreases p
  {
    match p
    case Compare(left, _, right) => LiteralsFit(left) && LiteralsFit(right)
    case Contains(value, element) => LiteralsFit(value) && LiteralsFit(element)
    case Present(value) => LiteralsFit(value)
    case Eq(left, right) => LiteralsFit(left) && LiteralsFit(right)
    case And(items) => forall i | 0 <= i < |items| :: PredLiteralsFit(items[i])
    case Or(items) => forall i | 0 <= i < |items| :: PredLiteralsFit(items[i])
    case Not(item) => PredLiteralsFit(item)
  }

  predicate BlockLiteralsFit(b: Block)
    decreases b
  {
    match b
    case ForEach(_, value, _, items) => LiteralsFit(value) && forall i | 0 <= i < |items| :: BlockLiteralsFit(items[i])
    case Group(_, _, items) => forall i | 0 <= i < |items| :: BlockLiteralsFit(items[i])
    case Emit(_, _, _, value) => LiteralsFit(value)
    case If(_, condition, yes, no) =>
      && PredLiteralsFit(condition) && (forall i | 0 <= i < |yes| :: BlockLiteralsFit(yes[i]))
      && forall i | 0 <= i < |no| :: BlockLiteralsFit(no[i])
  }

  // ----- Ordered maps as lists -----

  function NamesOf(args: seq<Arg>): seq<string> {
    seq(|args|, i requires 0 <= i < |args| => args[i].name)
  }

  /** The list is that of an ordered map: each name once, in order. */
  ghost predicate Listed(args: seq<Arg>, names: Names) {
    NamesOf(args) == names(ArgNames(args))
  }

  /** Argument lists are those that ordered maps and vectors give. */
  ghost predicate Tidy(e: Expr, names: Names)
    decreases e
  {
    match e
    case Unary(_, value) => Tidy(value, names)
    case Filter(value, _, condition) => Tidy(value, names) && TidyPred(condition, names)
    case Keyed(_, value, _, key) => Tidy(value, names) && Tidy(key, names)
    case Build(op, args) =>
      && (if op.ListOf? then forall i | 0 <= i < |args| :: args[i].name == "" else Listed(args, names))
      && forall i | 0 <= i < |args| :: Tidy(args[i].value, names)
    case Call(_, args) => Listed(args, names) && forall i | 0 <= i < |args| :: Tidy(args[i].value, names)
    case _ => true
  }

  ghost predicate TidyPred(p: Pred, names: Names)
    decreases p
  {
    match p
    case Compare(left, _, right) => Tidy(left, names) && Tidy(right, names)
    case Contains(value, element) => Tidy(value, names) && Tidy(element, names)
    case Present(value) => Tidy(value, names)
    case Eq(left, right) => Tidy(left, names) && Tidy(right, names)
    case And(items) => forall i | 0 <= i < |items| :: TidyPred(items[i], names)
    case Or(items) => forall i | 0 <= i < |items| :: TidyPred(items[i], names)
    case Not(item) => TidyPred(item, names)
  }

  ghost predicate TidyBlock(b: Block, names: Names)
    decreases b
  {
    match b
    case ForEach(_, value, _, items) => Tidy(value, names) && forall i | 0 <= i < |items| :: TidyBlock(items[i], names)
    case Group(_, _, items) => forall i | 0 <= i < |items| :: TidyBlock(items[i], names)
    case Emit(_, _, _, value) => Tidy(value, names)
    case If(_, condition, yes, no) =>
      && TidyPred(condition, names) && (forall i | 0 <= i < |yes| :: TidyBlock(yes[i], names))
      && forall i | 0 <= i < |no| :: TidyBlock(no[i], names)
  }

  // ----- What each printed constructor parses to -----

  predicate Fits_(e: Expr, depth: nat) { depth + Levels(e) <= MAX_NESTING && LiteralsFit(e) }

  predicate PredFits(p: Pred, depth: nat) { depth + PredLevels(p) <= MAX_NESTING && PredLiteralsFit(p) }

  /** The expression parses back from depth `depth` exactly when it fits there. */
  ghost predicate Returns(e: Expr, depth: nat, names: Names) {
    ParseExpr(PrintExpr(e, names), depth, names) == Kept(e, Fits_(e, depth))
  }

  ghost predicate PredReturns(p: Pred, depth: nat, names: Names) {
    ParsePred(PrintPred(p, names), depth, names) == Kept(p, PredFits(p, depth))
  }

  lemma {:induction false} TextsParse(ss: seq<string>)
    ensures AllTexts(TextLits(ss)) == Some(ss)
  {
    if ss != [] {
      TextsParse(ss[1..]);
      assert TextLits(ss)[1..] == TextLits(ss[1..]);
      assert TextLits(ss)[0] == TextLit(ss[0]);
      assert [ss[0]] + ss[1..] == ss;
    }
  }

  /** A printed unary operation is recognised, with its operand where it was put. */
  lemma UnaryParses(op: UnaryOp, value: Term)
    ensures var t := PrintUnary(op, value);
      ParseUnaryOp(t).Some? && ParseUnaryOp(t).value.0 == op && t.args[ParseUnaryOp(t).value.1] == value
  {
    match op
    case Project(fields) => TextsParse(fields);
    case Measure(unit) => assert ParseUnit(PathTo(UnitPath(unit))) == Some(unit);
    case _ =>
  }

  lemma KeyedParses(op: KeyedOp, value: Term, item: string, key: Term)
    ensures var t := PrintKeyed(op, value, item, key);
      && ParseUnaryOp(t).None? && ParseKeyedOp(t) == Some(op)
      && t.args[0] == value && t.args[1] == TextLit(item) && t.args[2] == key
  {
  }

  lemma UnaryReturns(e: Expr, depth: nat, names: Names)
    requires e.Unary? && (depth <= MAX_NESTING ==> Returns(e.value, depth + 1, names))
    ensures Returns(e, depth, names)
  {
    UnaryParses(e.op, PrintExpr(e.value, names));
  }

  lemma KeyedReturns(e: Expr, depth: nat, names: Names)
    requires e.Keyed? && (depth <= MAX_NESTING ==> Returns(e.value, depth + 1, names) && Returns(e.key, depth + 1, names))
    ensures Returns(e, depth, names)
  {
    KeyedParses(e.keyedOp, PrintExpr(e.value, names), e.item, PrintExpr(e.key, names));
  }

  function Both<A, B>(a: Option<A>, b: Option<B>): Option<(A, B)> {
    if a.Some? && b.Some? then Some((a.value, b.value)) else None
  }

  lemma FilterParses(value: Term, item: string, condition: Term, depth: nat, names: Names)
    requires depth <= MAX_NESTING
    ensures ParseExpr(Invoke(PExprFilter, [value, TextLit(item), condition]), depth, names) ==
      var r := Both(ParseExpr(value, depth + 1, names), ParsePred(condition, depth + 1, names));
      if r.None? then None else Some(Filter(r.value.0, item, r.value.1))
  {
    var t := Invoke(PExprFilter, [value, TextLit(item), condition]);
    assert ParseUnaryOp(t).None? && ParseKeyedOp(t).None?;
    assert t.args[0] == value && t.args[1] == TextLit(item) && t.args[2] == condition;
  }

  lemma FilterReturns(e: Expr, depth: nat, names: Names)
    requires e.Filter? && (depth <= MAX_NESTING ==> Returns(e.value, depth + 1, names) && PredReturns(e.condition, depth + 1, names))
    ensures Returns(e, depth, names)
  {
    if depth <= MAX_NESTING { FilterParses(PrintExpr(e.value, names), e.item, PrintPred(e.condition, names), depth, names); }
  }

  lemma NameReturns(e: Expr, depth: nat, names: Names)
    requires e.Variable? || e.Resource?
    ensures Returns(e, depth, names)
  {
    var t := PrintExpr(e, names);
    assert ParseUnaryOp(t).None? && ParseKeyedOp(t).None?;
  }

  lemma LiteralParses(ty: Term, json: JsonTerm, depth: nat, names: Names)
    requires depth <= MAX_NESTING
    ensures ParseExpr(Invoke(PExprLiteral, [ty, JsonOf(json)]), depth, names) ==
      var r := Both(ParseType(ty, 0), ParseJson(json, 0));
      if r.None? then None else Some(Literal(r.value.0, r.value.1))
  {
    var t := Invoke(PExprLiteral, [ty, JsonOf(json)]);
    assert ParseUnaryOp(t).None? && ParseKeyedOp(t).None?;
  }

  lemma LiteralReturns(e: Expr, depth: nat, names: Names)
    requires e.Literal?
    requires ParseType(PrintType(e.dataType, names), 0) == Kept(e.dataType, TypeFits(e.dataType, 0))
    requires ParseJson(PrintJson(e.json, names), 0) == Kept(e.json, JsonFits(e.json, 0))
    ensures Returns(e, depth, names)
  {
    if depth <= MAX_NESTING { LiteralParses(PrintType(e.dataType, names), PrintJson(e.json, names), depth, names); }
  }

  // ----- Lists of operands -----

  /** All operands from `i` on parse back at that depth exactly when they fit. */
  ghost predicate ArgsReturn(args: seq<Arg>, depth: nat, names: Names) {
    forall i {:trigger Returns(args[i].value, depth, names)} | 0 <= i < |args| :: Returns(args[i].value, depth, names)
  }

  predicate ArgsFit(args: seq<Arg>, i: nat, depth: nat) {
    forall k | i <= k < |args| :: Fits_(args[k].value, depth)
  }

  lemma {:induction false} ValuesPrinted(args: seq<Arg>, names: Names, i: nat)
    requires i < |args|
    ensures PrintValues(args, names)[i] == PrintExpr(args[i].value, names)
    ensures PrintArgs(args, names)[i] == Pair(Into(args[i].name), PrintExpr(args[i].value, names))
    decreases i
  {
    if i > 0 { ValuesPrinted(args[1..], names, i - 1); }
  }

  lemma {:induction false} LevelsOfArgs(args: seq<Arg>, depth: nat)
    requires depth <= MAX_NESTING
    ensures depth + ArgLevels(args) <= MAX_NESTING <==> forall k | 0 <= k < |args| :: depth + 1 + Levels(args[k].value) <= MAX_NESTING
  {
    if args != [] {
      LevelsOfArgs(args[1..], depth);
      var fine := forall k | 0 <= k < |args[1..]| :: depth + 1 + Levels(args[1..][k].value) <= MAX_NESTING;
      if fine {
        forall k | 1 <= k < |args| ensures depth + 1 + Levels(args[k].value) <= MAX_NESTING { assert args[k] == args[1..][k - 1]; }
      }
      if forall k | 0 <= k < |args| :: depth + 1 + Levels(args[k].value) <= MAX_NESTING {
        forall k | 0 <= k < |args[1..]| ensures depth + 1 + Levels(args[1..][k].value) <= MAX_NESTING { assert args[1..][k] == args[k + 1]; }
      }
    }
  }

  predicate AllLiteralsFit(args: seq<Arg>) {
    forall k | 0 <= k < |args| :: LiteralsFit(args[k].value)
  }

  lemma ArgsFitMeans(args: seq<Arg>, depth: nat)
    requires depth <= MAX_NESTING
    ensures ArgsFit(args, 0, depth + 1) <==> depth + ArgLevels(args) <= MAX_NESTING && AllLiteralsFit(args)
  {
    LevelsOfArgs(args, depth);
  }

  lemma {:induction false} ValuesFrom(args: seq<Arg>, ts: seq<Term>, i: nat, depth: nat, names: Names)
    requires i <= |args| == |ts| && ArgsReturn(args, depth, names)
    requires forall k | 0 <= k < |args| :: ts[k] == PrintExpr(args[k].value, names) && args[k].name == ""
    ensures ParseExprs(ts, i, depth, args[..i], names) == Kept(args, ArgsFit(args, i, depth))
    decreases |args| - i
  {
    if i == |args| {
      assert args[..i] == args;
    } else {
      assert Returns(args[i].value, depth, names);
      assert args[..i] + [Arg("", args[i].value)] == args[..i + 1];
      ValuesFrom(args, ts, i + 1, depth, names);
      ArgsFitFirst(args, i, depth);
    }
  }

  lemma ArgsFitFirst(args: seq<Arg>, i: nat, depth: nat)
    requires i < |args|
    ensures ArgsFit(args, i, depth) <==> Fits_(args[i].value, depth) && ArgsFit(args, i + 1, depth)
  {
  }

  lemma ListParses(ty: Term, items: seq<Term>, depth: nat, names: Names)
    requires depth <= MAX_NESTING
    ensures ParseExpr(Invoke(PExprList, [ty, VecOf(items)]), depth, names) ==
      var r := Both(ParseType(ty, 0), ParseExprs(items, 0, depth + 1, [], names));
      if r.None? then None else Some(Build(ListOf(r.value.0), r.value.1))
  {
    var t := Invoke(PExprList, [ty, VecOf(items)]);
    assert ParseUnaryOp(t).None? && ParseKeyedOp(t).None?;
    assert t.args[0] == ty && t.args[1] == VecOf(items);
  }

  lemma ListOperands(args: seq<Arg>, depth: nat, names: Names)
    requires depth <= MAX_NESTING && ArgsReturn(args, depth + 1, names) && forall k | 0 <= k < |args| :: args[k].name == ""
    ensures ParseExprs(PrintValues(args, names), 0, depth + 1, [], names)
      == Kept(args, depth + ArgLevels(args) <= MAX_NESTING && AllLiteralsFit(args))
  {
    forall k | 0 <= k < |args| ensures PrintValues(args, names)[k] == PrintExpr(args[k].value, names) {
      ValuesPrinted(args, names, k);
    }
    ValuesFrom(args, PrintValues(args, names), 0, depth + 1, names);
    assert args[..0] == [];
    ArgsFitMeans(args, depth);
  }

  lemma ListReturns(e: Expr, depth: nat, names: Names)
    requires Lists(names) && e.Build? && e.buildOp.ListOf? && forall k | 0 <= k < |e.args| :: e.args[k].name == ""
    requires depth <= MAX_NESTING ==> ArgsReturn(e.args, depth + 1, names)
    ensures Returns(e, depth, names)
  {
    if depth <= MAX_NESTING {
      TypeRoundTrip(e.buildOp.itemType, 0, names);
      ListOperands(e.args, depth, names);
      ListParses(PrintType(e.buildOp.itemType, names), PrintValues(e.args, names), depth, names);
      ListFits(e, depth);
    }
  }

  lemma ListFits(e: Expr, depth: nat)
    requires e.Build? && e.buildOp.ListOf?
    ensures Fits_(e, depth) <==> depth + ArgLevels(e.args) <= MAX_NESTING && TypeFits(e.buildOp.itemType, 0) && AllLiteralsFit(e.args)
  {
    assert LiteralsFit(e) <==> TypeFits(e.buildOp.itemType, 0) && AllLiteralsFit(e.args);
  }

  // ----- Named arguments -----

  /** The map of the first `i` arguments. */
  function ArgMap(args: seq<Arg>, i: nat): map<string, Expr>
    requires i <= |args|
  {
    if i == 0 then map[] else ArgMap(args, i - 1)[args[i - 1].name := args[i - 1].value]
  }

  ghost predicate DistinctArgs(args: seq<Arg>) {
    forall a, b | 0 <= a < b < |args| :: args[a].name != args[b].name
  }

  lemma {:induction false} ArgMapKeys(args: seq<Arg>, i: nat)
    requires i <= |args| && DistinctArgs(args)
    ensures forall x :: x in ArgMap(args, i) <==> exists k :: 0 <= k < i && args[k].name == x
    ensures forall k | 0 <= k < i :: args[k].name in ArgMap(args, i) && ArgMap(args, i)[args[k].name] == args[k].value
  {
    if i > 0 { ArgMapKeys(args, i - 1); }
  }

  predicate IsNew(args: seq<Arg>, i: nat)
    requires i < |args|
  {
    args[i].name !in ArgMap(args, i)
  }

  predicate AllNew(args: seq<Arg>) {
    forall i | 0 <= i < |args| :: IsNew(args, i)
  }

  lemma DistinctAreNew(args: seq<Arg>)
    requires DistinctArgs(args)
    ensures AllNew(args)
  {
    forall i | 0 <= i < |args| ensures IsNew(args, i) { ArgMapKeys(args, i); }
  }

  lemma ListedDistinct(args: seq<Arg>, names: Names)
    requires Lists(names) && Listed(args, names)
    ensures DistinctArgs(args)
  {
    var list := names(ArgNames(args));
    assert Listing(list, ArgNames(args));
    forall a, b | 0 <= a < b < |args| ensures args[a].name != args[b].name {
      assert NamesOf(args)[a] == args[a].name && NamesOf(args)[b] == args[b].name;
    }
  }

  /** The pairs hold the arguments' names and values that parse back exactly when they fit. */
  ghost predicate PairsFor(args: seq<Arg>, ts: seq<Term>, depth: nat, names: Names) {
    |ts| == |args| && forall k {:trigger PairFor(args[k], ts[k], depth, names)} | 0 <= k < |args| :: PairFor(args[k], ts[k], depth, names)
  }

  ghost predicate PairFor(a: Arg, t: Term, depth: nat, names: Names) {
    t.Pair? && t.first == Into(a.name) && ParseExpr(t.second, depth, names) == Kept(a.value, Fits_(a.value, depth))
  }

  /** From the `i`th pair on, the arguments come back exactly when the rest of them fit. */
  ghost predicate PairsYield(args: seq<Arg>, ts: seq<Term>, i: nat, depth: nat, names: Names)
    requires i <= |args| == |ts|
  {
    ParsePairs(ts, i, depth, ArgMap(args, i), names) == Kept(ArgMap(args, |args|), ArgsFit(args, i, depth))
  }

  lemma YieldBack(args: seq<Arg>, ts: seq<Term>, i: nat, depth: nat, names: Names)
    requires i < |args| == |ts| && PairsYield(args, ts, i + 1, depth, names)
    requires PairFor(args[i], ts[i], depth, names) && args[i].name !in ArgMap(args, i)
    ensures PairsYield(args, ts, i, depth, names)
  {
    ArgsFitFirst(args, i, depth);
    PairsBack(ts, i, depth, names, ArgMap(args, i), args[i], ArgMap(args, |args|), Fits_(args[i].value, depth), ArgsFit(args, i + 1, depth));
  }

  lemma YieldBackAt(args: seq<Arg>, ts: seq<Term>, i: nat, depth: nat, names: Names)
    requires i < |args| && PairsFor(args, ts, depth, names) && AllNew(args) && PairsYield(args, ts, i + 1, depth, names)
    ensures PairsYield(args, ts, i, depth, names)
  {
    assert IsNew(args, i) && PairFor(args[i], ts[i], depth, names);
    YieldBack(args, ts, i, depth, names);
  }

  lemma {:induction false} PairsFrom(args: seq<Arg>, ts: seq<Term>, i: nat, depth: nat, names: Names)
    requires i <= |args| && PairsFor(args, ts, depth, names) && AllNew(args)
    ensures PairsYield(args, ts, i, depth, names)
    decreases |args| - i
  {
    if i < |args| {
      PairsFrom(args, ts, i + 1, depth, names);
      YieldBackAt(args, ts, i, depth, names);
    } else {
      YieldEnd(args, ts, depth, names);
    }
  }

  lemma YieldEnd(args: seq<Arg>, ts: seq<Term>, depth: nat, names: Names)
    requires |args| == |ts|
    ensures PairsYield(args, ts, |args|, depth, names)
  {
  }

  /** One pair in front of pairs whose outcome is known. */
  lemma PairsBack(ts: seq<Term>, i: nat, depth: nat, names: Names, done: map<string, Expr>, a: Arg, whole: map<string, Expr>, fits: bool, rest: bool)
    requires i < |ts| && ts[i].Pair? && ts[i].first == Into(a.name) && a.name !in done
    requires ParseExpr(ts[i].second, depth, names) == Kept(a.value, fits)
    requires ParsePairs(ts, i + 1, depth, done[a.name := a.value], names) == Kept(whole, rest)
    ensures ParsePairs(ts, i, depth, done, names) == Kept(whole, fits && rest)
  {
  }

  lemma {:induction false} ListArgsFrom(m: map<string, Expr>, args: seq<Arg>)
    requires forall k | 0 <= k < |args| :: args[k].name in m && m[args[k].name] == args[k].value
    ensures ListArgs(m, NamesOf(args)) == args
  {
    if args != [] {
      ListArgsFrom(m, args[1..]);
      assert NamesOf(args)[1..] == NamesOf(args[1..]);
      assert NamesOf(args)[0] == args[0].name;
    }
  }

  lemma PairsParse(ts: seq<Term>, depth: nat, names: Names)
    requires depth <= MAX_NESTING
    ensures ParseArgs(PairsTerm(ts), depth, names) ==
      var m := ParsePairs(ts, 0, depth + 1, map[], names);
      if m.None? then None else Some(ListArgs(m.value, names(m.value.Keys)))
  {
  }

  lemma PairsReturned(args: seq<Arg>, depth: nat, names: Names)
    requires DistinctArgs(args) && ArgsReturn(args, depth, names)
    ensures ParsePairs(PrintArgs(args, names), 0, depth, map[], names) == Kept(ArgMap(args, |args|), ArgsFit(args, 0, depth))
  {
    forall k | 0 <= k < |args| ensures PairFor(args[k], PrintArgs(args, names)[k], depth, names) {
      ValuesPrinted(args, names, k);
      assert Returns(args[k].value, depth, names);
    }
    DistinctAreNew(args);
    PairsFrom(args, PrintArgs(args, names), 0, depth, names);
  }

  lemma RelistsArgs(args: seq<Arg>, names: Names)
    requires Lists(names) && Listed(args, names)
    ensures var m := ArgMap(args, |args|); ListArgs(m, names(m.Keys)) == args
  {
    ListedDistinct(args, names);
    var m := ArgMap(args, |args|);
    ArgMapKeys(args, |args|);
    assert m.Keys == ArgNames(args);
    ListArgsFrom(m, args);
  }

  /** The literal map of tidy arguments parses back, one level below it and two below the call. */
  ghost predicate ArgsYield(args: seq<Arg>, depth: nat, names: Names) {
    ParseArgs(PairsTerm(PrintArgs(args, names)), depth, names)
      == Kept(args, depth + ArgLevels(args) <= MAX_NESTING && AllLiteralsFit(args))
  }

  lemma ArgsYieldFrom(args: seq<Arg>, depth: nat, names: Names, ts: seq<Term>, m: map<string, Expr>)
    requires depth <= MAX_NESTING && ts == PrintArgs(args, names)
    requires ParsePairs(ts, 0, depth + 1, map[], names) == Kept(m, ArgsFit(args, 0, depth + 1))
    requires ListArgs(m, names(m.Keys)) == args
    ensures ArgsYield(args, depth, names)
  {
    PairsParse(ts, depth, names);
    ArgsFitMeans(args, depth);
  }

  lemma DistinctReturned(args: seq<Arg>, depth: nat, names: Names)
    requires depth <= MAX_NESTING && DistinctArgs(args) && ArgsReturn(args, depth + 1, names)
    requires var m := ArgMap(args, |args|); ListArgs(m, names(m.Keys)) == args
    ensures ArgsYield(args, depth, names)
  {
    PairsReturned(args, depth + 1, names);
    ArgsYieldFrom(args, depth, names, PrintArgs(args, names), ArgMap(args, |args|));
  }

  lemma ArgsReturned(args: seq<Arg>, depth: nat, names: Names)
    requires Lists(names) && Listed(args, names) && ArgsReturn(args, depth + 1, names)
    ensures ArgsYield(args, depth, names)
  {
    if depth <= MAX_NESTING {
      ListedDistinct(args, names);
      RelistsArgs(args, names);
      DistinctReturned(args, depth, names);
    }
  }

  /** The operation of a call with named arguments. */
  function Assembled(e: Expr, args: seq<Arg>): Expr
    requires e.Build? || e.Call?
  {
    e.(args := args)
  }

  /** The printed expression parses to what its argument list parses to, assembled. */
  ghost predicate ParsesNamed(e: Expr, pairs: Term, depth: nat, names: Names)
    requires e.Build? || e.Call?
  {
    ParseExpr(PrintExpr(e, names), depth, names) ==
      var args := ParseArgs(pairs, depth + 1, names); if args.None? then None else Some(Assembled(e, args.value))
  }

  lemma CallParses(e: Expr, pairs: Term, depth: nat, names: Names)
    requires depth <= MAX_NESTING && e.Call? && pairs == PairsTerm(PrintArgs(e.args, names))
    ensures ParsesNamed(e, pairs, depth, names)
  {
    var t := PrintExpr(e, names);
    assert ParseUnaryOp(t).None? && ParseKeyedOp(t).None?;
    assert ParseKind(PathTo(KindPath(e.function_.kind))) == Some(e.function_.kind);
  }

  lemma BuildParses(e: Expr, pairs: Term, depth: nat, names: Names)
    requires depth <= MAX_NESTING && e.Build? && !e.buildOp.ListOf? && pairs == PairsTerm(PrintArgs(e.args, names))
    ensures ParsesNamed(e, pairs, depth, names)
  {
    var t := PrintExpr(e, names);
    assert ParseUnaryOp(t).None? && ParseKeyedOp(t).None?;
  }

  lemma NamedReturns(e: Expr, depth: nat, names: Names)
    requires (e.Build? && !e.buildOp.ListOf?) || e.Call?
    requires depth <= MAX_NESTING ==> ArgsYield(e.args, depth + 1, names)
    ensures Returns(e, depth, names)
  {
    if depth <= MAX_NESTING {
      var pairs := PairsTerm(PrintArgs(e.args, names));
      if e.Call? { CallParses(e, pairs, depth, names); } else { BuildParses(e, pairs, depth, names); }
      NamedFits(e, depth);
    }
  }

  lemma NamedFits(e: Expr, depth: nat)
    requires (e.Build? && !e.buildOp.ListOf?) || e.Call?
    ensures Fits_(e, depth) <==> depth + 1 + ArgLevels(e.args) <= MAX_NESTING && AllLiteralsFit(e.args)
  {
    assert LiteralsFit(e) <==> AllLiteralsFit(e.args);
  }

  // ----- Expressions and conditions -----

  lemma {:induction false} ExprReturns(e: Expr, depth: nat, names: Names)
    requires Lists(names) && Tidy(e, names)
    ensures Returns(e, depth, names)
    decreases e, 1
  {
    match e
    case Unary(_, value) =>
      ExprReturns(value, depth + 1, names);
      UnaryReturns(e, depth, names);
    case Filter(value, _, condition) =>
      ExprReturns(value, depth + 1, names);
      PredReturns_(condition, depth + 1, names);
      FilterReturns(e, depth, names);
    case Keyed(_, value, _, key) =>
      ExprReturns(value, depth + 1, names);
      ExprReturns(key, depth + 1, names);
      KeyedReturns(e, depth, names);
    case Build(op, args) =>
      if op.ListOf? {
        AllArgsReturn(args, depth + 1, names);
        ListReturns(e, depth, names);
      } else {
        AllArgsReturn(args, depth + 2, names);
        ArgsReturned(args, depth + 1, names);
        NamedReturns(e, depth, names);
      }
    case Call(_, args) =>
      AllArgsReturn(args, depth + 2, names);
      ArgsReturned(args, depth + 1, names);
      NamedReturns(e, depth, names);
    case Literal(t, json) =>
      TypeRoundTrip(t, 0, names);
      JsonRoundTrip(json, 0, names);
      LiteralReturns(e, depth, names);
    case _ => NameReturns(e, depth, names);
  }

  lemma {:induction false} AllArgsReturn(args: seq<Arg>, depth: nat, names: Names)
    requires Lists(names) && forall i | 0 <= i < |args| :: Tidy(args[i].value, names)
    ensures ArgsReturn(args, depth, names)
    decreases args, 0
  {
    forall i | 0 <= i < |args| ensures Returns(args[i].value, depth, names) { ArgReturns(args[i], depth, names); }
  }

  lemma {:induction false} ArgReturns(a: Arg, depth: nat, names: Names)
    requires Lists(names) && Tidy(a.value, names)
    ensures Returns(a.value, depth, names)
    decreases a, 0
  {
    ExprReturns(a.value, depth, names);
  }

  ghost predicate PredsReturn(ps: seq<Pred>, depth: nat, names: Names) {
    forall i | 0 <= i < |ps| :: PredReturns(ps[i], depth, names)
  }

  predicate PredsFit(ps: seq<Pred>, i: nat, depth: nat) {
    forall k | i <= k < |ps| :: PredFits(ps[k], depth)
  }

  lemma {:induction false} PredsPrinted(ps: seq<Pred>, names: Names, i: nat)
    requires i < |ps|
    ensures PrintPreds(ps, names)[i] == PrintPred(ps[i], names)
    decreases i
  {
    if i > 0 { PredsPrinted(ps[1..], names, i - 1); }
  }

  lemma {:induction false} LevelsOfPreds(ps: seq<Pred>, depth: nat)
    requires depth <= MAX_NESTING
    ensures depth + AllPredLevels(ps) <= MAX_NESTING <==> forall k | 0 <= k < |ps| :: depth + 1 + PredLevels(ps[k]) <= MAX_NESTING
  {
    if ps != [] {
      LevelsOfPreds(ps[1..], depth);
      if forall k | 0 <= k < |ps[1..]| :: depth + 1 + PredLevels(ps[1..][k]) <= MAX_NESTING {
        forall k | 1 <= k < |ps| ensures depth + 1 + PredLevels(ps[k]) <= MAX_NESTING { assert ps[k] == ps[1..][k - 1]; }
      }
      if forall k | 0 <= k < |ps| :: depth + 1 + PredLevels(ps[k]) <= MAX_NESTING {
        forall k | 0 <= k < |ps[1..]| ensures depth + 1 + PredLevels(ps[1..][k]) <= MAX_NESTING { assert ps[1..][k] == ps[k + 1]; }
      }
    }
  }

  /** From the `i`th condition on, the list comes back exactly when the rest of it fits. */
  ghost predicate PredsYield(ps: seq<Pred>, ts: seq<Term>, i: nat, depth: nat, names: Names)
    requires i <= |ps| == |ts|
  {
    ParsePreds(ts, i, depth, ps[..i], names) == Kept(ps, PredsFit(ps, i, depth))
  }

  lemma PredYieldBack(ps: seq<Pred>, ts: seq<Term>, i: nat, depth: nat, names: Names)
    requires i < |ps| == |ts| && PredsYield(ps, ts, i + 1, depth, names)
    requires ParsePred(ts[i], depth, names) == Kept(ps[i], PredFits(ps[i], depth))
    ensures PredsYield(ps, ts, i, depth, names)
  {
    assert ps[..i] + [ps[i]] == ps[..i + 1];
    assert PredsFit(ps, i, depth) <==> PredFits(ps[i], depth) && PredsFit(ps, i + 1, depth);
  }

  ghost predicate PredFor(p: Pred, t: Term, depth: nat, names: Names) {
    ParsePred(t, depth, names) == Kept(p, PredFits(p, depth))
  }

  lemma {:induction false} PredsFrom(ps: seq<Pred>, ts: seq<Term>, i: nat, depth: nat, names: Names)
    requires i <= |ps| == |ts| && forall k | 0 <= k < |ps| :: PredFor(ps[k], ts[k], depth, names)
    ensures PredsYield(ps, ts, i, depth, names)
    decreases |ps| - i
  {
    if i == |ps| {
      assert ps[..i] == ps;
    } else {
      PredsFrom(ps, ts, i + 1, depth, names);
      assert PredFor(ps[i], ts[i], depth, names);
      PredYieldBack(ps, ts, i, depth, names);
    }
  }

  lemma JunctionParses(all: bool, items: seq<Term>, depth: nat, names: Names)
    requires depth <= MAX_NESTING
    ensures ParsePred(Invoke(if all then PPredAll else PPredAny, [VecOf(items)]), depth, names) ==
      var r := ParsePreds(items, 0, depth + 1, [], names);
      if r.None? then None else if all then Some(And(r.value)) else Some(Or(r.value))
  {
  }

  predicate AllPredLiteralsFit(ps: seq<Pred>) {
    forall k | 0 <= k < |ps| :: PredLiteralsFit(ps[k])
  }

  lemma PredOperands(ps: seq<Pred>, depth: nat, names: Names)
    requires depth <= MAX_NESTING && PredsReturn(ps, depth + 1, names)
    ensures ParsePreds(PrintPreds(ps, names), 0, depth + 1, [], names)
      == Kept(ps, depth + AllPredLevels(ps) <= MAX_NESTING && AllPredLiteralsFit(ps))
  {
    forall k | 0 <= k < |ps| ensures PredFor(ps[k], PrintPreds(ps, names)[k], depth + 1, names) {
      PredsPrinted(ps, names, k);
      assert PredReturns(ps[k], depth + 1, names);
    }
    PredsFrom(ps, PrintPreds(ps, names), 0, depth + 1, names);
    assert ps[..0] == [];
    LevelsOfPreds(ps, depth);
  }

  lemma JunctionReturns(p: Pred, depth: nat, names: Names)
    requires (p.And? || p.Or?) && (depth <= MAX_NESTING ==> PredsReturn(p.items, depth + 1, names))
    ensures PredReturns(p, depth, names)
  {
    if depth <= MAX_NESTING {
      PredOperands(p.items, depth, names);
      JunctionParses(p.And?, PrintPreds(p.items, names), depth, names);
      JunctionFits(p, depth);
    }
  }

  lemma JunctionFits(p: Pred, depth: nat)
    requires p.And? || p.Or?
    ensures PredFits(p, depth) <==> depth + AllPredLevels(p.items) <= MAX_NESTING && AllPredLiteralsFit(p.items)
  {
    assert PredLiteralsFit(p) <==> AllPredLiteralsFit(p.items);
  }

  lemma CompareReturns(p: Pred, depth: nat, names: Names)
    requires p.Compare? && (depth <= MAX_NESTING ==> Returns(p.left, depth + 1, names) && Returns(p.right, depth + 1, names))
    ensures PredReturns(p, depth, names)
  {
    assert ParseComparison(PathTo(ComparisonPath(p.operator))) == Some(p.operator);
  }

  lemma EqReturns(p: Pred, depth: nat, names: Names)
    requires p.Eq? && (depth <= MAX_NESTING ==> Returns(p.left, depth + 1, names) && Returns(p.right, depth + 1, names))
    ensures PredReturns(p, depth, names)
  {
  }

  lemma ContainsReturns(p: Pred, depth: nat, names: Names)
    requires p.Contains? && (depth <= MAX_NESTING ==> Returns(p.value, depth + 1, names) && Returns(p.element, depth + 1, names))
    ensures PredReturns(p, depth, names)
  {
  }

  lemma SingleReturns(p: Pred, depth: nat, names: Names)
    requires (p.Present? && (depth <= MAX_NESTING ==> Returns(p.value, depth + 1, names)))
      || (p.Not? && (depth <= MAX_NESTING ==> PredReturns(p.item, depth + 1, names)))
    ensures PredReturns(p, depth, names)
  {
  }

  lemma {:induction false} PredReturns_(p: Pred, depth: nat, names: Names)
    requires Lists(names) && TidyPred(p, names)
    ensures PredReturns(p, depth, names)
    decreases p, 1
  {
    match p
    case Compare(left, _, right) =>
      ExprReturns(left, depth + 1, names);
      ExprReturns(right, depth + 1, names);
      CompareReturns(p, depth, names);
    case Contains(value, element) =>
      ExprReturns(value, depth + 1, names);
      ExprReturns(element, depth + 1, names);
      ContainsReturns(p, depth, names);
    case Present(value) =>
      ExprReturns(value, depth + 1, names);
      SingleReturns(p, depth, names);
    case Eq(left, right) =>
      ExprReturns(left, depth + 1, names);
      ExprReturns(right, depth + 1, names);
      EqReturns(p, depth, names);
    case And(items) =>
      forall i | 0 <= i < |items| ensures PredReturns(items[i], depth + 1, names) { PredReturns_(items[i], depth + 1, names); }
      JunctionReturns(p, depth, names);
    case Or(items) =>
      forall i | 0 <= i < |items| ensures PredReturns(items[i], depth + 1, names) { PredReturns_(items[i], depth + 1, names); }
      JunctionReturns(p, depth, names);
    case Not(item) =>
      PredReturns_(item, depth + 1, names);
      SingleReturns(p, depth, names);
  }
}
