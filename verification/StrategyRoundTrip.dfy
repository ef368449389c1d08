/** Whole strategies: a generated source parses back to the strategy it came from, exactly when it
    stays within the parser's limits. */
module StrategyRoundTrip {
  import opened Base
  import opened Types
  import opened Syntax
  import opened SourceTerms
  import opened SourceParser
  import opened LiteralRoundTrip
  import opened RoundTrip

  // ----- Blocks -----

  predicate BlockFits(b: Block, depth: nat) { depth + BlockLevels(b) <= MAX_NESTING && BlockLiteralsFit(b) }

  predicate AllBlocksFit(blocks: seq<Block>, i: nat, depth: nat) {
    forall k | i <= k < |blocks| :: BlockFits(blocks[k], depth)
  }

  predicate AllBlockLiteralsFit(blocks: seq<Block>) {
    forall k | 0 <= k < |blocks| :: BlockLiteralsFit(blocks[k])
  }

  /** A list of blocks at that depth, which counts as a level of its own. */
  predicate BlocksFit(blocks: seq<Block>, depth: nat) {
    depth + AllBlockLevels(blocks) <= MAX_NESTING && AllBlockLiteralsFit(blocks)
  }

  ghost predicate BlockReturns(b: Block, depth: nat, names: Names) {
    ParseBlock(PrintBlock(b, names), depth, names) == Kept(b, BlockFits(b, depth))
  }

  ghost predicate BlocksReturn(blocks: seq<Block>, depth: nat, names: Names) {
    ParseBlocks(PrintBlocks(blocks, names), depth, names) == Kept(blocks, BlocksFit(blocks, depth))
  }

  lemma {:induction false} BlocksPrinted(blocks: seq<Block>, names: Names, i: nat)
    requires i < |blocks|
    ensures PrintBlockList(blocks, names)[i] == PrintBlock(blocks[i], names)
    decreases i
  {
    if i > 0 { BlocksPrinted(blocks[1..], names, i - 1); }
  }

  lemma {:induction false} LevelsOfBlocks(blocks: seq<Block>, depth: nat)
    requires depth <= MAX_NESTING
    ensures depth + AllBlockLevels(blocks) <= MAX_NESTING <==> forall k | 0 <= k < |blocks| :: depth + BlockLevels(blocks[k]) <= MAX_NESTING
  {
    if blocks != [] {
      LevelsOfBlocks(blocks[1..], depth);
      if forall k | 0 <= k < |blocks[1..]| :: depth + BlockLevels(blocks[1..][k]) <= MAX_NESTING {
        forall k | 1 <= k < |blocks| ensures depth + BlockLevels(blocks[k]) <= MAX_NESTING { assert blocks[k] == blocks[1..][k - 1]; }
      }
      if forall k | 0 <= k < |blocks| :: depth + BlockLevels(blocks[k]) <= MAX_NESTING {
        forall k | 0 <= k < |blocks[1..]| ensures depth + BlockLevels(blocks[1..][k]) <= MAX_NESTING { assert blocks[1..][k] == blocks[k + 1]; }
      }
    }
  }

  lemma BlocksFitMeans(blocks: seq<Block>, depth: nat)
    requires depth <= MAX_NESTING
    ensures AllBlocksFit(blocks, 0, depth) <==> BlocksFit(blocks, depth)
  {
    LevelsOfBlocks(blocks, depth);
  }

  ghost predicate BlockFor(b: Block, t: Term, depth: nat, names: Names) {
    ParseBlock(t, depth, names) == Kept(b, BlockFits(b, depth))
  }

  ghost predicate BlocksYield(blocks: seq<Block>, ts: seq<Term>, i: nat, depth: nat, names: Names)
    requires i <= |blocks| == |ts|
  {
    ParseBlockList(ts, i, depth, blocks[..i], names) == Kept(blocks, AllBlocksFit(blocks, i, depth))
  }

  lemma BlockYieldBack(blocks: seq<Block>, ts: seq<Term>, i: nat, depth: nat, names: Names)
    requires i < |blocks| == |ts| && BlocksYield(blocks, ts, i + 1, depth, names) && BlockFor(blocks[i], ts[i], depth, names)
    ensures BlocksYield(blocks, ts, i, depth, names)
  {
    assert blocks[..i] + [blocks[i]] == blocks[..i + 1];
    assert AllBlocksFit(blocks, i, depth) <==> BlockFits(blocks[i], depth) && AllBlocksFit(blocks, i + 1, depth);
  }

  lemma {:induction false} BlocksFrom(blocks: seq<Block>, ts: seq<Term>, i: nat, depth: nat, names: Names)
    requires i <= |blocks| == |ts| && forall k {:trigger BlockFor(blocks[k], ts[k], depth, names)} | 0 <= k < |blocks| :: BlockFor(blocks[k], ts[k], depth, names)
    ensures BlocksYield(blocks, ts, i, depth, names)
    decreases |blocks| - i
  {
    if i == |blocks| {
      assert blocks[..i] == blocks;
    } else {
      BlocksFrom(blocks, ts, i + 1, depth, names);
      assert BlockFor(blocks[i], ts[i], depth, names);
      BlockYieldBack(blocks, ts, i, depth, names);
    }
  }

  lemma ListOfBlocks(blocks: seq<Block>, depth: nat, names: Names)
    requires depth <= MAX_NESTING ==> forall k | 0 <= k < |blocks| :: BlockReturns(blocks[k], depth, names)
    ensures BlocksReturn(blocks, depth, names)
  {
    if depth <= MAX_NESTING {
      var ts := PrintBlockList(blocks, names);
      forall k | 0 <= k < |blocks| ensures BlockFor(blocks[k], ts[k], depth, names) {
        BlocksPrinted(blocks, names, k);
        assert BlockReturns(blocks[k], depth, names);
      }
      BlocksFrom(blocks, ts, 0, depth, names);
      assert blocks[..0] == [];
      BlocksFitMeans(blocks, depth);
    }
  }

  lemma ForEachReturns(b: Block, depth: nat, names: Names)
    requires b.ForEach? && Returns(b.value, depth + 1, names) && BlocksReturn(b.items, depth + 1, names)
    ensures BlockReturns(b, depth, names)
  {
    assert BlockLiteralsFit(b) <==> LiteralsFit(b.value) && AllBlockLiteralsFit(b.items);
  }

  lemma GroupReturns(b: Block, depth: nat, names: Names)
    requires b.Group? && BlocksReturn(b.items, depth + 1, names)
    ensures BlockReturns(b, depth, names)
  {
    assert BlockLiteralsFit(b) <==> AllBlockLiteralsFit(b.items);
  }

  lemma EmitReturns(b: Block, depth: nat, names: Names)
    requires b.Emit? && Returns(b.value, depth + 1, names)
    ensures BlockReturns(b, depth, names)
  {
    RoleReturns(b.role);
    FormatReturns(b.format);
    EmitParses(b, PrintExpr(b.value, names), depth, names);
  }

  lemma RoleReturns(role: Role)
    ensures ParseRole(PathTo(RolePath(role))) == Some(role)
  {
  }

  lemma FormatReturns(format: Format)
    ensures ParseFormat(PathTo(FormatPath(format))) == Some(format)
  {
  }

  /** An emitted value parses to what its expression parses to. */
  lemma EmitParses(b: Block, value: Term, depth: nat, names: Names)
    requires b.Emit? && ParseRole(PathTo(RolePath(b.role))) == Some(b.role) && ParseFormat(PathTo(FormatPath(b.format))) == Some(b.format)
    ensures ParseBlock(Invoke(PBlockEmit, [TextLit(b.id), PathTo(RolePath(b.role)), PathTo(FormatPath(b.format)), value]), depth, names)
         == var v := ParseExpr(value, depth + 1, names); if v.None? then None else Some(Emit(b.id, b.role, b.format, v.value))
  {
  }

  lemma BranchReturns(b: Block, depth: nat, names: Names)
    requires b.If? && PredReturns(b.condition, depth + 1, names)
    requires BlocksReturn(b.yes, depth + 1, names) && BlocksReturn(b.no, depth + 1, names)
    ensures BlockReturns(b, depth, names)
  {
    assert BlockLiteralsFit(b) <==> PredLiteralsFit(b.condition) && AllBlockLiteralsFit(b.yes) && AllBlockLiteralsFit(b.no);
  }

  lemma {:induction false} BlockReturns_(b: Block, depth: nat, names: Names)
    requires Lists(names) && TidyBlock(b, names)
    ensures BlockReturns(b, depth, names)
    decreases b, 1
  {
    match b
    case ForEach(_, value, _, items) =>
      ExprReturns(value, depth + 1, names);
      BlocksReturn_(items, depth + 1, names);
      ForEachReturns(b, depth, names);
    case Group(_, _, items) =>
      BlocksReturn_(items, depth + 1, names);
      GroupReturns(b, depth, names);
    case Emit(_, _, _, value) =>
      ExprReturns(value, depth + 1, names);
      EmitReturns(b, depth, names);
    case If(_, condition, yes, no) =>
      PredReturns_(condition, depth + 1, names);
      BlocksReturn_(yes, depth + 1, names);
      BlocksReturn_(no, depth + 1, names);
      BranchReturns(b, depth, names);
  }

  lemma {:induction false} BlocksReturn_(blocks: seq<Block>, depth: nat, names: Names)
    requires Lists(names) && forall i | 0 <= i < |blocks| :: TidyBlock(blocks[i], names)
    ensures BlocksReturn(blocks, depth, names)
    decreases blocks, 0
  {
    forall i | 0 <= i < |blocks| ensures BlockReturns(blocks[i], depth, names) { BlockReturns_(blocks[i], depth, names); }
    ListOfBlocks(blocks, depth, names);
  }

  // ----- The builder chain -----

  /** The methods lead from state to state as far as they are accepted; the last one sets the program. */
  ghost predicate StepAt(ms: seq<Method>, states: seq<Strategy>, oks: seq<bool>, k: nat, names: Names)
    requires k < |ms| == |oks| && |states| == |ms| + 1
  {
    ParseMethod(ms[k], states[k], false, names) == Kept((states[k + 1], k + 1 == |ms|), oks[k])
  }

  predicate AllOk(oks: seq<bool>, i: nat) { forall k | i <= k < |oks| :: oks[k] }

  ghost predicate ChainYields(ms: seq<Method>, states: seq<Strategy>, oks: seq<bool>, i: nat, names: Names)
    requires i <= |ms| == |oks| && |states| == |ms| + 1
  {
    ParseMethods(ms, i, states[i], i == |ms|, names) == Kept((states[|ms|], true), AllOk(oks, i))
  }

  lemma {:induction false} Chain(ms: seq<Method>, states: seq<Strategy>, oks: seq<bool>, i: nat, names: Names)
    requires i <= |ms| == |oks| && |states| == |ms| + 1 && forall k | 0 <= k < |ms| :: StepAt(ms, states, oks, k, names)
    ensures ChainYields(ms, states, oks, i, names)
    decreases |ms| - i
  {
    if i < |ms| {
      Chain(ms, states, oks, i + 1, names);
      assert StepAt(ms, states, oks, i, names);
      assert AllOk(oks, i) <==> oks[i] && AllOk(oks, i + 1);
    }
  }

  predicate CapabilityFits(c: Capability) { TypeFits(c.input, 0) && TypeFits(c.output, 0) }

  function DeclaredMethod(name: MethodName, types: map<string, DataType>, x: string, names: Names): Method
    requires x in types
  {
    Method(name, [TextLit(x), PrintType(types[x], names)])
  }

  function CapabilityMethod(c: Capability, names: Names): Method {
    Method(AddCapability, [Invoke(PCapabilityNew, [TextLit(c.id), PrintType(c.input, names), PrintType(c.output, names)])])
  }

  function ProgramMethod(program: seq<Block>, names: Names): Method {
    Method(WithProgram, [PrintBlocks(program, names)])
  }

  lemma TypeStep(s: Strategy, types: map<string, DataType>, x: string, names: Names)
    requires Lists(names) && x in types && x !in s.types
    ensures ParseMethod(DeclaredMethod(DefineType, types, x, names), s, false, names)
      == Kept((s.(types := s.types[x := types[x]]), false), TypeFits(types[x], 0))
  {
    TypeRoundTrip(types[x], 0, names);
  }

  lemma RequireStep(s: Strategy, types: map<string, DataType>, x: string, names: Names)
    requires Lists(names) && x in types && x !in s.requirements
    ensures ParseMethod(DeclaredMethod(Require, types, x, names), s, false, names)
      == Kept((s.(requirements := s.requirements[x := types[x]]), false), TypeFits(types[x], 0))
  {
    TypeRoundTrip(types[x], 0, names);
  }

  lemma CapabilityStep(c: Capability, s: Strategy, names: Names)
    requires Lists(names)
    ensures ParseMethod(CapabilityMethod(c, names), s, false, names)
      == Kept((s.(capabilities := s.capabilities + [c]), false), CapabilityFits(c))
  {
    TypeRoundTrip(c.input, 0, names);
    TypeRoundTrip(c.output, 0, names);
  }

  lemma ProgramStep(program: seq<Block>, s: Strategy, names: Names)
    requires BlocksReturn(program, 0, names)
    ensures ParseMethod(ProgramMethod(program, names), s, false, names)
      == Kept((s.(program := program), true), BlocksFit(program, 0))
  {
  }

  // ----- The chain of a strategy -----

  /** The listed names are exactly those of the strategy's types and requirements, each once. */
  ghost predicate ListsOf(s: Strategy, tl: seq<string>, rl: seq<string>) {
    Listing(tl, s.types.Keys) && Listing(rl, s.requirements.Keys)
    && (forall k | 0 <= k < |tl| :: tl[k] in s.types) && forall k | 0 <= k < |rl| :: rl[k] in s.requirements
  }

  function Least(a: nat, b: nat): nat { if a < b then a else b }

  function Past(i: nat, n: nat): nat { if i < n then 0 else i - n }

  function Count(s: Strategy, tl: seq<string>, rl: seq<string>): nat { |tl| + |rl| + |s.capabilities| + 1 }

  /** What is built after `i` methods. */
  ghost function StateAt(s: Strategy, tl: seq<string>, rl: seq<string>, i: nat): Strategy
    requires ListsOf(s, tl, rl)
  {
    Strategy(s.version, s.id, s.name, Upto(s.types, tl, Least(i, |tl|)),
      Upto(s.requirements, rl, Least(Past(i, |tl|), |rl|)),
      s.capabilities[..Least(Past(i, |tl| + |rl|), |s.capabilities|)],
      if i < Count(s, tl, rl) then [] else s.program)
  }

  ghost function MethodAt(s: Strategy, tl: seq<string>, rl: seq<string>, i: nat, names: Names): Method
    requires ListsOf(s, tl, rl)
  {
    if i < |tl| then DeclaredMethod(DefineType, s.types, tl[i], names)
    else if i - |tl| < |rl| then DeclaredMethod(Require, s.requirements, rl[i - |tl|], names)
    else if i - |tl| - |rl| < |s.capabilities| then CapabilityMethod(s.capabilities[i - |tl| - |rl|], names)
    else ProgramMethod(s.program, names)
  }

  /** Method `i` is within the limits. */
  ghost predicate OkAt(s: Strategy, tl: seq<string>, rl: seq<string>, i: nat)
    requires ListsOf(s, tl, rl)
  {
    if i < |tl| then TypeFits(s.types[tl[i]], 0)
    else if i - |tl| < |rl| then TypeFits(s.requirements[rl[i - |tl|]], 0)
    else if i - |tl| - |rl| < |s.capabilities| then CapabilityFits(s.capabilities[i - |tl| - |rl|])
    else BlocksFit(s.program, 0)
  }

  /** Method `i` takes what is built so far one method further. */
  ghost predicate Advances(s: Strategy, tl: seq<string>, rl: seq<string>, i: nat, names: Names)
    requires ListsOf(s, tl, rl)
  {
    ParseMethod(MethodAt(s, tl, rl, i, names), StateAt(s, tl, rl, i), false, names)
      == Kept((StateAt(s, tl, rl, i + 1), i + 1 == Count(s, tl, rl)), OkAt(s, tl, rl, i))
  }

  lemma TypesState(s: Strategy, tl: seq<string>, rl: seq<string>, i: nat)
    requires ListsOf(s, tl, rl) && i < |tl|
    ensures var now := StateAt(s, tl, rl, i);
      tl[i] !in now.types && StateAt(s, tl, rl, i + 1) == now.(types := now.types[tl[i] := s.types[tl[i]]])
  {
    UptoMore(s.types, tl, i);
  }

  lemma RequirementsState(s: Strategy, tl: seq<string>, rl: seq<string>, i: nat)
    requires ListsOf(s, tl, rl) && |tl| <= i < |tl| + |rl|
    ensures var now, x := StateAt(s, tl, rl, i), rl[i - |tl|];
      x !in now.requirements && StateAt(s, tl, rl, i + 1) == now.(requirements := now.requirements[x := s.requirements[x]])
  {
    UptoMore(s.requirements, rl, i - |tl|);
  }

  lemma TypesAdvance(s: Strategy, tl: seq<string>, rl: seq<string>, i: nat, names: Names)
    requires Lists(names) && ListsOf(s, tl, rl) && i < |tl|
    ensures Advances(s, tl, rl, i, names)
  {
    TypesState(s, tl, rl, i);
    TypeStep(StateAt(s, tl, rl, i), s.types, tl[i], names);
  }

  lemma RequirementsAdvance(s: Strategy, tl: seq<string>, rl: seq<string>, i: nat, names: Names)
    requires Lists(names) && ListsOf(s, tl, rl) && |tl| <= i < |tl| + |rl|
    ensures Advances(s, tl, rl, i, names)
  {
    RequirementsState(s, tl, rl, i);
    RequireStep(StateAt(s, tl, rl, i), s.requirements, rl[i - |tl|], names);
  }

  lemma CapabilitiesAdvance(s: Strategy, tl: seq<string>, rl: seq<string>, i: nat, names: Names)
    requires Lists(names) && ListsOf(s, tl, rl) && |tl| + |rl| <= i < Count(s, tl, rl) - 1
    ensures Advances(s, tl, rl, i, names)
  {
    var k := i - |tl| - |rl|;
    CapabilityStep(s.capabilities[k], StateAt(s, tl, rl, i), names);
    assert s.capabilities[..k] + [s.capabilities[k]] == s.capabilities[..k + 1];
  }

  lemma ProgramAdvances(s: Strategy, tl: seq<string>, rl: seq<string>, names: Names)
    requires ListsOf(s, tl, rl) && BlocksReturn(s.program, 0, names)
    ensures Advances(s, tl, rl, Count(s, tl, rl) - 1, names)
  {
    ProgramStep(s.program, StateAt(s, tl, rl, Count(s, tl, rl) - 1), names);
  }

  lemma EveryMethodAdvances(s: Strategy, tl: seq<string>, rl: seq<string>, i: nat, names: Names)
    requires Lists(names) && ListsOf(s, tl, rl) && BlocksReturn(s.program, 0, names) && i < Count(s, tl, rl)
    ensures Advances(s, tl, rl, i, names)
  {
    if i < |tl| { TypesAdvance(s, tl, rl, i, names); }
    else if i < |tl| + |rl| { RequirementsAdvance(s, tl, rl, i, names); }
    else if i < Count(s, tl, rl) - 1 { CapabilitiesAdvance(s, tl, rl, i, names); }
    else { ProgramAdvances(s, tl, rl, names); }
  }

  // ----- What is printed -----

  lemma {:induction false} DeclaredPrinted(name: MethodName, types: map<string, DataType>, list: seq<string>, names: Names)
    requires forall k | 0 <= k < |list| :: list[k] in types
    ensures var ms := PrintDeclared(name, types, list, names);
      |ms| == |list| && forall k | 0 <= k < |list| :: ms[k] == DeclaredMethod(name, types, list[k], names)
  {
    if list != [] {
      DeclaredPrinted(name, types, list[1..], names);
    }
  }

  lemma {:induction false} CapabilitiesPrinted(cs: seq<Capability>, names: Names)
    ensures var ms := PrintCapabilities(cs, names);
      |ms| == |cs| && forall k | 0 <= k < |cs| :: ms[k] == CapabilityMethod(cs[k], names)
  {
    if cs != [] { CapabilitiesPrinted(cs[1..], names); }
  }

  lemma ChainPrinted(s: Strategy, tl: seq<string>, rl: seq<string>, names: Names)
    requires ListsOf(s, tl, rl) && tl == names(s.types.Keys) && rl == names(s.requirements.Keys)
    ensures var ms := PrintStrategy(s, names).methods;
      |ms| == Count(s, tl, rl) && forall i | 0 <= i < |ms| :: ms[i] == MethodAt(s, tl, rl, i, names)
  {
    DeclaredPrinted(DefineType, s.types, tl, names);
    DeclaredPrinted(Require, s.requirements, rl, names);
    CapabilitiesPrinted(s.capabilities, names);
  }

  // ----- Strategies -----

  /** Types, requirements, capabilities and program nest within the limits, and the chain is not too
      long. */
  predicate StrategyFits(s: Strategy) {
    PartsFit(s) && |s.types| + |s.requirements| + |s.capabilities| + 1 <= MAX_METHODS
  }

  predicate PartsFit(s: Strategy) {
    && (forall n | n in s.types :: TypeFits(s.types[n], 0))
    && (forall n | n in s.requirements :: TypeFits(s.requirements[n], 0))
    && (forall k | 0 <= k < |s.capabilities| :: CapabilityFits(s.capabilities[k]))
    && BlocksFit(s.program, 0)
  }

  ghost predicate TidyStrategy(s: Strategy, names: Names) {
    forall i | 0 <= i < |s.program| :: TidyBlock(s.program[i], names)
  }

  lemma {:induction false} ListingSize(list: seq<string>, s: set<string>)
    requires Listing(list, s)
    ensures |list| == |s|
  {
    if list == [] {
      assert forall x :: x in s ==> x in list;
    } else {
      var n := |list| - 1;
      assert list == list[..n] + [list[n]];
      forall x ensures x in list[..n] <==> x in s - {list[n]} {
        if x in list[..n] { var k :| 0 <= k < n && list[k] == x; }
        if x in s - {list[n]} { assert x in list; }
      }
      assert list[n] in list;
      ListingSize(list[..n], s - {list[n]});
    }
  }

  lemma PartsMean(s: Strategy, tl: seq<string>, rl: seq<string>)
    requires ListsOf(s, tl, rl)
    ensures (forall i | 0 <= i < Count(s, tl, rl) :: OkAt(s, tl, rl, i)) <==> PartsFit(s)
  {
    ListedIn(tl, s.types.Keys);
    ListedIn(rl, s.requirements.Keys);
    if forall i | 0 <= i < Count(s, tl, rl) :: OkAt(s, tl, rl, i) {
      forall n | n in s.types ensures TypeFits(s.types[n], 0) { var k :| 0 <= k < |tl| && tl[k] == n; assert OkAt(s, tl, rl, k); }
      forall n | n in s.requirements ensures TypeFits(s.requirements[n], 0) {
        var k :| 0 <= k < |rl| && rl[k] == n;
        assert OkAt(s, tl, rl, |tl| + k);
      }
      forall k | 0 <= k < |s.capabilities| ensures CapabilityFits(s.capabilities[k]) { assert OkAt(s, tl, rl, |tl| + |rl| + k); }
      assert OkAt(s, tl, rl, Count(s, tl, rl) - 1);
    }
  }

  /** The whole chain of a strategy. */
  lemma ChainParses(s: Strategy, tl: seq<string>, rl: seq<string>, ms: seq<Method>, names: Names)
    requires Lists(names) && ListsOf(s, tl, rl) && BlocksReturn(s.program, 0, names)
    requires |ms| == Count(s, tl, rl) && forall i | 0 <= i < |ms| :: ms[i] == MethodAt(s, tl, rl, i, names)
    ensures ParseMethods(ms, 0, StateAt(s, tl, rl, 0), false, names) == Kept((StateAt(s, tl, rl, |ms|), true), PartsFit(s))
  {
    var n := |ms|;
    var states := seq(n + 1, i requires 0 <= i < n + 1 => StateAt(s, tl, rl, i));
    var oks := seq(n, i requires 0 <= i < n => OkAt(s, tl, rl, i));
    forall k | 0 <= k < n ensures StepAt(ms, states, oks, k, names) { EveryMethodAdvances(s, tl, rl, k, names); }
    Chain(ms, states, oks, 0, names);
    assert AllOk(oks, 0) <==> forall i | 0 <= i < n :: OkAt(s, tl, rl, i) by {
      assert forall i | 0 <= i < n :: oks[i] == OkAt(s, tl, rl, i);
    }
    PartsMean(s, tl, rl);
  }

  lemma FirstAndLast(s: Strategy, tl: seq<string>, rl: seq<string>)
    requires ListsOf(s, tl, rl)
    ensures StateAt(s, tl, rl, 0) == Strategy(s.version, s.id, s.name, map[], map[], [], [])
    ensures StateAt(s, tl, rl, Count(s, tl, rl)) == s
  {
    UptoWhole(s.types, tl);
    UptoWhole(s.requirements, rl);
  }

  /** Parsing a generated strategy gives the same strategy exactly when the parser's own nesting measure
      is at most 64 (two levels for every record, template or call argument, one for every other
      operand and for every block list, even an empty one), its types and JSON literals nest within
      64 levels of their own, and the builder chain has at most 4096 methods. */
  lemma StrategyReturns(s: Strategy, names: Names)
    requires Lists(names) && TidyStrategy(s, names) && (s.version == 1 || s.version == 2)
    ensures ParsedStrategy(PrintStrategy(s, names), names) == Kept(s, StrategyFits(s))
  {
    var tl, rl := names(s.types.Keys), names(s.requirements.Keys);
    NamesListed(s, tl, rl, names);
    BlocksReturn_(s.program, 0, names);
    ChainPrinted(s, tl, rl, names);
    ChainParses(s, tl, rl, PrintStrategy(s, names).methods, names);
    Finished(s, tl, rl, PrintStrategy(s, names), names);
  }

  lemma NamesListed(s: Strategy, tl: seq<string>, rl: seq<string>, names: Names)
    requires Lists(names) && tl == names(s.types.Keys) && rl == names(s.requirements.Keys)
    ensures ListsOf(s, tl, rl)
  {
    assert Listing(tl, s.types.Keys) && Listing(rl, s.requirements.Keys);
    ListedIn(tl, s.types.Keys);
    ListedIn(rl, s.requirements.Keys);
  }

  lemma Finished(s: Strategy, tl: seq<string>, rl: seq<string>, b: Builder, names: Names)
    requires ListsOf(s, tl, rl) && |b.methods| == Count(s, tl, rl)
    requires Empty(b.constructor_) == Some(Strategy(s.version, s.id, s.name, map[], map[], [], []))
    requires ParseMethods(b.methods, 0, StateAt(s, tl, rl, 0), false, names)
      == Kept((StateAt(s, tl, rl, |b.methods|), true), PartsFit(s))
    ensures ParsedStrategy(b, names) == Kept(s, StrategyFits(s))
  {
    FirstAndLast(s, tl, rl);
    ListingSize(tl, s.types.Keys);
    ListingSize(rl, s.requirements.Keys);
  }
}
