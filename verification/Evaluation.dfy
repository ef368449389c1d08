/** The budgeted evaluation of context programs (rust/crates/zf-context/src/context.rs, `Evaluator`)
    as a function of its state. Scoped variables are an argument here; the object in
    EvaluatorObject.dfy keeps them as fields. */
module Evaluation {
  import opened Base
  import opened Types
  import opened Views
  import opened Syntax
  import opened Typing
  import opened Ordering
  import opened Grouping

  datatype Limits = Limits(maxSteps: Word, maxItems: Word, maxBytes: Word)

  /** What an evaluation reads and never changes; `encode` is the compact JSON text of a document. */
  datatype World = World(g: Linked, resources: map<string, Json>, limits: Limits, encode: Json -> string)

  /** Variables in scope, and for each the resources its value came from. */
  datatype Env = Env(values: map<string, View>, sources: map<string, set<string>>)

  function Bind(env: Env, item: string, value: View, sources: set<string>): Env {
    Env(env.values[item := value], env.sources[item := sources])
  }

  /** The part of the evaluator's state that expressions update. */
  datatype Core = Core(
    steps: nat,
    derived: nat,
    used: set<string>,
    allReads: set<string>,
    validated: set<string>,
    diagnosed: bool)

  datatype Access<+T> = Ok(value: T) | Missing(name: string) | Invalid

  /** The same failure, of another kind of value. */
  function Fail<T, U>(a: Access<T>): Access<U>
    requires !a.Ok?
  {
    if a.Missing? then Missing(a.name) else Invalid
  }

  /** A result together with the state after it. */
  datatype Out<+T> = Out(r: Access<T>, st: Core) {
    predicate IsFailure() { !r.Ok? }
    function PropagateFailure<U>(): Out<U>
      requires IsFailure()
    {
      Out(Fail(r), st)
    }
    function Extract(): (T, Core)
      requires !IsFailure()
    {
      (r.value, st)
    }
  }

  function Left(w: World, st: Core): nat {
    if st.steps < w.limits.maxSteps then w.limits.maxSteps - st.steps else 0
  }

  predicate InBudget(w: World, st: Core) {
    st.steps <= w.limits.maxSteps && st.derived <= w.limits.maxBytes
  }

  /** Steps are never given back, reports never withdrawn, consulted resources never forgotten, and
      the step and allocation budgets are never exceeded. */
  predicate Later(w: World, a: Core, b: Core) {
    && a.steps <= b.steps && (a.diagnosed ==> b.diagnosed) && a.allReads <= b.allReads
    && (InBudget(w, a) ==> InBudget(w, b))
  }

  /** No resource was consulted in between. */
  predicate Quiet(a: Core, b: Core) { b.used == a.used && b.allReads == a.allReads }

  // ----- Budgets -----

  function Diagnose<T>(st: Core): Out<T> {
    Out(Invalid, st.(diagnosed := true))
  }

  function Tick(w: World, st: Core): (o: Out<()>)
    ensures o.r.Ok? ==> Left(w, o.st) < Left(w, st)
    ensures Later(w, st, o.st) && Quiet(st, o.st)
  {
    if st.steps >= w.limits.maxSteps then Diagnose(st) else Out(Ok(()), st.(steps := st.steps + 1))
  }

  function Count(w: World, v: View, st: Core): (o: Out<Word>)
    ensures o.r.Ok? ==> o.r.value <= w.limits.maxItems && o.st == st
    ensures Later(w, st, o.st) && Quiet(st, o.st)
  {
    var n := ArrayLen(v);
    if n.None? then Out(Invalid, st)
    else if n.value > w.limits.maxItems then Diagnose(st)
    else Out(Ok(n.value), st)
  }

  function Weigh(w: World, v: View, st: Core): (o: Out<Word>)
    ensures o.r.Ok? ==> o.r.value <= w.limits.maxBytes && o.st == st
    ensures Later(w, st, o.st) && Quiet(st, o.st)
  {
    var n := MeasuredBytes(v, w.encode);
    if n > w.limits.maxBytes then Diagnose(st) else Out(Ok(n), st)
  }

  function Charge(w: World, bytes: nat, st: Core): (o: Out<()>)
    ensures Later(w, st, o.st) && Quiet(st, o.st)
  {
    var left := if st.derived <= w.limits.maxBytes then w.limits.maxBytes - st.derived else 0;
    if bytes > left then Diagnose(st) else Out(Ok(()), st.(derived := st.derived + bytes))
  }

  // ----- Operations on evaluated operands -----

  ghost predicate ValueOk(v: Json, t: DataType, types: Registry) {
    TypeOk(t, types) && Inhabits(v, t, types)
  }

  ghost function Operate(w: World, op: UnaryOp, v: View, st: Core): (o: Out<View>)
    ensures Later(w, st, o.st) && Quiet(st, o.st)
  {
    match op
    case Construct(name) =>
      if AsValue(v).Some? then Checked(w, v, name, st)
      else
        var (n, s) :- Weigh(w, v, st);
        var (_, s1) :- Charge(w, n, s);
        Checked(w, v, name, s1)
    case Take(count) =>
      var (n, s) :- Count(w, v, st);
      var m := if n <= count then n else count;
      Out(Ok(Array(seq(m, i requires 0 <= i < m => Index(v, i).value))), s)
    case Truncate(count) =>
      var text := AsValue(v);
      if text.None? || !text.value.Str? then Out(Invalid, st)
      else
        var prefix := if count < |text.value.s| then text.value.s[..count] else text.value.s;
        var (_, s) :- Charge(w, Utf8Len(prefix), st);
        Out(Ok(Owned(Str(prefix))), s)
    case ToJson =>
      var (_, s) :- Weigh(w, v, st);
      var text := w.encode(Denote(v));
      var (_, s1) :- Charge(w, Utf8Len(text), s);
      Out(Ok(Owned(Str(text))), s1)
    case Measure(unit) =>
      var (n, s) :- match unit
        case Bytes => Weigh(w, v, st)
        case Items => Count(w, v, st)
        case MediaCount => if ArrayLen(v).Some? then Count(w, v, st) else Out(Ok(1), st);
      Out(Ok(Owned(Numeric(Int(n)))), s)
    case FieldOf(field) =>
      var part := Field(v, field);
      if part.None? then Diagnose(st) else Out(Ok(part.value), st)
    case Project(fields) =>
      if exists i | 0 <= i < |fields| :: Field(v, fields[i]).None? then Diagnose(st)
      else Out(Ok(Object(map k | k in fields :: Field(v, k).value)), st)
  }

  /** The run-time check of an explicit construction. */
  ghost function Checked(w: World, v: View, name: string, st: Core): Out<View> {
    if ValueOk(Denote(v), Named(name), w.g.types) then Out(Ok(v), st) else Diagnose(st)
  }

  /** A value evaluated for an argument, and the resources read so far. */
  datatype Bound = Bound(value: View, used: set<string>)

  function BoundValues(args: seq<Arg>, bs: seq<Bound>): map<string, View>
    requires |bs| == |args|
  {
    if args == [] then map[]
    else
      var n := |args| - 1;
      BoundValues(args[..n], bs[..n])[args[n].name := bs[n].value]
  }

  function BoundReads(args: seq<Arg>, bs: seq<Bound>): map<string, set<string>>
    requires |bs| == |args|
  {
    if args == [] then map[]
    else
      var n := |args| - 1;
      BoundReads(args[..n], bs[..n])[args[n].name := bs[n].used]
  }

  /** The text of a template, part by part, within the byte budget. */
  function Fill(w: World, parts: seq<Part>, i: nat, values: map<string, View>, text: string, st: Core): (o: Out<string>)
    requires i <= |parts|
    ensures Later(w, st, o.st) && Quiet(st, o.st)
    decreases |parts| - i
  {
    if i == |parts| then Out(Ok(text), st)
    else
      var next := match parts[i]
        case Plain(t) => Some(t)
        case Hole(name) =>
          if name in values && AsValue(values[name]).Some? && AsValue(values[name]).value.Str?
          then Some(AsValue(values[name]).value.s) else None;
      if next.None? then Out(Invalid, st)
      else if Utf8Len(text) + Utf8Len(next.value) > w.limits.maxBytes then Diagnose(st)
      else Fill(w, parts, i + 1, values, text + next.value, st)
  }

  function Assemble(w: World, op: BuildOp, args: seq<Arg>, bs: seq<Bound>, st: Core): (o: Out<View>)
    requires |bs| == |args|
    ensures Later(w, st, o.st) && Quiet(st, o.st)
  {
    match op
    case RecordOf => Out(Ok(Object(BoundValues(args, bs))), st)
    case ListOf(_) => Out(Ok(Array(seq(|bs|, i requires 0 <= i < |bs| => bs[i].value))), st)
    case Template(source) =>
      var parts := TemplateParts(source);
      if parts.None? then Out(Invalid, st)
      else
        var (text, s) :- Fill(w, parts.value, 0, BoundValues(args, bs), "", st);
        var (_, s1) :- Charge(w, Utf8Len(text), s);
        Out(Ok(Owned(Str(text))), s1)
  }

  /** One evaluated key with its element. */
  datatype Entry = Entry(key: View, value: View)

  function SortPairs(es: seq<Entry>): seq<(Json, View)> {
    seq(|es|, i requires 0 <= i < |es| => (Denote(es[i].key), es[i].value))
  }

  function Codes(w: World, es: seq<Entry>): seq<(string, Entry)> {
    seq(|es|, i requires 0 <= i < |es| => (w.encode(Denote(es[i].key)), es[i]))
  }

  /** Charges the encoded keys one after the other. */
  function ChargeCodes(w: World, codes: seq<(string, Entry)>, i: nat, st: Core): (o: Out<()>)
    requires i <= |codes|
    ensures Later(w, st, o.st) && Quiet(st, o.st)
    decreases |codes| - i
  {
    if i == |codes| then Out(Ok(()), st)
    else
      var (_, s) :- Charge(w, Utf8Len(codes[i].0), st);
      ChargeCodes(w, codes, i + 1, s)
  }

  function GroupView(b: Bucket<string, Entry>): View {
    if b.items == [] then Object(map[])
    else
      var items: View := Array(seq(|b.items|, i requires 0 <= i < |b.items| => b.items[i].value));
      Object(map["key" := b.items[0].key, "items" := items])
  }

  function Regroup(w: World, op: KeyedOp, es: seq<Entry>, st: Core): (o: Out<View>)
    ensures Later(w, st, o.st) && Quiet(st, o.st)
  {
    match op
    case MapOp => Out(Ok(Array(seq(|es|, i requires 0 <= i < |es| => es[i].key))), st)
    case SortOp(descending) =>
      var sorted := Sort(SortPairs(es), descending);
      Out(Ok(Array(seq(|sorted|, i requires 0 <= i < |sorted| => sorted[i].1))), st)
    case DedupOp =>
      var (_, s) :- ChargeCodes(w, Codes(w, es), 0, st);
      var kept := Dedup(Codes(w, es));
      Out(Ok(Array(seq(|kept|, i requires 0 <= i < |kept| => kept[i].value))), s)
    case GroupOp =>
      var (_, s) :- ChargeCodes(w, Codes(w, es), 0, st);
      var groups := Buckets(Codes(w, es));
      Out(Ok(Array(seq(|groups|, i requires 0 <= i < |groups| => GroupView(groups[i])))), s)
  }

  // ----- Expressions -----

  ghost function Read(w: World, name: string, st: Core): (o: Out<View>)
    ensures Later(w, st, o.st)
  {
    var s := st.(used := st.used + {name}, allReads := st.allReads + {name});
    if name !in w.resources then Out(Missing(name), s)
    else
      var v := Owned(w.resources[name]);
      if name in s.validated then Out(Ok(v), s)
      else
        var (_, s1) :- Weigh(w, v, s);
        if name !in w.g.requirements then Out(Invalid, s1)
        else if ValueOk(w.resources[name], w.g.requirements[name], w.g.types)
        then Out(Ok(v), s1.(validated := s1.validated + {name}))
        else Diagnose(s1)
  }

  function Lookup(env: Env, name: string, st: Core): (o: Out<View>)
    ensures o.st == st.(used := o.st.used)
  {
    var s := if name in env.sources then st.(used := st.used + env.sources[name]) else st;
    if name in env.values then Out(Ok(env.values[name]), s) else Out(Invalid, s)
  }

  /** Refused before any operand is evaluated. */
  function Refused(w: World, op: BuildOp, args: seq<Arg>, st: Core): (o: Out<()>)
    ensures Later(w, st, o.st) && Quiet(st, o.st)
  {
    if op.ListOf? && |args| > w.limits.maxItems then Diagnose(st)
    else if op.Template? && TemplateParts(op.text).None? then Out(Invalid, st)
    else Out(Ok(()), st)
  }

  ghost function Expression(w: World, env: Env, e: Expr, st: Core): (o: Out<View>)
    ensures Later(w, st, o.st)
    decreases Left(w, st), 0, 0
  {
    var (_, s) :- Tick(w, st);
    Evaluate(w, env, e, s)
  }

  /** An expression whose step has been counted. */
  ghost function Evaluate(w: World, env: Env, e: Expr, st: Core): (o: Out<View>)
    ensures Later(w, st, o.st)
    decreases Left(w, st), 3, 0
  {
    match e
    case Variable(name) => Lookup(env, name, st)
    case Resource(name) => Read(w, name, st)
    case Literal(_, json) => Out(Ok(Owned(json)), st)
    case Unary(op, value) =>
      var (v, s) :- Expression(w, env, value, st);
      Operate(w, op, v, s)
    case Filter(value, item, condition) => Filtered(w, env, value, item, condition, st)
    case Keyed(op, value, item, key) => Rekeyed(w, env, op, value, item, key, st)
    case Build(op, args) => Built(w, env, op, args, st)
    case Call(key, args) => Called(w, env, key, args, st)
  }

  ghost function Filtered(w: World, env: Env, value: Expr, item: string, condition: Pred, st: Core): (o: Out<View>)
    ensures Later(w, st, o.st)
    decreases Left(w, st), 2, 0
  {
    var (source, s1) :- Expression(w, env, value, st);
    var (n, s2) :- Count(w, source, s1);
    var (kept, s3) :- FilterLoop(w, env, source, n, 0, item, condition, s2.used, [], s2);
    Out(Ok(Array(kept)), s3)
  }

  ghost function Rekeyed(w: World, env: Env, op: KeyedOp, value: Expr, item: string, key: Expr, st: Core): (o: Out<View>)
    ensures Later(w, st, o.st)
    decreases Left(w, st), 2, 0
  {
    var (source, s1) :- Expression(w, env, value, st);
    var (n, s2) :- Count(w, source, s1);
    var (es, s3) :- KeyedLoop(w, env, source, n, 0, item, key, !op.MapOp?, s2.used, [], s2);
    Regroup(w, op, es, s3)
  }

  ghost function Built(w: World, env: Env, op: BuildOp, args: seq<Arg>, st: Core): (o: Out<View>)
    ensures Later(w, st, o.st)
    decreases Left(w, st), 2, 0
  {
    var (_, s1) :- Refused(w, op, args, st);
    var (bs, s2) :- Arguments(w, env, args, 0, [], s1);
    Assemble(w, op, args, bs, s2)
  }

  ghost function Called(w: World, env: Env, key: Key, args: seq<Arg>, st: Core): (o: Out<View>)
    ensures Later(w, st, o.st)
    decreases Left(w, st), 2, 0
  {
    if key !in w.g.library then Out(Invalid, st)
    else
      var (bs, s1) :- Arguments(w, env, args, 0, [], st);
      Expression(w, Env(BoundValues(args, bs), BoundReads(args, bs)), w.g.library[key].body, s1)
  }

  ghost function Arguments(w: World, env: Env, args: seq<Arg>, i: nat, done: seq<Bound>, st: Core): (o: Out<seq<Bound>>)
    requires i == |done| <= |args|
    ensures Later(w, st, o.st)
    ensures o.r.Ok? ==> |o.r.value| == |args|
    decreases Left(w, st), 1, |args| - i
  {
    if i == |args| then Out(Ok(done), st)
    else
      var (v, s) :- Expression(w, env, args[i].value, st);
      Arguments(w, env, args, i + 1, done + [Bound(v, s.used)], s)
  }

  /** Whether the element at `i` is kept. */
  ghost function FilterStep(w: World, env: Env, source: View, i: nat, item: string, condition: Pred,
    sources: set<string>, st: Core): (o: Out<bool>)
    ensures Later(w, st, o.st) && (o.r.Ok? ==> Left(w, o.st) < Left(w, st) && Index(source, i).Some?)
    decreases Left(w, st), 0, 1
  {
    var (_, s) :- Tick(w, st);
    var value := Index(source, i);
    if value.None? then Out(Invalid, s) else Predicate(w, Bind(env, item, value.value, sources), condition, s)
  }

  ghost function FilterLoop(w: World, env: Env, source: View, n: nat, i: nat, item: string, condition: Pred,
    sources: set<string>, kept: seq<View>, st: Core): (o: Out<seq<View>>)
    requires i <= n
    ensures Later(w, st, o.st)
    decreases Left(w, st), 1, n - i
  {
    if i == n then Out(Ok(kept), st)
    else
      var (keep, s) :- FilterStep(w, env, source, i, item, condition, sources, st);
      FilterLoop(w, env, source, n, i + 1, item, condition, sources, if keep then kept + [Index(source, i).value] else kept, s)
  }

  /** Unfolding one element of a filter. */
  lemma FilterTurn(w: World, env: Env, source: View, n: nat, i: nat, item: string, condition: Pred,
    sources: set<string>, kept: seq<View>, st: Core)
    requires i < n
    ensures var step := FilterStep(w, env, source, i, item, condition, sources, st);
      FilterLoop(w, env, source, n, i, item, condition, sources, kept, st)
        == if step.r.Ok?
           then FilterLoop(w, env, source, n, i + 1, item, condition, sources,
                  if step.r.value then kept + [Index(source, i).value] else kept, step.st)
           else Out(Fail(step.r), step.st)
  {
  }

  /** The key of the element at `i`, charged unless it is itself the result. */
  ghost function KeyedStep(w: World, env: Env, source: View, i: nat, item: string, key: Expr, charged: bool,
    sources: set<string>, st: Core): (o: Out<Entry>)
    ensures Later(w, st, o.st) && (o.r.Ok? ==> Left(w, o.st) < Left(w, st))
    decreases Left(w, st), 0, 1
  {
    var (_, s) :- Tick(w, st);
    var value := Index(source, i);
    if value.None? then Out(Invalid, s)
    else
      var (k, s1) :- Expression(w, Bind(env, item, value.value, sources), key, s);
      Keep(w, k, value.value, charged, s1)
  }

  /** Unfolding one element of a keyed loop. */
  lemma KeyedTurn(w: World, env: Env, source: View, n: nat, i: nat, item: string, key: Expr, charged: bool,
    sources: set<string>, done: seq<Entry>, st: Core)
    requires i < n
    ensures var step := KeyedStep(w, env, source, i, item, key, charged, sources, st);
      KeyedLoop(w, env, source, n, i, item, key, charged, sources, done, st)
        == if step.r.Ok? then KeyedLoop(w, env, source, n, i + 1, item, key, charged, sources, done + [step.r.value], step.st)
           else Out(Fail(step.r), step.st)
  {
  }

  function Keep(w: World, key: View, value: View, charged: bool, st: Core): (o: Out<Entry>)
    ensures Later(w, st, o.st) && Quiet(st, o.st)
  {
    var (_, s) :- if charged then ChargeValue(w, key, st) else Out(Ok(()), st);
    Out(Ok(Entry(key, value)), s)
  }

  ghost function KeyedLoop(w: World, env: Env, source: View, n: nat, i: nat, item: string, key: Expr, charged: bool,
    sources: set<string>, done: seq<Entry>, st: Core): (o: Out<seq<Entry>>)
    requires i <= n
    ensures Later(w, st, o.st)
    decreases Left(w, st), 1, n - i
  {
    if i == n then Out(Ok(done), st)
    else
      var (entry, s) :- KeyedStep(w, env, source, i, item, key, charged, sources, st);
      KeyedLoop(w, env, source, n, i + 1, item, key, charged, sources, done + [entry], s)
  }

  function ChargeValue(w: World, v: View, st: Core): (o: Out<()>)
    ensures Later(w, st, o.st) && Quiet(st, o.st)
  {
    var (n, s) :- Weigh(w, v, st);
    Charge(w, n, s)
  }

  // ----- Conditions -----

  function Holds(op: Comparison, order: Order): bool {
    match op
    case Lt => order == Less
    case Lte => order != Greater
    case Gt => order == Greater
    case Gte => order != Less
    case Ne => order != Equal
  }

  /** `text` occurs in `whole`. */
  predicate Occurs(text: string, whole: string) {
    |text| <= |whole| && (whole[..|text|] == text || (whole != [] && Occurs(text, whole[1..])))
  }

  function CompareOut(op: Comparison, l: View, r: View, st: Core): Out<bool> {
    if op == Ne then Out(Ok(!Equivalent(l, r)), st)
    else
      var a, b := AsValue(l), AsValue(r);
      if a.None? || b.None? || CompareJson(a.value, b.value).None? then Out(Invalid, st)
      else Out(Ok(Holds(op, CompareJson(a.value, b.value).value)), st)
  }

  /** Whether `v` contains `x`: a text within a text, or an element of a list. */
  function Member(w: World, v: View, x: View, st: Core): (o: Out<bool>)
    ensures Later(w, st, o.st) && Quiet(st, o.st)
  {
    if AsValue(v).Some? && AsValue(v).value.Str? then
      if AsValue(x).Some? && AsValue(x).value.Str?
      then Out(Ok(Occurs(AsValue(x).value.s, AsValue(v).value.s)), st) else Out(Invalid, st)
    else
      var (n, s) :- Count(w, v, st);
      ContainsLoop(w, v, x, n, 0, s)
  }

  ghost function Predicate(w: World, env: Env, p: Pred, st: Core): (o: Out<bool>)
    ensures Later(w, st, o.st)
    decreases Left(w, st), 0, 0
  {
    var (_, s) :- Tick(w, st);
    Test(w, env, p, s)
  }

  /** A condition whose step has been counted. */
  ghost function Test(w: World, env: Env, p: Pred, s: Core): (o: Out<bool>)
    ensures Later(w, s, o.st)
    decreases Left(w, s), 3, 0
  {
    match p
    case Compare(left, op, right) =>
      var (l, s1) :- Expression(w, env, left, s);
      var (r, s2) :- Expression(w, env, right, s1);
      CompareOut(op, l, r, s2)
    case Contains(value, element) =>
      var (v, s1) :- Expression(w, env, value, s);
      var (x, s2) :- Expression(w, env, element, s1);
      Member(w, v, x, s2)
    case Present(value) =>
      var o := Expression(w, env, value, s);
      if o.r.Ok? then Out(Ok(true), o.st)
      else if o.r.Missing? then Out(Ok(false), o.st)
      else Out(Invalid, o.st)
    case Eq(left, right) =>
      var (l, s1) :- Expression(w, env, left, s);
      var (r, s2) :- Expression(w, env, right, s1);
      Out(Ok(Equivalent(l, r)), s2)
    case And(items) => Junction(w, env, items, 0, true, s)
    case Or(items) => Junction(w, env, items, 0, false, s)
    case Not(item) =>
      var (b, s1) :- Predicate(w, env, item, s);
      Out(Ok(!b), s1)
  }

  function ContainsLoop(w: World, v: View, x: View, n: nat, i: nat, st: Core): (o: Out<bool>)
    requires i <= n
    ensures Later(w, st, o.st) && Quiet(st, o.st)
    decreases n - i
  {
    if i == n then Out(Ok(false), st)
    else
      var (_, s) :- Tick(w, st);
      var y := Index(v, i);
      if y.Some? && Equivalent(y.value, x) then Out(Ok(true), s) else ContainsLoop(w, v, x, n, i + 1, s)
  }

  /** Conjunction (`all`) or disjunction, left to right, stopping at the deciding condition. */
  ghost function Junction(w: World, env: Env, items: seq<Pred>, i: nat, all: bool, st: Core): (o: Out<bool>)
    requires i <= |items|
    ensures Later(w, st, o.st)
    decreases Left(w, st), 1, |items| - i
  {
    if i == |items| then Out(Ok(all), st)
    else
      var (b, s) :- Predicate(w, env, items[i], st);
      if b != all then Out(Ok(b), s) else Junction(w, env, items, i + 1, all, s)
  }
}
