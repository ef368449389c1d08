/** The evaluator as the object it is in the source (rust/crates/zf-context/src/context.rs,
    `Evaluator`): fields updated step by step, scoped variables inserted and restored, loops that stop
    at the first failure. Each method is proved against the specification of Evaluation.dfy and
    Blocks.dfy, and to leave the scope as it found it on every path. */
module EvaluatorObject {
  import opened Base
  import opened Types
  import opened TypeWalk
  import opened Pointers
  import opened Views
  import opened Syntax
  import opened Ordering
  import opened Grouping
  import Spec = Evaluation
  import opened Evaluation
  import BlockSpec = Blocks
  import opened Blocks

  /** `validate_value`: the type must be valid and the value must be one of its values. */
  method ValidateValue(v: Json, t: DataType, types: Registry) returns (ok: bool)
    ensures ok <==> ValueOk(v, t, types)
  {
    ok := ValidateType(t, types);
    if ok { ok := Inhabits(v, t, types); }
  }

  class Evaluator {
    const w: World
    var variables: map<string, View>
    var variableSources: map<string, set<string>>
    var steps: nat
    var derived: nat
    var reads_: set<string>
    var allReads: set<string>
    var validated: set<string>
    var diagnosed: bool
    var needs: map<string, seq<string>>
    var outputBytes: nat
    var outputItems: nat
    var outputIds: set<string>
    var trace: seq<Trace>
    var iterations: seq<Iteration>

    constructor (w: World, ids: set<string>)
      ensures this.w == w && Env_() == Env(map[], map[]) && iterations == []
      ensures Run_() == Run(EMPTY, map[], 0, 0, ids, [])
    {
      this.w := w;
      variables, variableSources := map[], map[];
      steps, derived, reads_, allReads, validated, diagnosed := 0, 0, {}, {}, {}, false;
      needs, outputBytes, outputItems, outputIds, trace, iterations := map[], 0, 0, ids, [], [];
    }

    ghost function Core_(): Core
      reads this
    {
      Core(steps, derived, reads_, allReads, validated, diagnosed)
    }

    ghost function Run_(): Run
      reads this
    {
      Run(Core_(), needs, outputBytes, outputItems, outputIds, trace)
    }

    ghost function Env_(): Env
      reads this
    {
      Env(variables, variableSources)
    }

    // ----- Budgets -----

    method Error<T>() returns (r: Access<T>)
      modifies this`diagnosed
      ensures Out(r, Core_()) == Diagnose(old(Core_()))
    {
      diagnosed := true;
      r := Invalid;
    }

    method Tick() returns (r: Access<()>)
      modifies this`steps, this`diagnosed
      ensures Out(r, Core_()) == Spec.Tick(w, old(Core_()))
    {
      if steps >= w.limits.maxSteps {
        r := Error();
      } else {
        steps := steps + 1;
        r := Ok(());
      }
    }

    method Items(v: View) returns (r: Access<Word>)
      modifies this`diagnosed
      ensures Out(r, Core_()) == Count(w, v, old(Core_()))
    {
      var count := ArrayLen(v);
      if count.None? {
        r := Invalid;
      } else if count.value > w.limits.maxItems {
        r := Error();
      } else {
        r := Ok(count.value);
      }
    }

    method Bytes_(v: View) returns (r: Access<Word>)
      modifies this`diagnosed
      ensures Out(r, Core_()) == Weigh(w, v, old(Core_()))
    {
      var n := MeasuredBytes(v, w.encode);
      if n > w.limits.maxBytes {
        r := Error();
      } else {
        r := Ok(n);
      }
    }

    method Charge(bytes: nat) returns (r: Access<()>)
      modifies this`derived, this`diagnosed
      ensures Out(r, Core_()) == Spec.Charge(w, bytes, old(Core_()))
    {
      var left := if derived <= w.limits.maxBytes then w.limits.maxBytes - derived else 0;
      if bytes > left {
        r := Error();
      } else {
        derived := derived + bytes;
        r := Ok(());
      }
    }

    // ----- Scopes -----

    /** Inserts a variable and reports what it hid. */
    method Enter(item: string, value: View, sources: set<string>) returns (previous: Option<View>, previousSources: Option<set<string>>)
      modifies this`variables, this`variableSources
      ensures Env_() == Bind(old(Env_()), item, value, sources)
      ensures previous == (if item in old(variables) then Some(old(variables)[item]) else None)
      ensures previousSources == (if item in old(variableSources) then Some(old(variableSources)[item]) else None)
    {
      previous := if item in variables then Some(variables[item]) else None;
      previousSources := if item in variableSources then Some(variableSources[item]) else None;
      variables, variableSources := variables[item := value], variableSources[item := sources];
    }

    /** Restores what `Enter` hid. */
    method Restore(item: string, previous: Option<View>, previousSources: Option<set<string>>,
      ghost outer: Env, ghost value: View, ghost sources: set<string>)
      requires Env_() == Bind(outer, item, value, sources)
      requires previous == (if item in outer.values then Some(outer.values[item]) else None)
      requires previousSources == (if item in outer.sources then Some(outer.sources[item]) else None)
      modifies this`variables, this`variableSources
      ensures Env_() == outer
    {
      assert variables - {item} == outer.values - {item} && variableSources - {item} == outer.sources - {item};
      Restored(variables, outer.values, item);
      Restored(variableSources, outer.sources, item);
      variables := if previous.Some? then variables[item := previous.value] else variables - {item};
      variableSources := if previousSources.Some? then variableSources[item := previousSources.value] else variableSources - {item};
    }

    // ----- Expressions -----

    method Expression(e: Expr) returns (r: Access<View>)
      modifies this`variables, this`variableSources, this`steps, this`derived, this`reads_, this`allReads, this`validated, this`diagnosed
      ensures Out(r, Core_()) == Spec.Expression(w, old(Env_()), e, old(Core_()))
      ensures Env_() == old(Env_())
      decreases Left(w, Core_()), 0, 0
    {
      var tick := Tick();
      if !tick.Ok? { return Invalid; }
      r := Evaluate(e);
    }

    method Evaluate(e: Expr) returns (r: Access<View>)
      modifies this`variables, this`variableSources, this`steps, this`derived, this`reads_, this`allReads, this`validated, this`diagnosed
      ensures Out(r, Core_()) == Spec.Evaluate(w, old(Env_()), e, old(Core_()))
      ensures Env_() == old(Env_())
      decreases Left(w, Core_()), 3, 0
    {
      match e
      case Variable(name) =>
        if name in variableSources { reads_ := reads_ + variableSources[name]; }
        r := if name in variables then Ok(variables[name]) else Invalid;
      case Resource(name) => r := Read(name);
      case Literal(_, json) => r := Ok(Owned(json));
      case Unary(op, value) =>
        r := Expression(value);
        if r.Ok? { r := Operate(op, r.value); }
      case Filter(value, item, condition) => r := Filtered(value, item, condition);
      case Keyed(op, value, item, key) => r := Rekeyed(op, value, item, key);
      case Build(op, args) => r := Built(op, args);
      case Call(key, args) => r := Called(key, args);
    }

    method Read(name: string) returns (r: Access<View>)
      modifies this`reads_, this`allReads, this`validated, this`diagnosed
      ensures Out(r, Core_()) == Spec.Read(w, name, old(Core_()))
    {
      reads_, allReads := reads_ + {name}, allReads + {name};
      if name !in w.resources { return Missing(name); }
      var v := Owned(w.resources[name]);
      if name !in validated {
        var bytes := Bytes_(v);
        if !bytes.Ok? { return Invalid; }
        if name !in w.g.requirements { return Invalid; }
        var ok := ValidateValue(w.resources[name], w.g.requirements[name], w.g.types);
        if !ok {
          diagnosed := true;
          return Invalid;
        }
        validated := validated + {name};
      }
      r := Ok(v);
    }

    method Operate(op: UnaryOp, v: View) returns (r: Access<View>)
      modifies this`derived, this`diagnosed
      ensures Out(r, Core_()) == Spec.Operate(w, op, v, old(Core_()))
    {
      match op
      case Construct(name) =>
        if AsValue(v).None? {
          var bytes := Bytes_(v);
          if !bytes.Ok? { return Invalid; }
          var charged := Charge(bytes.value);
          if !charged.Ok? { return Invalid; }
        }
        var ok := ValidateValue(Denote(v), Named(name), w.g.types);
        if ok { r := Ok(v); } else { r := Error(); }
      case Take(count) =>
        var n := Items(v);
        if !n.Ok? { return Invalid; }
        var m := if n.value <= count then n.value else count;
        r := Ok(Array(seq(m, i requires 0 <= i < m => Index(v, i).value)));
      case Truncate(count) =>
        var text := AsValue(v);
        if text.None? || !text.value.Str? { return Invalid; }
        var prefix := if count < |text.value.s| then text.value.s[..count] else text.value.s;
        var charged := Charge(Utf8Len(prefix));
        r := if charged.Ok? then Ok(Owned(Str(prefix))) else Invalid;
      case ToJson =>
        var bytes := Bytes_(v);
        if !bytes.Ok? { return Invalid; }
        var text := w.encode(Denote(v));
        var charged := Charge(Utf8Len(text));
        r := if charged.Ok? then Ok(Owned(Str(text))) else Invalid;
      case Measure(unit) =>
        var n: Access<Word>;
        match unit {
          case Bytes => n := Bytes_(v);
          case Items => n := Items(v);
          case MediaCount => if ArrayLen(v).Some? { n := Items(v); } else { n := Ok(1); }
        }
        r := if n.Ok? then Ok(Owned(Numeric(Int(n.value)))) else Invalid;
      case FieldOf(field) =>
        var part := Field(v, field);
        if part.Some? { r := Ok(part.value); } else { r := Error(); }
      case Project(fields) =>
        r := Projected(v, fields);
    }

    method Projected(v: View, fields: seq<string>) returns (r: Access<View>)
      modifies this`diagnosed
      ensures Out(r, Core_()) == Spec.Operate(w, Project(fields), v, old(Core_()))
    {
      var selected: map<string, View> := map[];
      var i := 0;
      while i < |fields|
        invariant i <= |fields| && forall j | 0 <= j < i :: Field(v, fields[j]).Some?
        invariant selected == map k | k in fields[..i] :: Field(v, k).value
        invariant diagnosed == old(diagnosed)
      {
        var part := Field(v, fields[i]);
        if part.None? {
          r := Error();
          return;
        }
        ProjectMore(v, fields, i);
        selected := selected[fields[i] := part.value];
        i := i + 1;
      }
      assert fields[..i] == fields;
      r := Ok(Object(selected));
    }

    method Filtered(value: Expr, item: string, condition: Pred) returns (r: Access<View>)
      modifies this`variables, this`variableSources, this`steps, this`derived, this`reads_, this`allReads, this`validated, this`diagnosed
      ensures Out(r, Core_()) == Spec.Filtered(w, old(Env_()), value, item, condition, old(Core_()))
      ensures Env_() == old(Env_())
      decreases Left(w, Core_()), 2, 0
    {
      FilteredSteps(w, Env_(), value, item, condition, Core_());
      r := Expression(value);
      if !r.Ok? { return; }
      var source := r.value;
      var n := Items(source);
      if !n.Ok? { return Invalid; }
      var kept := FilterLoop(source, n.value, item, condition);
      r := if kept.Ok? then Ok(Array(kept.value)) else Fail<seq<View>, View>(kept);
    }

    method FilterLoop(source: View, n: nat, item: string, condition: Pred) returns (r: Access<seq<View>>)
      modifies this`variables, this`variableSources, this`steps, this`derived, this`reads_, this`allReads, this`validated, this`diagnosed
      ensures Out(r, Core_()) == Spec.FilterLoop(w, old(Env_()), source, n, 0, item, condition, old(reads_), [], old(Core_()))
      ensures Env_() == old(Env_())
      decreases Left(w, Core_()), 1, 0
    {
      var sources := reads_;
      var kept: seq<View> := [];
      var i := 0;
      while i < n
        invariant i <= n && Env_() == old(Env_()) && Left(w, Core_()) <= old(Left(w, Core_()))
        invariant Spec.FilterLoop(w, old(Env_()), source, n, i, item, condition, sources, kept, Core_())
               == Spec.FilterLoop(w, old(Env_()), source, n, 0, item, condition, sources, [], old(Core_()))
      {
        var selected := FilterStep(source, i, item, condition, sources);
        if !selected.Ok? { return Fail<bool, seq<View>>(selected); }
        if selected.value { kept := kept + [Index(source, i).value]; }
        i := i + 1;
      }
      r := Ok(kept);
    }

    /** Tests one element with its variable in scope, and restores the scope whatever the outcome. */
    method FilterStep(source: View, i: nat, item: string, condition: Pred, sources: set<string>) returns (r: Access<bool>)
      modifies this`variables, this`variableSources, this`steps, this`derived, this`reads_, this`allReads, this`validated, this`diagnosed
      ensures Out(r, Core_()) == Spec.FilterStep(w, old(Env_()), source, i, item, condition, sources, old(Core_()))
      ensures Env_() == old(Env_())
      decreases Left(w, Core_()), 0, 1
    {
      var tick := Tick();
      if !tick.Ok? { return Invalid; }
      var value := Index(source, i);
      if value.None? { return Invalid; }
      var previous, previousSources := Enter(item, value.value, sources);
      r := Predicate(condition);
      Restore(item, previous, previousSources, old(Env_()), value.value, sources);
    }

    method Rekeyed(op: KeyedOp, value: Expr, item: string, key: Expr) returns (r: Access<View>)
      modifies this`variables, this`variableSources, this`steps, this`derived, this`reads_, this`allReads, this`validated, this`diagnosed
      ensures Out(r, Core_()) == Spec.Rekeyed(w, old(Env_()), op, value, item, key, old(Core_()))
      ensures Env_() == old(Env_())
      decreases Left(w, Core_()), 2, 1
    {
      var es := Entries(op, value, item, key);
      if !es.Ok? { return Fail<seq<Entry>, View>(es); }
      r := Regroup(op, es.value);
    }

    /** The keyed elements, which the operation then rearranges. */
    method Entries(op: KeyedOp, value: Expr, item: string, key: Expr) returns (es: Access<seq<Entry>>)
      modifies this`variables, this`variableSources, this`steps, this`derived, this`reads_, this`allReads, this`validated, this`diagnosed
      ensures var o := Spec.Rekeyed(w, old(Env_()), op, value, item, key, old(Core_()));
        o == if es.Ok? then Spec.Regroup(w, op, es.value, Core_()) else Out(Fail(es), Core_())
      ensures Env_() == old(Env_())
      decreases Left(w, Core_()), 2, 0
    {
      var source := Expression(value);
      ghost var a := Out(source, Core_());
      if !source.Ok? {
        RekeyedFirst(w, old(Env_()), op, value, item, key, old(Core_()), a);
        return Fail<View, seq<Entry>>(source);
      }
      es := Keyed_(source.value, item, key, !op.MapOp?);
      RekeyedLast(w, old(Env_()), op, value, item, key, old(Core_()), a, Out(es, Core_()));
    }

    method Keyed_(source: View, item: string, key: Expr, charged: bool) returns (es: Access<seq<Entry>>)
      modifies this`variables, this`variableSources, this`steps, this`derived, this`reads_, this`allReads, this`validated, this`diagnosed
      ensures Out(es, Core_()) == KeyedOf(w, old(Env_()), source, item, key, charged, old(Core_()))
      ensures Env_() == old(Env_())
      decreases Left(w, Core_()), 1, 1
    {
      var n := Items(source);
      if !n.Ok? { return Invalid; }
      es := KeyedLoop(source, n.value, item, key, charged);
    }

    method KeyedLoop(source: View, n: nat, item: string, key: Expr, charged: bool) returns (r: Access<seq<Entry>>)
      modifies this`variables, this`variableSources, this`steps, this`derived, this`reads_, this`allReads, this`validated, this`diagnosed
      ensures Out(r, Core_()) == Spec.KeyedLoop(w, old(Env_()), source, n, 0, item, key, charged, old(reads_), [], old(Core_()))
      ensures Env_() == old(Env_())
      decreases Left(w, Core_()), 1, 0
    {
      var sources := reads_;
      var done: seq<Entry> := [];
      var i := 0;
      while i < n
        invariant i <= n && Env_() == old(Env_()) && Left(w, Core_()) <= old(Left(w, Core_()))
        invariant Spec.KeyedLoop(w, old(Env_()), source, n, i, item, key, charged, sources, done, Core_())
               == Spec.KeyedLoop(w, old(Env_()), source, n, 0, item, key, charged, sources, [], old(Core_()))
      {
        KeyedTurn(w, Env_(), source, n, i, item, key, charged, sources, done, Core_());
        var entry := KeyedStep(source, i, item, key, charged, sources);
        if !entry.Ok? { return Fail<Entry, seq<Entry>>(entry); }
        done := done + [entry.value];
        i := i + 1;
      }
      r := Ok(done);
    }

    method KeyedStep(source: View, i: nat, item: string, key: Expr, charged: bool, sources: set<string>) returns (r: Access<Entry>)
      modifies this`variables, this`variableSources, this`steps, this`derived, this`reads_, this`allReads, this`validated, this`diagnosed
      ensures Out(r, Core_()) == Spec.KeyedStep(w, old(Env_()), source, i, item, key, charged, sources, old(Core_()))
      ensures Env_() == old(Env_())
      decreases Left(w, Core_()), 0, 1
    {
      var tick := Tick();
      if !tick.Ok? { return Invalid; }
      var value := Index(source, i);
      if value.None? { return Invalid; }
      var result := KeyOf(item, value.value, sources, key);
      if !result.Ok? { return Fail<View, Entry>(result); }
      r := Keep(result.value, value.value, charged);
    }

    /** Evaluates one key with its variable in scope, and restores the scope whatever the outcome. */
    method KeyOf(item: string, value: View, sources: set<string>, key: Expr) returns (r: Access<View>)
      modifies this`variables, this`variableSources, this`steps, this`derived, this`reads_, this`allReads, this`validated, this`diagnosed
      ensures Out(r, Core_()) == Spec.Expression(w, Bind(old(Env_()), item, value, sources), key, old(Core_()))
      ensures Env_() == old(Env_())
      decreases Left(w, Core_()), 0, 1
    {
      var previous, previousSources := Enter(item, value, sources);
      r := Expression(key);
      Restore(item, previous, previousSources, old(Env_()), value, sources);
    }

    method Keep(key: View, value: View, charged: bool) returns (r: Access<Entry>)
      modifies this`derived, this`diagnosed
      ensures Out(r, Core_()) == Spec.Keep(w, key, value, charged, old(Core_()))
    {
      if charged {
        var bytes := Bytes_(key);
        if !bytes.Ok? { return Invalid; }
        var ok := Charge(bytes.value);
        if !ok.Ok? { return Invalid; }
      }
      r := Ok(Entry(key, value));
    }

    method Regroup(op: KeyedOp, es: seq<Entry>) returns (r: Access<View>)
      modifies this`derived, this`diagnosed
      ensures Out(r, Core_()) == Spec.Regroup(w, op, es, old(Core_()))
    {
      match op
      case MapOp => r := Ok(Array(seq(|es|, i requires 0 <= i < |es| => es[i].key)));
      case SortOp(descending) =>
        var sorted := Sort(SortPairs(es), descending);
        r := Ok(Array(seq(|sorted|, i requires 0 <= i < |sorted| => sorted[i].1)));
      case DedupOp => r := Deduped(es);
      case GroupOp => r := Grouped(es);
    }

    /** Keeps the first element of every encoded key. */
    method Deduped(es: seq<Entry>) returns (r: Access<View>)
      modifies this`derived, this`diagnosed
      ensures Out(r, Core_()) == Spec.Regroup(w, DedupOp, es, old(Core_()))
    {
      ghost var codes := Codes(w, es);
      var seen: set<string> := {};
      var kept: seq<Entry> := [];
      var i := 0;
      while i < |es|
        invariant i <= |es| && ChargeCodes(w, codes, i, Core_()) == ChargeCodes(w, codes, 0, old(Core_()))
        invariant kept == Dedup(codes[..i])
        invariant forall c :: c in seen <==> Seen(codes[..i], c)
      {
        var code := w.encode(Denote(es[i].key));
        var ok := Charge(Utf8Len(code));
        if !ok.Ok? { return Invalid; }
        SeenMore(codes, i);
        if code !in seen {
          seen := seen + {code};
          kept := kept + [es[i]];
        }
        i := i + 1;
      }
      assert codes[..i] == codes;
      r := Ok(Array(seq(|kept|, j requires 0 <= j < |kept| => kept[j].value)));
    }

    /** Collects the elements of every encoded key, in order of first appearance. */
    method Grouped(es: seq<Entry>) returns (r: Access<View>)
      modifies this`derived, this`diagnosed
      ensures Out(r, Core_()) == Spec.Regroup(w, GroupOp, es, old(Core_()))
    {
      ghost var codes := Codes(w, es);
      var groups: seq<Bucket<string, Entry>> := [];
      var i := 0;
      while i < |es|
        invariant i <= |es| && ChargeCodes(w, codes, i, Core_()) == ChargeCodes(w, codes, 0, old(Core_()))
        invariant groups == Buckets(codes[..i])
      {
        var code := w.encode(Denote(es[i].key));
        var ok := Charge(Utf8Len(code));
        if !ok.Ok? { return Invalid; }
        assert codes[..i + 1][..i] == codes[..i];
        var position := Position(groups, code);
        if position.None? {
          groups := groups + [Bucket(code, [es[i]])];
        } else {
          groups := groups[position.value := Bucket(code, groups[position.value].items + [es[i]])];
        }
        i := i + 1;
      }
      assert codes[..i] == codes;
      r := Ok(Array(seq(|groups|, j requires 0 <= j < |groups| => GroupView(groups[j]))));
    }

    method Arguments(args: seq<Arg>) returns (r: Access<seq<Bound>>)
      modifies this`variables, this`variableSources, this`steps, this`derived, this`reads_, this`allReads, this`validated, this`diagnosed
      ensures Out(r, Core_()) == Spec.Arguments(w, old(Env_()), args, 0, [], old(Core_()))
      ensures Env_() == old(Env_())
      decreases Left(w, Core_()), 1, 0
    {
      var done: seq<Bound> := [];
      var i := 0;
      while i < |args|
        invariant i == |done| <= |args| && Env_() == old(Env_()) && Left(w, Core_()) <= old(Left(w, Core_()))
        invariant Spec.Arguments(w, old(Env_()), args, i, done, Core_()) == Spec.Arguments(w, old(Env_()), args, 0, [], old(Core_()))
      {
        var value := Expression(args[i].value);
        if !value.Ok? { return Fail<View, seq<Bound>>(value); }
        done := done + [Bound(value.value, reads_)];
        i := i + 1;
      }
      r := Ok(done);
    }

    method Built(op: BuildOp, args: seq<Arg>) returns (r: Access<View>)
      modifies this`variables, this`variableSources, this`steps, this`derived, this`reads_, this`allReads, this`validated, this`diagnosed
      ensures Out(r, Core_()) == Spec.Built(w, old(Env_()), op, args, old(Core_()))
      ensures Env_() == old(Env_())
      decreases Left(w, Core_()), 2, 0
    {
      if op.ListOf? && |args| > w.limits.maxItems {
        r := Error();
        return;
      }
      if op.Template? && TemplateParts(op.text).None? { return Invalid; }
      var bs := Arguments(args);
      if !bs.Ok? { return Fail<seq<Bound>, View>(bs); }
      match op
      case RecordOf => r := Ok(Object(BoundValues(args, bs.value)));
      case ListOf(_) => r := Ok(Array(seq(|bs.value|, i requires 0 <= i < |bs.value| => bs.value[i].value)));
      case Template(text) => r := Filled(TemplateParts(text).value, BoundValues(args, bs.value));
    }

    method Filled(parts: seq<Part>, values: map<string, View>) returns (r: Access<View>)
      modifies this`derived, this`diagnosed
      ensures var text := Fill(w, parts, 0, values, "", old(Core_()));
        Out(r, Core_()) == if !text.r.Ok? then Out(Fail(text.r), text.st)
          else var charged := Spec.Charge(w, Utf8Len(text.r.value), text.st);
            if charged.r.Ok? then Out(Ok(Owned(Str(text.r.value))), charged.st) else Out(Fail(charged.r), charged.st)
    {
      var text := "";
      var i := 0;
      while i < |parts|
        invariant i <= |parts| && Fill(w, parts, i, values, text, Core_()) == Fill(w, parts, 0, values, "", old(Core_()))
        invariant Core_() == old(Core_())
      {
        var next := "";
        match parts[i] {
          case Plain(t) => next := t;
          case Hole(name) =>
            if name !in values || AsValue(values[name]).None? || !AsValue(values[name]).value.Str? { return Invalid; }
            next := AsValue(values[name]).value.s;
        }
        if Utf8Len(text) + Utf8Len(next) > w.limits.maxBytes {
          r := Error();
          return;
        }
        text := text + next;
        i := i + 1;
      }
      var charged := Charge(Utf8Len(text));
      r := if charged.Ok? then Ok(Owned(Str(text))) else Invalid;
    }

    /** A library call: the caller's scope is put aside and comes back whatever the outcome. */
    method Called(key: Key, args: seq<Arg>) returns (r: Access<View>)
      modifies this`variables, this`variableSources, this`steps, this`derived, this`reads_, this`allReads, this`validated, this`diagnosed
      ensures Out(r, Core_()) == Spec.Called(w, old(Env_()), key, args, old(Core_()))
      ensures Env_() == old(Env_())
      decreases Left(w, Core_()), 2, 0
    {
      if key !in w.g.library { return Invalid; }
      var bs := Arguments(args);
      if !bs.Ok? { return Fail<seq<Bound>, View>(bs); }
      var previous, previousSources := variables, variableSources;
      variables, variableSources := BoundValues(args, bs.value), BoundReads(args, bs.value);
      r := Expression(w.g.library[key].body);
      variables, variableSources := previous, previousSources;
    }

    method Predicate(p: Pred) returns (r: Access<bool>)
      modifies this`variables, this`variableSources, this`steps, this`derived, this`reads_, this`allReads, this`validated, this`diagnosed
      ensures Out(r, Core_()) == Spec.Predicate(w, old(Env_()), p, old(Core_()))
      ensures Env_() == old(Env_())
      decreases Left(w, Core_()), 0, 0
    {
      var tick := Tick();
      if !tick.Ok? { return Invalid; }
      r := Test(p);
    }

    method Test(p: Pred) returns (r: Access<bool>)
      modifies this`variables, this`variableSources, this`steps, this`derived, this`reads_, this`allReads, this`validated, this`diagnosed
      ensures Out(r, Core_()) == Spec.Test(w, old(Env_()), p, old(Core_()))
      ensures Env_() == old(Env_())
      decreases Left(w, Core_()), 3, 0
    {
      match p
      case Compare(left, op, right) =>
        var l := Expression(left);
        if !l.Ok? { return Fail<View, bool>(l); }
        var x := Expression(right);
        if !x.Ok? { return Fail<View, bool>(x); }
        r := CompareOut(op, l.value, x.value, EMPTY).r;
      case Contains(value, element) =>
        var v := Expression(value);
        if !v.Ok? { return Fail<View, bool>(v); }
        var x := Expression(element);
        if !x.Ok? { return Fail<View, bool>(x); }
        r := Member(v.value, x.value);
      case Present(value) =>
        var v := Expression(value);
        r := if v.Invalid? then Invalid else Ok(v.Ok?);
      case Eq(left, right) =>
        var l := Expression(left);
        if !l.Ok? { return Fail<View, bool>(l); }
        var x := Expression(right);
        if !x.Ok? { return Fail<View, bool>(x); }
        r := Ok(Equivalent(l.value, x.value));
      case And(items) => r := Junction(items, true);
      case Or(items) => r := Junction(items, false);
      case Not(item) =>
        r := Predicate(item);
        if r.Ok? { r := Ok(!r.value); }
    }

    method Member(v: View, x: View) returns (r: Access<bool>)
      modifies this`steps, this`diagnosed
      ensures Out(r, Core_()) == Spec.Member(w, v, x, old(Core_()))
    {
      if AsValue(v).Some? && AsValue(v).value.Str? {
        if AsValue(x).Some? && AsValue(x).value.Str? {
          return Ok(Occurs(AsValue(x).value.s, AsValue(v).value.s));
        }
        return Invalid;
      }
      var n := Items(v);
      if !n.Ok? { return Invalid; }
      r := Among(v, x, n.value);
    }

    method Among(v: View, x: View, n: nat) returns (r: Access<bool>)
      modifies this`steps, this`diagnosed
      ensures Out(r, Core_()) == ContainsLoop(w, v, x, n, 0, old(Core_()))
    {
      var i := 0;
      while i < n
        invariant i <= n && ContainsLoop(w, v, x, n, i, Core_()) == ContainsLoop(w, v, x, n, 0, old(Core_()))
      {
        var tick := Tick();
        if !tick.Ok? { return Invalid; }
        var y := Index(v, i);
        if y.Some? && Equivalent(y.value, x) { return Ok(true); }
        i := i + 1;
      }
      r := Ok(false);
    }

    /** Stops at the first condition that decides a conjunction (`all`) or a disjunction. */
    method Junction(items: seq<Pred>, all: bool) returns (r: Access<bool>)
      modifies this`variables, this`variableSources, this`steps, this`derived, this`reads_, this`allReads, this`validated, this`diagnosed
      ensures Out(r, Core_()) == Spec.Junction(w, old(Env_()), items, 0, all, old(Core_()))
      ensures Env_() == old(Env_())
      decreases Left(w, Core_()), 1, 0
    {
      var i := 0;
      while i < |items|
        invariant i <= |items| && Env_() == old(Env_()) && Left(w, Core_()) <= old(Left(w, Core_()))
        invariant Spec.Junction(w, old(Env_()), items, i, all, Core_()) == Spec.Junction(w, old(Env_()), items, 0, all, old(Core_()))
      {
        r := Predicate(items[i]);
        if !r.Ok? || r.value != all { return; }
        i := i + 1;
      }
      r := Ok(all);
    }

    // ----- Blocks -----

    /** A missing resource becomes a need; any other failure has already been reported. */
    method Demand(failure: Access<()>, path: string)
      modifies this`needs
      ensures Run_() == BlockSpec.Demand(old(Run_()), failure, path)
    {
      if failure.Missing? {
        var paths := if failure.name in needs then needs[failure.name] else [];
        if path !in paths { paths := paths + [path]; }
        needs := needs[failure.name := paths];
      }
    }

    /** Outside loops the authored identifier; inside, a new one that is reserved at once. */
    method NewId(blockId: string, path: string) returns (id: string)
      modifies this`outputIds
      ensures (id, outputIds) == OccurrenceId(old(outputIds), blockId, path, iterations != [])
    {
      if iterations == [] { return blockId; }
      id := blockId + "@" + path;
      while id in outputIds
        invariant outputIds == old(outputIds) && Fresh(outputIds, id) == Fresh(outputIds, blockId + "@" + path)
        decreases |Longer(outputIds, |id|)|
      {
        FewerLonger(outputIds, id);
        id := id + "_";
      }
      outputIds := outputIds + {id};
    }

    method CountOutput() returns (ok: bool)
      modifies this`outputItems, this`diagnosed
      ensures (ok, Run_()) == BlockSpec.CountOutput(w, old(Run_()))
    {
      ok := outputItems < w.limits.maxItems;
      if ok { outputItems := outputItems + 1; } else { diagnosed := true; }
    }

    /** The fragment of an evaluated value, within the output budgets. */
    method Emitted(b: Block, id: string, v: View) returns (items: seq<Item>)
      requires b.Emit?
      modifies this`outputBytes, this`outputItems, this`diagnosed
      ensures Result(items, None, Run_()) == Output(w, b, id, v, old(Run_()))
    {
      items := [];
      var bytes := Bytes_(v);
      if !bytes.Ok? { return; }
      var left := if outputBytes <= w.limits.maxBytes then w.limits.maxBytes - outputBytes else 0;
      if bytes.value > left {
        diagnosed := true;
        return;
      }
      var ok := CountOutput();
      if ok {
        outputBytes := outputBytes + bytes.value;
        items := [Fragment(id, b.role, b.format, v, reads_)];
      }
    }

    method Blocks_(blocks: seq<Block>, path: string) returns (output: seq<Item>)
      modifies this
      ensures (output, Run_()) == All(w, old(Env_()), old(iterations), blocks, 0, path, [], old(Run_()))
      ensures Env_() == old(Env_()) && iterations == old(iterations)
      decreases Left(w, Core_()), 1, 0
    {
      output := [];
      var i := 0;
      while i < |blocks|
        invariant i <= |blocks| && Env_() == old(Env_()) && iterations == old(iterations)
        invariant Left(w, Core_()) <= old(Left(w, Core_()))
        invariant All(w, old(Env_()), iterations, blocks, i, path, output, Run_())
               == All(w, old(Env_()), old(iterations), blocks, 0, path, [], old(Run_()))
      {
        var tick := Tick();
        if !tick.Ok? { return; }
        if |trace| >= w.limits.maxItems {
          diagnosed := true;
          return;
        }
        var items := One(blocks[i], At(path, i));
        output := output + items;
        i := i + 1;
      }
    }

    /** One block: identifier, own provenance, evaluation, trace, provenance restored. */
    method One(b: Block, path: string) returns (items: seq<Item>)
      modifies this
      ensures var r := BlockSpec.One(w, old(Env_()), old(iterations), b, path, old(Run_())); items == r.items && Run_() == r.run
      ensures Env_() == old(Env_()) && iterations == old(iterations)
      decreases Left(w, Core_()), 3, 0
    {
      var id := NewId(b.id, path);
      var previous := reads_;
      reads_ := {};
      var outcome;
      items, outcome := Body(b, id, path);
      Record(b, id, path, items, outcome);
      reads_ := reads_ + previous;
    }

    method Record(b: Block, id: string, path: string, items: seq<Item>, outcome: Option<bool>)
      modifies this`trace, this`diagnosed
      ensures Run_() == Record_(w, b, id, path, iterations, Result(items, outcome, old(Run_())))
    {
      if |trace| < w.limits.maxItems {
        trace := trace + [Trace(id, b.id, path, reads_, iterations, ItemIds(items), outcome)];
      } else {
        diagnosed := true;
      }
    }

    method Body(b: Block, id: string, path: string) returns (items: seq<Item>, outcome: Option<bool>)
      modifies this
      ensures Result(items, outcome, Run_()) == BlockSpec.Body(w, old(Env_()), old(iterations), b, id, path, old(Run_()))
      ensures Env_() == old(Env_()) && iterations == old(iterations)
      decreases Left(w, Core_()), 2, 2
    {
      outcome := None;
      match b
      case Group(_, _, _) => items := GroupBody(b, id, path);
      case Emit(_, _, _, _) => items := EmitBody(b, id, path);
      case If(_, _, _, _) => items, outcome := IfBody(b, id, path);
      case ForEach(_, _, _, _) => items := ForEachBody(b, id, path);
    }

    method GroupBody(b: Block, id: string, path: string) returns (items: seq<Item>)
      requires b.Group?
      modifies this
      ensures Result(items, None, Run_()) == BlockSpec.Body(w, old(Env_()), old(iterations), b, id, path, old(Run_()))
      ensures Env_() == old(Env_()) && iterations == old(iterations)
      decreases Left(w, Core_()), 2, 1
    {
      items := [];
      var ok := CountOutput();
      if ok {
        var children := Blocks_(b.items, path + ".items");
        items := [ItemGroup(id, b.title, children)];
      }
    }

    method EmitBody(b: Block, id: string, path: string) returns (items: seq<Item>)
      requires b.Emit?
      modifies this
      ensures Result(items, None, Run_()) == BlockSpec.Body(w, old(Env_()), old(iterations), b, id, path, old(Run_()))
      ensures Env_() == old(Env_()) && iterations == old(iterations)
      decreases Left(w, Core_()), 2, 1
    {
      items := [];
      var v := Expression(b.value);
      if v.Ok? { items := Emitted(b, id, v.value); } else { Demand(Failure(v), path); }
    }

    method IfBody(b: Block, id: string, path: string) returns (items: seq<Item>, outcome: Option<bool>)
      requires b.If?
      modifies this
      ensures Result(items, outcome, Run_()) == BlockSpec.Body(w, old(Env_()), old(iterations), b, id, path, old(Run_()))
      ensures Env_() == old(Env_()) && iterations == old(iterations)
      decreases Left(w, Core_()), 2, 1
    {
      items, outcome := [], None;
      var chosen := Predicate(b.condition);
      if chosen.Ok? {
        outcome := Some(chosen.value);
        items := Blocks_(if chosen.value then b.yes else b.no, path + (if chosen.value then ".then" else ".else"));
      } else {
        Demand(Failure(chosen), path);
      }
    }

    method ForEachBody(b: Block, id: string, path: string) returns (items: seq<Item>)
      requires b.ForEach?
      modifies this
      ensures Result(items, None, Run_()) == BlockSpec.Body(w, old(Env_()), old(iterations), b, id, path, old(Run_()))
      ensures Env_() == old(Env_()) && iterations == old(iterations)
      decreases Left(w, Core_()), 2, 1
    {
      items := [];
      var source := Expression(b.value);
      if source.Ok? {
        var n := Items(source.value);
        if n.Ok? { items := Loop(b, source.value, n.value, path); }
      } else {
        Demand(Failure(source), path);
      }
    }

    /** The scope of a loop over `item`: all else as outside, and the item's sources in place. */
    ghost predicate Inside(outer: Env, item: string, sources: set<string>)
      reads this
    {
      variables - {item} == outer.values - {item} && variableSources == outer.sources[item := sources]
    }

    /** A loop hides its variable for all its turns and restores it after the last one. */
    method Loop(b: Block, source: View, n: nat, path: string) returns (output: seq<Item>)
      requires b.ForEach?
      modifies this
      ensures (output, Run_()) == BlockSpec.Loop(w, old(Env_()), old(iterations), b, source, n, 0, old(reads_), path, [], old(Run_()))
      ensures Env_() == old(Env_()) && iterations == old(iterations)
      decreases Left(w, Core_()), 1, 1
    {
      var sources := reads_;
      var previousSources := if b.item in variableSources then Some(variableSources[b.item]) else None;
      variableSources := variableSources[b.item := sources];
      var previous := if b.item in variables then Some(variables[b.item]) else None;
      variables := variables - {b.item};
      output := Turns(b, source, n, path, sources, old(Env_()));
      Restored(variables, old(variables), b.item);
      assert variableSources - {b.item} == old(variableSources) - {b.item};
      Restored(variableSources, old(variableSources), b.item);
      variables := if previous.Some? then variables[b.item := previous.value] else variables - {b.item};
      variableSources := if previousSources.Some? then variableSources[b.item := previousSources.value] else variableSources - {b.item};
    }

    method Turns(b: Block, source: View, n: nat, path: string, sources: set<string>, ghost outer: Env) returns (output: seq<Item>)
      requires b.ForEach? && Inside(outer, b.item, sources)
      modifies this
      ensures (output, Run_()) == BlockSpec.Loop(w, outer, old(iterations), b, source, n, 0, sources, path, [], old(Run_()))
      ensures Inside(outer, b.item, sources) && iterations == old(iterations)
      decreases Left(w, Core_()), 1, 0
    {
      output := [];
      var i := 0;
      while i < n
        invariant i <= n && iterations == old(iterations) && Left(w, Core_()) <= old(Left(w, Core_()))
        invariant Inside(outer, b.item, sources)
        invariant BlockSpec.Loop(w, outer, iterations, b, source, n, i, sources, path, output, Run_())
               == BlockSpec.Loop(w, outer, old(iterations), b, source, n, 0, sources, path, [], old(Run_()))
      {
        var tick := Tick();
        if !tick.Ok? || |trace| >= w.limits.maxItems {
          diagnosed := true;
          return;
        }
        var value := Index(source, i);
        if value.Some? {
          var items := Turn(b, value.value, i, path, sources, outer);
          output := output + items;
        }
        i := i + 1;
      }
    }

    /** One turn: the element is bound, the iteration is pushed for its blocks and popped after them. */
    method Turn(b: Block, value: View, i: nat, path: string, sources: set<string>, ghost outer: Env) returns (items: seq<Item>)
      requires b.ForEach? && Inside(outer, b.item, sources)
      modifies this
      ensures (items, Run_()) == BlockSpec.Turn(w, outer, old(iterations), b, value, i, sources, path, old(Run_()))
      ensures Inside(outer, b.item, sources) && iterations == old(iterations)
      decreases Left(w, Core_()), 2, 0
    {
      Rebound(variables, outer.values, b.item, value);
      variables := variables[b.item := value];
      iterations := iterations + [Iteration(b.id, i)];
      items := Blocks_(b.items, path + ".iterations[" + Decimal(i) + "].items");
      iterations := iterations[..|iterations| - 1];
      assert variables - {b.item} == outer.values - {b.item};
    }
  }

  /** Maps that differ at most at `k` agree once `k` is set. */
  lemma Rebound<V>(a: map<string, V>, b: map<string, V>, k: string, v: V)
    requires a - {k} == b - {k}
    ensures a[k := v] == b[k := v]
  {
    var x, y := a[k := v], b[k := v];
    assert forall n | n in a && n != k :: n in a - {k} && (a - {k})[n] == (b - {k})[n];
    assert forall n | n in b && n != k :: n in b - {k};
    assert forall n | n in x :: n in y && x[n] == y[n];
    assert forall n | n in y :: n in x;
  }

  /** Setting `k` back to its old entry, or removing it where there was none, restores a map. */
  lemma Restored<V>(a: map<string, V>, b: map<string, V>, k: string)
    requires a - {k} == b - {k}
    ensures k in b ==> a[k := b[k]] == b
    ensures k !in b ==> a - {k} == b
  {
    if k in b {
      Rebound(a, b, k, b[k]);
      assert b[k := b[k]] == b;
    } else {
      assert b - {k} == b;
    }
  }

  /** The evaluation of an accepted program by the object. */
  method EvaluateProgram(w: World, program: seq<Block>) returns (ev: Evaluated)
    ensures ev == Evaluation_(w, program)
  {
    var ids := set i | 0 <= i < |BlockIds(program)| :: BlockIds(program)[i];
    var evaluator := new Evaluator(w, ids);
    var items := evaluator.Blocks_(program, "program");
    ev := Evaluated(items, Run(
      Core(evaluator.steps, evaluator.derived, evaluator.reads_, evaluator.allReads, evaluator.validated, evaluator.diagnosed),
      evaluator.needs, evaluator.outputBytes, evaluator.outputItems, evaluator.outputIds, evaluator.trace));
  }

  lemma ProjectMore(v: View, fields: seq<string>, i: nat)
    requires i < |fields| && forall j | 0 <= j <= i :: Field(v, fields[j]).Some?
    ensures (map k | k in fields[..i] :: Field(v, k).value)[fields[i] := Field(v, fields[i]).value]
         == map k | k in fields[..i + 1] :: Field(v, k).value
  {
    assert fields[..i + 1] == fields[..i] + [fields[i]];
  }

  /** The three stages of a filter. */
  lemma FilteredSteps(w: World, env: Env, value: Expr, item: string, condition: Pred, st: Core)
    ensures var o := Spec.Filtered(w, env, value, item, condition, st);
      var a := Spec.Expression(w, env, value, st);
      if !a.r.Ok? then o == Out(Fail(a.r), a.st) else
      var n := Count(w, a.r.value, a.st);
      if !n.r.Ok? then o == Out(Fail(n.r), n.st) else
      var kept := Spec.FilterLoop(w, env, a.r.value, n.r.value, 0, item, condition, n.st.used, [], n.st);
      o == if kept.r.Ok? then Out(Ok(Array(kept.r.value)), kept.st) else Out(Fail(kept.r), kept.st)
  {
  }

  lemma RekeyedFirst(w: World, env: Env, op: KeyedOp, value: Expr, item: string, key: Expr, st: Core, a: Out<View>)
    requires a == Spec.Expression(w, env, value, st) && !a.r.Ok?
    ensures Spec.Rekeyed(w, env, op, value, item, key, st) == Out(Fail(a.r), a.st)
  {
  }

  /** The keyed elements of an evaluated list. */
  ghost function KeyedOf(w: World, env: Env, source: View, item: string, key: Expr, charged: bool, st: Core): Out<seq<Entry>> {
    var (n, s) :- Count(w, source, st);
    Spec.KeyedLoop(w, env, source, n, 0, item, key, charged, s.used, [], s)
  }

  /** The stages of a keyed operation. */
  lemma RekeyedLast(w: World, env: Env, op: KeyedOp, value: Expr, item: string, key: Expr, st: Core, a: Out<View>, es: Out<seq<Entry>>)
    requires a == Spec.Expression(w, env, value, st) && a.r.Ok?
    requires es == KeyedOf(w, env, a.r.value, item, key, !op.MapOp?, a.st)
    ensures es.r.Ok? ==> Spec.Rekeyed(w, env, op, value, item, key, st) == Spec.Regroup(w, op, es.r.value, es.st)
    ensures !es.r.Ok? ==> Spec.Rekeyed(w, env, op, value, item, key, st) == Out(Fail(es.r), es.st)
  {
  }

  lemma SeenMore(codes: seq<(string, Entry)>, i: nat)
    requires i < |codes|
    ensures Dedup(codes[..i + 1]) == Dedup(codes[..i]) + (if Seen(codes[..i], codes[i].0) then [] else [codes[i].1])
    ensures forall c :: Seen(codes[..i + 1], c) <==> Seen(codes[..i], c) || c == codes[i].0
  {
    assert codes[..i + 1][..i] == codes[..i];
    assert codes[..i + 1] == codes[..i] + [codes[i]];
  }
}
