/** The meaning of context programs over plain documents: no budgets, no views, no provenance, no
    mutable state. Library calls are unfolded at most `calls` deep; the library order found by the
    checker shows that its length is always enough. */
module Meaning {
  import opened Base
  import opened Types
  import opened Syntax
  import opened Typing
  import opened Ordering
  import opened Grouping
  import opened Evaluation

  datatype Basis = Basis(g: Linked, resources: map<string, Json>, encode: Json -> string)

  function BasisOf(w: World): Basis {
    Basis(w.g, w.resources, w.encode)
  }

  type Values = map<string, Json>

  function Bytes_(v: Json, encode: Json -> string): nat {
    if v.Str? then Utf8Len(v.s) else Utf8Len(encode(v))
  }

  function Amount(n: nat): Access<Json> {
    if n < WORD then Ok(Numeric(Int(n))) else Invalid
  }

  ghost function Operation(b: Basis, op: UnaryOp, v: Json): Access<Json> {
    match op
    case Construct(name) => if ValueOk(v, Named(name), b.g.types) then Ok(v) else Invalid
    case Take(count) =>
      if v.Arr? then Ok(Arr(if count < |v.items| then v.items[..count] else v.items)) else Invalid
    case Truncate(count) =>
      if v.Str? then Ok(Str(if count < |v.s| then v.s[..count] else v.s)) else Invalid
    case ToJson => Ok(Str(b.encode(v)))
    case Measure(unit) =>
      (match unit
       case Bytes => Amount(Bytes_(v, b.encode))
       case Items => if v.Arr? then Amount(|v.items|) else Invalid
       case MediaCount => Amount(if v.Arr? then |v.items| else 1))
    case FieldOf(field) => if v.Obj? && field in v.fields then Ok(v.fields[field]) else Invalid
    case Project(fields) =>
      if v.Obj? && forall i | 0 <= i < |fields| :: fields[i] in v.fields
      then Ok(Obj(map k | k in fields :: v.fields[k])) else Invalid
  }

  function Named_(args: seq<Arg>, vs: seq<Json>): Values
    requires |vs| == |args|
  {
    if args == [] then map[]
    else
      var n := |args| - 1;
      Named_(args[..n], vs[..n])[args[n].name := vs[n]]
  }

  /** The text of a template. */
  function Text_(parts: seq<Part>, i: nat, values: Values, text: string): Access<string>
    requires i <= |parts|
    decreases |parts| - i
  {
    if i == |parts| then Ok(text)
    else match parts[i]
      case Plain(t) => Text_(parts, i + 1, values, text + t)
      case Hole(name) =>
        if name in values && values[name].Str? then Text_(parts, i + 1, values, text + values[name].s) else Invalid
  }

  function Construction(op: BuildOp, args: seq<Arg>, vs: seq<Json>): Access<Json>
    requires |vs| == |args|
  {
    match op
    case RecordOf => Ok(Obj(Named_(args, vs)))
    case ListOf(_) => Ok(Arr(vs))
    case Template(source) =>
      var parts := TemplateParts(source);
      if parts.None? then Invalid
      else
        var text := Text_(parts.value, 0, Named_(args, vs), "");
        if text.Ok? then Ok(Str(text.value)) else Invalid
  }

  function GroupJson(b: Bucket<Json, Json>): Json {
    Obj(map["key" := b.code, "items" := Arr(b.items)])
  }

  /** What a keyed operation makes of its (key, element) pairs. */
  function Rearranged(op: KeyedOp, pairs: seq<(Json, Json)>): Json {
    match op
    case MapOp => Arr(seq(|pairs|, i requires 0 <= i < |pairs| => pairs[i].0))
    case SortOp(descending) =>
      var sorted := Sort(pairs, descending);
      Arr(seq(|sorted|, i requires 0 <= i < |sorted| => sorted[i].1))
    case DedupOp => Arr(Dedup(pairs))
    case GroupOp =>
      var groups := Buckets(pairs);
      Arr(seq(|groups|, i requires 0 <= i < |groups| => GroupJson(groups[i])))
  }

  ghost function Value_(b: Basis, calls: nat, env: Values, e: Expr): Access<Json>
    decreases calls, e, 0
  {
    match e
    case Variable(name) => if name in env then Ok(env[name]) else Invalid
    case Resource(name) =>
      if name !in b.resources then Missing(name)
      else if name in b.g.requirements && ValueOk(b.resources[name], b.g.requirements[name], b.g.types)
      then Ok(b.resources[name]) else Invalid
    case Literal(_, json) => Ok(json)
    case Unary(op, value) =>
      var v := Value_(b, calls, env, value);
      if v.Ok? then Operation(b, op, v.value) else v
    case Filter(value, item, condition) =>
      var v := Value_(b, calls, env, value);
      if !v.Ok? then v else if !v.value.Arr? then Invalid else
      var kept := Selected(b, calls, env, v.value.items, 0, item, condition, []);
      if kept.Ok? then Ok(Arr(kept.value)) else Fail(kept)
    case Keyed(op, value, item, key) =>
      var v := Value_(b, calls, env, value);
      if !v.Ok? then v else if !v.value.Arr? then Invalid else
      var pairs := Paired(b, calls, env, v.value.items, 0, item, key, []);
      if pairs.Ok? then Ok(Rearranged(op, pairs.value)) else Fail(pairs)
    case Build(op, args) =>
      if op.Template? && TemplateParts(op.text).None? then Invalid else
      var vs := Values_(b, calls, env, args, 0, []);
      if vs.Ok? then Construction(op, args, vs.value) else Fail(vs)
    case Call(key, args) =>
      if key !in b.g.library then Invalid else
      var vs := Values_(b, calls, env, args, 0, []);
      if !vs.Ok? then Fail(vs)
      else if calls == 0 then Invalid
      else Value_(b, calls - 1, Named_(args, vs.value), b.g.library[key].body)
  }

  ghost function Values_(b: Basis, calls: nat, env: Values, args: seq<Arg>, i: nat, done: seq<Json>): (r: Access<seq<Json>>)
    requires i == |done| <= |args|
    ensures r.Ok? ==> |r.value| == |args|
    decreases calls, args, |args| - i
  {
    if i == |args| then Ok(done)
    else
      var v := Value_(b, calls, env, args[i].value);
      if v.Ok? then Values_(b, calls, env, args, i + 1, done + [v.value]) else Fail(v)
  }

  ghost function Selected(b: Basis, calls: nat, env: Values, items: seq<Json>, i: nat, item: string, condition: Pred, kept: seq<Json>): Access<seq<Json>>
    requires i <= |items|
    decreases calls, condition, 1, |items| - i
  {
    if i == |items| then Ok(kept)
    else
      var keep := Truth(b, calls, env[item := items[i]], condition);
      if keep.Ok?
      then Selected(b, calls, env, items, i + 1, item, condition, if keep.value then kept + [items[i]] else kept)
      else Fail(keep)
  }

  ghost function Paired(b: Basis, calls: nat, env: Values, items: seq<Json>, i: nat, item: string, key: Expr, done: seq<(Json, Json)>): Access<seq<(Json, Json)>>
    requires i <= |items|
    decreases calls, key, 1, |items| - i
  {
    if i == |items| then Ok(done)
    else
      var k := Value_(b, calls, env[item := items[i]], key);
      if k.Ok? then Paired(b, calls, env, items, i + 1, item, key, done + [(k.value, items[i])]) else Fail(k)
  }

  ghost function Truth(b: Basis, calls: nat, env: Values, p: Pred): Access<bool>
    decreases calls, p, 0
  {
    match p
    case Compare(left, op, right) =>
      var l := Value_(b, calls, env, left);
      if !l.Ok? then Fail(l) else
      var r := Value_(b, calls, env, right);
      if !r.Ok? then Fail(r)
      else if op == Ne then Ok(l.value != r.value)
      else if CompareJson(l.value, r.value).None? then Invalid
      else Ok(Holds(op, CompareJson(l.value, r.value).value))
    case Contains(value, element) =>
      var v := Value_(b, calls, env, value);
      if !v.Ok? then Fail(v) else
      var x := Value_(b, calls, env, element);
      if !x.Ok? then Fail(x)
      else if v.value.Str? && x.value.Str? then Ok(Occurs(x.value.s, v.value.s))
      else if v.value.Arr? then Ok(x.value in v.value.items)
      else Invalid
    case Present(value) =>
      var v := Value_(b, calls, env, value);
      if v.Invalid? then Invalid else Ok(v.Ok?)
    case Eq(left, right) =>
      var l := Value_(b, calls, env, left);
      if !l.Ok? then Fail(l) else
      var r := Value_(b, calls, env, right);
      if !r.Ok? then Fail(r) else Ok(l.value == r.value)
    case And(items) => Decided(b, calls, env, items, 0, true)
    case Or(items) => Decided(b, calls, env, items, 0, false)
    case Not(item) =>
      var t := Truth(b, calls, env, item);
      if t.Ok? then Ok(!t.value) else t
  }

  ghost function Decided(b: Basis, calls: nat, env: Values, items: seq<Pred>, i: nat, all: bool): Access<bool>
    requires i <= |items|
    decreases calls, items, 0, |items| - i
  {
    if i == |items| then Ok(all)
    else
      var t := Truth(b, calls, env, items[i]);
      if !t.Ok? || t.value != all then t else Decided(b, calls, env, items, i + 1, all)
  }
}
