/** The linked checker of context programs (rust/crates/zf-context/src/context.rs, `Checker`) as it
    threads its mutable state, and its agreement with the typing rules. */
module Checker {
  import opened Base
  import opened Types
  import opened Syntax
  import opened Typing

  const MAX_DEPTH := 64
  const MAX_BLOCKS := 4096

  /** `failed` stands for a nonempty list of diagnostics; `done` lists checked functions in order. */
  datatype State = State(failed: bool, nodes: nat, ids: set<string>, done: seq<Key>, active: set<Key>) {
    function Fail(bad: bool): State {
      if bad then this.(failed := true) else this
    }
  }

  datatype Typed = Typed(t: Option<DataType>, st: State)

  function Room(depth: nat): nat {
    if depth <= MAX_DEPTH then MAX_DEPTH + 1 - depth else 0
  }

  /** Counts one visited node; false beyond the depth or node limit. */
  function Enter(depth: nat, st: State): (bool, State) {
    var s := st.(nodes := st.nodes + 1);
    if depth > MAX_DEPTH || s.nodes > MAX_BLOCKS then (false, s.Fail(true)) else (true, s)
  }

  ghost function Function_(g: Linked, key: Key, depth: nat, st: State): (r: Typed)
    decreases Room(depth), 0, 0
  {
    var (ok, s) := Enter(depth, st);
    if !ok then Typed(None, s)
    else if key !in g.library || key in s.active then Typed(None, s.Fail(true))
    else
      var f := g.library[key];
      if key in s.done then Typed(Some(f.output), s)
      else
        var s1 := s.(active := s.active + {key}).Fail(Misdeclared(g, key, f));
        var body := Expression(g, f.parameters, true, f.body, depth + 1, s1);
        var s2 := body.st.Fail(body.t.Some? && !Compatible(body.t.value, f.output, g.types));
        Typed(Some(f.output), s2.(active := s2.active - {key}, done := s2.done + [key]))
  }

  /** The item type of a collection operand. */
  ghost function CollectionItem(g: Linked, scope: Scope, inFunction: bool, value: Expr, item: string, depth: nat, st: State): (r: Typed)
    decreases Room(depth), 1, 0
  {
    var source := Expression(g, scope, inFunction, value, depth, st.Fail(!ValidId(item)));
    if source.t.None? then source
    else
      var r := Resolved(source.t.value, g.types);
      if r.None? then Typed(None, source.st)
      else if r.value.List? then Typed(Some(r.value.item), source.st)
      else Typed(None, source.st.Fail(true))
  }

  /** A type as far as it is known, and whether something must be reported. */
  datatype Verdict = Verdict(t: Option<DataType>, bad: bool)

  /** The checks made on one operand whose type is `t`. */
  ghost function Operate(g: Linked, op: UnaryOp, t: DataType): Verdict {
    var r := Resolved(t, g.types);
    match op
    case Construct(name) =>
      var target := Resolved(Named(name), g.types);
      Verdict(Some(Named(name)), !TypeOk(Named(name), g.types)
        || (r.Some? && target.Some? && !Compatible(r.value, target.value, g.types)))
    case Take(_) => Verdict(Some(t), r.None? || !r.value.List?)
    case Truncate(_) => Verdict(Some(Text), r != Some(Text))
    case ToJson => Verdict(Some(Text), false)
    case Measure(unit) =>
      if r.None? then Verdict(None, false) else Verdict(Some(Number), !Measurable(g, r.value, unit))
    case FieldOf(field) =>
      if r.None? then Verdict(None, false)
      else if r.value.Record? && field in r.value.fields then Verdict(Some(r.value.fields[field]), false)
      else Verdict(None, true)
    case Project(selected) =>
      if r.None? then Verdict(None, false)
      else if !r.value.Record? then Verdict(None, true)
      else
        var fs := r.value.fields;
        Verdict(Some(Record(map k | k in selected && k in fs :: fs[k])),
          selected == [] || (exists i :: 0 <= i < |selected| && selected[i] !in fs)
          || exists i, j :: 0 <= i < j < |selected| && selected[i] == selected[j])
  }

  /** The checks made on the key or body type `t` of a keyed operation over items of type `ty`. */
  function Regroup(g: Linked, op: KeyedOp, ty: DataType, t: DataType): Verdict {
    var r := Resolved(t, g.types);
    var output := match op
      case MapOp => t
      case GroupOp => Record(map["key" := t, "items" := List(ty)])
      case _ => ty;
    Verdict(Some(List(output)), op.SortOp? && r != Some(Text) && r != Some(Number))
  }

  /** The record type made of the arguments whose type is known; a later equal name wins. */
  function KnownFields(args: seq<Arg>, ts: seq<Option<DataType>>): map<string, DataType>
    requires |ts| == |args|
  {
    if args == [] then map[]
    else
      var n := |args| - 1;
      var rest := KnownFields(args[..n], ts[..n]);
      if ts[n].Some? then rest[args[n].name := ts[n].value] else rest
  }

  ghost function Assemble(g: Linked, op: BuildOp, args: seq<Arg>, ts: seq<Option<DataType>>): Verdict
    requires |ts| == |args|
  {
    match op
    case RecordOf => Verdict(Some(Record(KnownFields(args, ts))), false)
    case ListOf(itemType) =>
      Verdict(Some(List(itemType)), !TypeOk(itemType, g.types)
        || exists i :: 0 <= i < |ts| && ts[i].Some? && !Compatible(ts[i].value, itemType, g.types))
    case Template(text) =>
      var parts := TemplateParts(text);
      Verdict(Some(Text), parts.None? || Holes(parts.value) != ArgNames(args)
        || exists i :: 0 <= i < |ts| && ts[i].Some? && Resolved(ts[i].value, g.types) != Some(Text))
  }

  /** Whether the arguments of a call must be reported. */
  ghost predicate Misapplied(g: Linked, key: Key, args: seq<Arg>, ts: seq<Option<DataType>>)
    requires |ts| == |args|
  {
    key in g.library &&
    var ps := g.library[key].parameters;
    ArgNames(args) != ps.Keys
    || exists i :: (0 <= i < |ts| && ts[i].Some? && args[i].name in ps
                    && !Compatible(ts[i].value, ps[args[i].name], g.types))
  }

  /** Whether a function's own declaration must be reported. */
  ghost predicate Misdeclared(g: Linked, key: Key, f: Function) {
    !ValidId(key.name) || !TypeOk(f.output, g.types)
    || exists p :: p in f.parameters && (!ValidId(p) || !TypeOk(f.parameters[p], g.types))
  }

  function Judge(v: Verdict, st: State): Typed {
    Typed(v.t, st.Fail(v.bad))
  }

  ghost function Expression(g: Linked, scope: Scope, inFunction: bool, e: Expr, depth: nat, st: State): Typed
    decreases Room(depth), 0, 0
  {
    var (ok, s) := Enter(depth, st);
    if !ok then Typed(None, s) else
    match e
    case Variable(name) =>
      if name in scope then Typed(Some(scope[name]), s) else Typed(None, s.Fail(true))
    case Resource(name) =>
      if inFunction || name !in g.requirements then Typed(None, s.Fail(true)) else Typed(Some(g.requirements[name]), s)
    case Literal(dataType, json) =>
      Typed(Some(dataType), s.Fail(!TypeOk(dataType, g.types) || !Inhabits(json, dataType, g.types)))
    case Unary(op, value) =>
      var source := Expression(g, scope, inFunction, value, depth + 1, s);
      if source.t.Some? then Judge(Operate(g, op, source.t.value), source.st)
      else if op.ToJson? then Typed(Some(Text), source.st)
      else source
    case Filter(value, item, condition) =>
      var ty := CollectionItem(g, scope, inFunction, value, item, depth + 1, s);
      if ty.t.None? then ty
      else Typed(Some(List(ty.t.value)), Predicate(g, scope[item := ty.t.value], inFunction, condition, depth + 1, ty.st))
    case Keyed(op, value, item, key) =>
      var ty := CollectionItem(g, scope, inFunction, value, item, depth + 1, s);
      if ty.t.None? then ty
      else
        var result := Expression(g, scope[item := ty.t.value], inFunction, key, depth + 1, ty.st);
        if result.t.None? then result else Judge(Regroup(g, op, ty.t.value, result.t.value), result.st)
    case Build(op, args) =>
      var (ts, s1) := Arguments(g, scope, inFunction, args, 0, depth + 1, s);
      Judge(Assemble(g, op, args, ts), s1)
    case Call(key, args) =>
      var output := Function_(g, key, depth + 1, s);
      var (ts, s1) := Arguments(g, scope, inFunction, args, 0, depth + 1, output.st);
      Typed(output.t, s1.Fail(Misapplied(g, key, args, ts)))
  }

  /** The types of the arguments from position `from` on, in order. */
  ghost function Arguments(g: Linked, scope: Scope, inFunction: bool, args: seq<Arg>, from: nat, depth: nat, st: State): (r: (seq<Option<DataType>>, State))
    requires from <= |args|
    ensures |r.0| == |args| - from
    decreases Room(depth), 1, |args| - from
  {
    if from == |args| then ([], st)
    else
      var first := Expression(g, scope, inFunction, args[from].value, depth, st);
      var (ts, s) := Arguments(g, scope, inFunction, args, from + 1, depth, first.st);
      ([first.t] + ts, s)
  }

  ghost function Predicate(g: Linked, scope: Scope, inFunction: bool, p: Pred, depth: nat, st: State): (r: State)
    decreases Room(depth), 0, 0
  {
    var (ok, s) := Enter(depth, st);
    if !ok then s else
    match p
    case Compare(left, op, right) =>
      var l := Expression(g, scope, inFunction, left, depth + 1, s);
      var r := Expression(g, scope, inFunction, right, depth + 1, l.st);
      r.st.Fail(l.t.Some? && r.t.Some?
        && (l.t != r.t || (op != Ne && Resolved(l.t.value, g.types) != Some(Number))))
    case Contains(value, element) =>
      var v := Expression(g, scope, inFunction, value, depth + 1, s);
      var i := Expression(g, scope, inFunction, element, depth + 1, v.st);
      var r := if v.t.Some? then Resolved(v.t.value, g.types) else None;
      i.st.Fail(r.Some? && i.t.Some? && !((r.value == Text && i.t.value == Text) || r.value == List(i.t.value)))
    case Present(value) => Expression(g, scope, inFunction, value, depth + 1, s).st
    case Eq(left, right) =>
      var l := Expression(g, scope, inFunction, left, depth + 1, s);
      var r := Expression(g, scope, inFunction, right, depth + 1, l.st);
      r.st.Fail(l.t.Some? && r.t.Some? && l.t != r.t)
    case And(items) => Predicates(g, scope, inFunction, items, 0, depth + 1, s.Fail(items == []))
    case Or(items) => Predicates(g, scope, inFunction, items, 0, depth + 1, s.Fail(items == []))
    case Not(item) => Predicate(g, scope, inFunction, item, depth + 1, s)
  }

  ghost function Predicates(g: Linked, scope: Scope, inFunction: bool, ps: seq<Pred>, from: nat, depth: nat, st: State): (r: State)
    requires from <= |ps|
    decreases Room(depth), 1, |ps| - from
  {
    if from == |ps| then st
    else Predicates(g, scope, inFunction, ps, from + 1, depth, Predicate(g, scope, inFunction, ps[from], depth, st))
  }

  ghost function Blocks(g: Linked, scope: Scope, blocks: seq<Block>, from: nat, depth: nat, st: State): (r: State)
    requires from <= |blocks|
    decreases Room(depth), 2, |blocks| - from
  {
    if from == |blocks| then st
    else
      var (ok, s) := Enter(depth, st);
      if !ok then s
      else
        var b := blocks[from];
        var s1 := s.Fail(Blank(b.id) || b.id in s.ids).(ids := s.ids + {b.id});
        Blocks(g, scope, blocks, from + 1, depth, BlockBody(g, scope, b, depth, s1))
  }

  ghost function BlockBody(g: Linked, scope: Scope, b: Block, depth: nat, st: State): (r: State)
    requires depth <= MAX_DEPTH
    decreases Room(depth), 0, 0
  {
    match b
    case ForEach(_, value, item, items) =>
      var ty := CollectionItem(g, scope, false, value, item, depth + 1, st);
      if ty.t.None? then ty.st else Blocks(g, scope[item := ty.t.value], items, 0, depth + 1, ty.st)
    case Group(_, title, items) => Blocks(g, scope, items, 0, depth + 1, st.Fail(Blank(title)))
    case Emit(_, role, format, value) =>
      var v := Expression(g, scope, false, value, depth + 1, st);
      var s := v.st.Fail(role == Instruction && format != AsText);
      if v.t.None? || Resolved(v.t.value, g.types).None? then s else s.Fail(!FormatOk(g, v.t.value, format))
    case If(_, condition, yes, no) =>
      var s := Predicate(g, scope, false, condition, depth + 1, st);
      Blocks(g, scope, no, 0, depth + 1, Blocks(g, scope, yes, 0, depth + 1, s))
  }

  ghost function Functions(g: Linked, keys: seq<Key>, from: nat, st: State): (r: State)
    requires from <= |keys|
    decreases |keys| - from
  {
    if from == |keys| then st else Functions(g, keys, from + 1, Function_(g, keys[from], 0, st).st)
  }
}
