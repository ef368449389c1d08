/** Each operation of the evaluator, given operands of the right types, agrees with its meaning,
    yields a value of the inferred type, and fails only by reporting it. */
module OperationsSound {
  import opened Base
  import opened Types
  import opened Views
  import opened Syntax
  import opened Typing
  import opened Ordering
  import opened Grouping
  import opened Evaluation
  import opened Meaning

  /** The outcome of evaluating an expression of type `t` that means `m`. */
  ghost predicate Sound(w: World, t: DataType, o: Out<View>, m: Access<Json>) {
    match o.r
    case Ok(v) => m == Ok(Denote(v)) && Inhabits(Denote(v), t, w.g.types)
    case Missing(name) => m == Missing(name) && name in w.g.requirements && name !in w.resources
    case Invalid => o.st.diagnosed
  }

  ghost predicate HasType(w: World, v: View, t: DataType) {
    Wf(t, w.g.types) && Inhabits(Denote(v), t, w.g.types)
  }

  // ----- One operand -----

  lemma ConstructSound(w: World, v: View, op: UnaryOp, st: Core)
    requires op.Construct?
    ensures Sound(w, Named(op.name), Operate(w, op, v, st), Operation(BasisOf(w), op, Denote(v)))
    ensures Operate(w, op, v, st).st.validated == st.validated
  {
  }

  lemma TakeSound(w: World, v: View, op: UnaryOp, t: DataType, st: Core)
    requires op.Take? && HasType(w, v, t) && UnaryType(w.g, op, t).Some?
    ensures Sound(w, t, Operate(w, op, v, st), Operation(BasisOf(w), op, Denote(v)))
    ensures Operate(w, op, v, st).st.validated == st.validated
  {
    ResolvedMeans(Denote(v), t, w.g.types);
    var o := Operate(w, op, v, st);
    var items := Denote(v).items;
    if o.r.Ok? {
      var m := if |items| <= op.count then |items| else op.count;
      assert Denote(o.r.value).items == items[..m];
      assert items[..|items|] == items;
      ResolvedMeans(Denote(o.r.value), t, w.g.types);
    }
  }

  lemma MeasureSound(w: World, v: View, op: UnaryOp, t: DataType, st: Core)
    requires op.Measure? && HasType(w, v, t) && UnaryType(w.g, op, t).Some?
    ensures Sound(w, Number, Operate(w, op, v, st), Operation(BasisOf(w), op, Denote(v)))
    ensures Operate(w, op, v, st).st.validated == st.validated
  {
    ResolvedMeans(Denote(v), t, w.g.types);
  }

  lemma TextSound(w: World, v: View, op: UnaryOp, t: DataType, st: Core)
    requires (op.Truncate? || op.ToJson?) && HasType(w, v, t) && UnaryType(w.g, op, t).Some?
    ensures Sound(w, Text, Operate(w, op, v, st), Operation(BasisOf(w), op, Denote(v)))
    ensures Operate(w, op, v, st).st.validated == st.validated
  {
    ResolvedMeans(Denote(v), t, w.g.types);
  }

  lemma FieldSound(w: World, v: View, op: UnaryOp, t: DataType, st: Core)
    requires op.FieldOf? && HasType(w, v, t) && UnaryType(w.g, op, t).Some?
    ensures Sound(w, UnaryType(w.g, op, t).value, Operate(w, op, v, st), Operation(BasisOf(w), op, Denote(v)))
    ensures Operate(w, op, v, st).st.validated == st.validated
  {
    ResolvedMeans(Denote(v), t, w.g.types);
  }

  lemma ProjectDenotes(v: View, fields: seq<string>)
    requires Denote(v).Obj? && forall k | k in fields :: k in Denote(v).fields
    ensures Denote(Object(map k | k in fields :: Field(v, k).value)) == Obj(map k | k in fields :: Denote(v).fields[k])
  {
    var view: View := Object(map k | k in fields :: Field(v, k).value);
    assert forall k | k in fields :: Denote(view).fields[k] == Denote(v).fields[k];
  }

  lemma ProjectTyped(v: Json, r: DataType, fields: seq<string>, types: Registry)
    requires r.Record? && Inhabits(v, r, types) && forall k | k in fields :: k in r.fields
    ensures v.Obj? && forall k | k in fields :: k in v.fields
    ensures Inhabits(Obj(map k | k in fields :: v.fields[k]), Record(map k | k in fields :: r.fields[k]), types)
  {
  }

  lemma ProjectSound(w: World, v: View, op: UnaryOp, t: DataType, st: Core)
    requires op.Project? && HasType(w, v, t) && UnaryType(w.g, op, t).Some?
    ensures Sound(w, UnaryType(w.g, op, t).value, Operate(w, op, v, st), Operation(BasisOf(w), op, Denote(v)))
    ensures Operate(w, op, v, st).st.validated == st.validated
  {
    ResolvedMeans(Denote(v), t, w.g.types);
    var r := Resolved(t, w.g.types).value;
    ProjectTyped(Denote(v), r, op.fields, w.g.types);
    ProjectDenotes(v, op.fields);
    assert forall i | 0 <= i < |op.fields| :: Field(v, op.fields[i]).Some?;
    assert Operate(w, op, v, st).r == Ok(Object(map k | k in op.fields :: Field(v, k).value));
    assert UnaryType(w.g, op, t).value == Record(map k | k in op.fields :: r.fields[k]);
  }

  lemma OperateSound(w: World, op: UnaryOp, v: View, t: DataType, st: Core)
    requires HasType(w, v, t) && UnaryType(w.g, op, t).Some?
    ensures Sound(w, UnaryType(w.g, op, t).value, Operate(w, op, v, st), Operation(BasisOf(w), op, Denote(v)))
    ensures Operate(w, op, v, st).st.validated == st.validated
  {
    match op
    case Construct(_) => ConstructSound(w, v, op, st);
    case Take(_) => TakeSound(w, v, op, t, st);
    case Measure(_) => MeasureSound(w, v, op, t, st);
    case FieldOf(_) => FieldSound(w, v, op, t, st);
    case Project(_) => ProjectSound(w, v, op, t, st);
    case _ => TextSound(w, v, op, t, st);
  }

  // ----- Several operands -----

  function DenoteAll(bs: seq<Bound>): seq<Json> {
    seq(|bs|, i requires 0 <= i < |bs| => Denote(bs[i].value))
  }

  function DenoteMap(values: map<string, View>): Values {
    map x | x in values :: Denote(values[x])
  }

  lemma {:induction false} BoundDenotes(args: seq<Arg>, bs: seq<Bound>)
    requires |bs| == |args|
    ensures DenoteMap(BoundValues(args, bs)) == Named_(args, DenoteAll(bs))
  {
    if args != [] {
      var n := |args| - 1;
      BoundDenotes(args[..n], bs[..n]);
      assert DenoteAll(bs)[..n] == DenoteAll(bs[..n]);
    }
  }

  lemma {:induction false} BoundKeys(args: seq<Arg>, bs: seq<Bound>)
    requires |bs| == |args|
    ensures BoundValues(args, bs).Keys == ArgNames(args)
  {
    if args != [] {
      var n := |args| - 1;
      BoundKeys(args[..n], bs[..n]);
      assert args == args[..n] + [args[n]];
      assert ArgNames(args) == ArgNames(args[..n]) + {args[n].name} by {
        forall x | x in ArgNames(args) ensures x in ArgNames(args[..n]) + {args[n].name} {
          var i :| 0 <= i < |args| && args[i].name == x;
          if i < n { assert args[..n][i].name == x; }
        }
        forall x | x in ArgNames(args[..n]) ensures x in ArgNames(args) {
          var i :| 0 <= i < n && args[..n][i].name == x;
          assert args[i].name == x;
        }
      }
    }
  }

  ghost predicate AllTyped(w: World, bs: seq<Bound>, ts: seq<DataType>) {
    |bs| == |ts| && forall i | 0 <= i < |bs| :: HasType(w, bs[i].value, ts[i])
  }

  lemma {:induction false} RecordTyped(w: World, args: seq<Arg>, bs: seq<Bound>, ts: seq<DataType>)
    requires |args| == |bs| && AllTyped(w, bs, ts)
    ensures Inhabits(Denote(Object(BoundValues(args, bs))), Record(FieldsOf(args, ts)), w.g.types)
  {
    if args != [] {
      var n := |args| - 1;
      RecordTyped(w, args[..n], bs[..n], ts[..n]);
      var before, after := BoundValues(args[..n], bs[..n]), BoundValues(args, bs);
      forall k | k in FieldsOf(args, ts)
        ensures k in Denote(Object(after)).fields
          && Fits(Denote(Object(after)).fields[k], FieldsOf(args, ts)[k], w.g.types, MAX_LEVELS)
      {
        if k != args[n].name {
          assert Denote(Object(after)).fields[k] == Denote(Object(before)).fields[k];
        }
      }
    }
  }

  lemma ListTyped(w: World, bs: seq<Bound>, ts: seq<DataType>, itemType: DataType)
    requires AllTyped(w, bs, ts) && forall i | 0 <= i < |ts| :: Compatible(ts[i], itemType, w.g.types)
    ensures Inhabits(Arr(DenoteAll(bs)), List(itemType), w.g.types)
  {
    forall i | 0 <= i < |bs| ensures Inhabits(Denote(bs[i].value), itemType, w.g.types) {
      AcceptsIncludesValues(Denote(bs[i].value), ts[i], itemType, w.g.types, MAX_LEVELS);
    }
  }

  predicate AllText(values: map<string, View>, names: set<string>) {
    forall x | x in names :: x in values && Denote(values[x]).Str?
  }

  lemma {:induction false} FillSound(w: World, parts: seq<Part>, i: nat, values: map<string, View>, text: string, st: Core)
    requires i <= |parts| && AllText(values, Holes(parts))
    ensures var o := Fill(w, parts, i, values, text, st);
      && o.st.validated == st.validated && (o.r.Ok? || (o.r.Invalid? && o.st.diagnosed))
      && (o.r.Ok? ==> Text_(parts, i, DenoteMap(values), text) == o.r)
    decreases |parts| - i
  {
    if i < |parts| {
      match parts[i]
      case Plain(t) => FillSound(w, parts, i + 1, values, text + t, st);
      case Hole(name) =>
        assert name in Holes(parts);
        FillSound(w, parts, i + 1, values, text + Denote(values[name]).s, st);
    }
  }

  lemma TemplateSound(w: World, op: BuildOp, args: seq<Arg>, bs: seq<Bound>, ts: seq<DataType>, st: Core)
    requires op.Template? && |args| == |bs| && AllTyped(w, bs, ts) && BuildType(w.g, op, args, ts).Some?
    ensures Sound(w, Text, Assemble(w, op, args, bs, st), Construction(op, args, DenoteAll(bs)))
    ensures Assemble(w, op, args, bs, st).st.validated == st.validated
  {
    var parts := TemplateParts(op.text).value;
    BoundKeys(args, bs);
    BoundDenotes(args, bs);
    ArgsText(w, args, bs, ts);
    FillSound(w, parts, 0, BoundValues(args, bs), "", st);
  }

  lemma {:induction false} ArgsText(w: World, args: seq<Arg>, bs: seq<Bound>, ts: seq<DataType>)
    requires |args| == |bs| && AllTyped(w, bs, ts) && forall i | 0 <= i < |ts| :: Resolved(ts[i], w.g.types) == Some(Text)
    ensures forall x | x in BoundValues(args, bs) :: Denote(BoundValues(args, bs)[x]).Str?
  {
    if args != [] {
      var n := |args| - 1;
      ArgsText(w, args[..n], bs[..n], ts[..n]);
      ResolvedMeans(Denote(bs[n].value), ts[n], w.g.types);
    }
  }

  lemma AssembleSound(w: World, op: BuildOp, args: seq<Arg>, bs: seq<Bound>, ts: seq<DataType>, st: Core)
    requires |args| == |bs| && AllTyped(w, bs, ts) && BuildType(w.g, op, args, ts).Some?
    ensures Sound(w, BuildType(w.g, op, args, ts).value, Assemble(w, op, args, bs, st), Construction(op, args, DenoteAll(bs)))
    ensures Assemble(w, op, args, bs, st).st.validated == st.validated
  {
    match op
    case RecordOf =>
      RecordTyped(w, args, bs, ts);
      BoundDenotes(args, bs);
      assert Denote(Object(BoundValues(args, bs))) == Obj(DenoteMap(BoundValues(args, bs)));
    case ListOf(itemType) =>
      ListTyped(w, bs, ts, itemType);
      var view: View := Array(seq(|bs|, i requires 0 <= i < |bs| => bs[i].value));
      assert Denote(view).items == DenoteAll(bs);
    case Template(_) => TemplateSound(w, op, args, bs, ts, st);
  }

  // ----- Keyed operations -----

  function Pairs(es: seq<Entry>): seq<(Json, Json)> {
    seq(|es|, i requires 0 <= i < |es| => (Denote(es[i].key), Denote(es[i].value)))
  }

  lemma SortSound(w: World, es: seq<Entry>, descending: bool, st: Core)
    ensures var o := Regroup(w, SortOp(descending), es, st);
      o.r.Ok? && Denote(o.r.value) == Rearranged(SortOp(descending), Pairs(es))
  {
    var f := (v: View) => Denote(v);
    SortTranslates(SortPairs(es), descending, f);
    assert Translate(SortPairs(es), f) == Pairs(es);
    var sorted := Sort(SortPairs(es), descending);
    var view: View := Array(seq(|sorted|, i requires 0 <= i < |sorted| => sorted[i].1));
    var plain := Sort(Pairs(es), descending);
    assert Denote(view).items == seq(|plain|, i requires 0 <= i < |plain| => plain[i].1);
  }

  function EntryValue(e: Entry): Json { Denote(e.value) }

  /** Encoded keys stand for the keys themselves. */
  lemma CodesRecode(w: World, es: seq<Entry>)
    ensures Recode(Pairs(es), w.encode, (x: Json) => x) == Recode(Codes(w, es), (c: string) => c, EntryValue)
  {
    var a, b := Recode(Pairs(es), w.encode, (x: Json) => x), Recode(Codes(w, es), (c: string) => c, EntryValue);
    assert forall i | 0 <= i < |es| :: a[i] == b[i];
  }

  lemma DedupSound(w: World, es: seq<Entry>)
    requires Injective(w.encode)
    ensures MapAll(Dedup(Codes(w, es)), EntryValue) == Dedup(Pairs(es))
  {
    DedupRecodes(Pairs(es), w.encode, (x: Json) => x);
    DedupRecodes(Codes(w, es), (c: string) => c, EntryValue);
    CodesRecode(w, es);
    assert MapAll(Dedup(Pairs(es)), (x: Json) => x) == Dedup(Pairs(es));
  }

  /** The bucket of a code holds its entries, and the first of them carries the group's key. */
  lemma OneGroup(w: World, es: seq<Entry>, g: Bucket<string, Entry>, j: Bucket<Json, Json>)
    requires Injective(w.encode) && g.items != [] && g.items == Select(Codes(w, es), g.code)
    requires w.encode(j.code) == g.code && j.items == MapAll(g.items, EntryValue)
    ensures Denote(GroupView(g)) == GroupJson(j)
  {
    FirstKey(w, es, g);
    var items: View := Array(seq(|g.items|, i requires 0 <= i < |g.items| => g.items[i].value));
    assert GroupView(g) == Object(map["key" := g.items[0].key, "items" := items]);
    forall i | 0 <= i < |g.items| ensures Denote(items).items[i] == j.items[i] {
      assert MapAll(g.items, EntryValue)[i] == EntryValue(g.items[i]);
    }
    assert Denote(items).items == j.items;
    assert Denote(GroupView(g)).fields == map["key" := j.code, "items" := Arr(j.items)];
  }

  lemma GroupsSound(w: World, es: seq<Entry>)
    requires Injective(w.encode)
    ensures var gs, js := Buckets(Codes(w, es)), Buckets(Pairs(es));
      |gs| == |js| && forall i | 0 <= i < |gs| :: Denote(GroupView(gs[i])) == GroupJson(js[i])
  {
    var gs, js := Buckets(Codes(w, es)), Buckets(Pairs(es));
    GroupRecodes(Pairs(es), w.encode, (x: Json) => x);
    GroupRecodes(Codes(w, es), (c: string) => c, EntryValue);
    CodesRecode(w, es);
    var a, b := RecodeGroups(js, w.encode, (x: Json) => x), RecodeGroups(gs, (c: string) => c, EntryValue);
    assert a == b && |a| == |js| && |b| == |gs|;
    GroupPartitions(Codes(w, es));
    forall i | 0 <= i < |gs| ensures Denote(GroupView(gs[i])) == GroupJson(js[i]) {
      assert a[i].code == w.encode(js[i].code) && b[i].code == gs[i].code;
      assert MapAll(js[i].items, (x: Json) => x) == js[i].items;
      OneGroup(w, es, gs[i], js[i]);
    }
  }

  lemma {:induction false} SelectedCode(pairs: seq<(string, Entry)>, w: World, code: string)
    requires forall i | 0 <= i < |pairs| :: pairs[i].0 == w.encode(Denote(pairs[i].1.key))
    ensures forall i | 0 <= i < |Select(pairs, code)| :: w.encode(Denote(Select(pairs, code)[i].key)) == code
  {
    if pairs != [] { SelectedCode(pairs[..|pairs| - 1], w, code); }
  }

  lemma FirstKey(w: World, es: seq<Entry>, b: Bucket<string, Entry>)
    requires b.items != [] && b.items == Select(Codes(w, es), b.code)
    ensures w.encode(Denote(b.items[0].key)) == b.code
  {
    SelectedCode(Codes(w, es), w, b.code);
  }

  lemma {:induction false} ChargeCodesSound(w: World, codes: seq<(string, Entry)>, i: nat, st: Core)
    requires i <= |codes|
    ensures var o := ChargeCodes(w, codes, i, st);
      o.st.validated == st.validated && (o.r.Ok? || (o.r.Invalid? && o.st.diagnosed))
    decreases |codes| - i
  {
    if i < |codes| {
      var o := Charge(w, Utf8Len(codes[i].0), st);
      if o.r.Ok? { ChargeCodesSound(w, codes, i + 1, o.st); }
    }
  }

  /** A keyed operation means its rearrangement of the pairs, or has reported why it failed. */
  ghost predicate Regrouped(w: World, op: KeyedOp, es: seq<Entry>, st: Core) {
    var o := Regroup(w, op, es, st);
    && o.st.validated == st.validated && (o.r.Ok? || (o.r.Invalid? && o.st.diagnosed))
    && (o.r.Ok? ==> Denote(o.r.value) == Rearranged(op, Pairs(es)))
  }

  lemma MapMeans(w: World, es: seq<Entry>, st: Core)
    ensures Regrouped(w, MapOp, es, st)
  {
    var view: View := Array(seq(|es|, i requires 0 <= i < |es| => es[i].key));
    assert Denote(view).items == seq(|Pairs(es)|, i requires 0 <= i < |Pairs(es)| => Pairs(es)[i].0);
  }

  lemma DedupMeans(w: World, es: seq<Entry>, st: Core)
    requires Injective(w.encode)
    ensures Regrouped(w, DedupOp, es, st)
  {
    ChargeCodesSound(w, Codes(w, es), 0, st);
    DedupSound(w, es);
    var kept := Dedup(Codes(w, es));
    var view: View := Array(seq(|kept|, i requires 0 <= i < |kept| => kept[i].value));
    forall i | 0 <= i < |kept| ensures Denote(view).items[i] == MapAll(kept, EntryValue)[i] {
      assert MapAll(kept, EntryValue)[i] == EntryValue(kept[i]);
    }
    assert Denote(view).items == MapAll(kept, EntryValue);
  }

  lemma GroupingMeans(w: World, es: seq<Entry>, st: Core)
    requires Injective(w.encode)
    ensures Regrouped(w, GroupOp, es, st)
  {
    ChargeCodesSound(w, Codes(w, es), 0, st);
    GroupsSound(w, es);
    var gs, js := Buckets(Codes(w, es)), Buckets(Pairs(es));
    var view: View := Array(seq(|gs|, i requires 0 <= i < |gs| => GroupView(gs[i])));
    assert Denote(view).items == seq(|js|, i requires 0 <= i < |js| => GroupJson(js[i]));
  }

  lemma RegroupMeans(w: World, op: KeyedOp, es: seq<Entry>, st: Core)
    requires Injective(w.encode)
    ensures Regrouped(w, op, es, st)
  {
    match op
    case MapOp => MapMeans(w, es, st);
    case SortOp(descending) => SortSound(w, es, descending, st);
    case DedupOp => DedupMeans(w, es, st);
    case GroupOp => GroupingMeans(w, es, st);
  }

  // ----- Types of keyed results -----

  /** Keys have type `t` and elements type `ty`. */
  ghost predicate PairsTyped(w: World, pairs: seq<(Json, Json)>, t: DataType, ty: DataType) {
    forall i | 0 <= i < |pairs| :: Inhabits(pairs[i].0, t, w.g.types) && Inhabits(pairs[i].1, ty, w.g.types)
  }

  lemma {:induction false} DedupMembers(pairs: seq<(Json, Json)>)
    ensures forall x | x in Dedup(pairs) :: exists i :: 0 <= i < |pairs| && pairs[i].1 == x
  {
    if pairs != [] {
      var n := |pairs| - 1;
      DedupMembers(pairs[..n]);
      forall x | x in Dedup(pairs) ensures exists i :: 0 <= i < |pairs| && pairs[i].1 == x {
        if x in Dedup(pairs[..n]) {
          var i :| 0 <= i < n && pairs[..n][i].1 == x;
          assert pairs[i].1 == x;
        } else {
          assert pairs[n].1 == x;
        }
      }
    }
  }

  lemma {:induction false} SelectMembers(pairs: seq<(Json, Json)>, code: Json)
    ensures forall x | x in Select(pairs, code) :: exists i :: 0 <= i < |pairs| && pairs[i] == (code, x)
  {
    if pairs != [] {
      var n := |pairs| - 1;
      SelectMembers(pairs[..n], code);
      forall x | x in Select(pairs, code) ensures exists i :: 0 <= i < |pairs| && pairs[i] == (code, x) {
        if x in Select(pairs[..n], code) {
          var i :| 0 <= i < n && pairs[..n][i] == (code, x);
          assert pairs[i] == (code, x);
        } else {
          assert pairs[n] == (code, x);
        }
      }
    }
  }

  lemma SortMembers(pairs: seq<(Json, Json)>, descending: bool)
    ensures forall x | x in Sort(pairs, descending) :: x in pairs
  {
    SortKeeps(pairs, descending);
    forall x | x in Sort(pairs, descending) ensures x in pairs {
      assert x in multiset(Sort(pairs, descending));
      assert x in multiset(pairs);
    }
  }

  lemma {:induction false} SortKeeps(pairs: seq<(Json, Json)>, descending: bool)
    ensures multiset(Sort(pairs, descending)) == multiset(pairs)
  {
    if pairs != [] {
      SortKeeps(pairs[1..], descending);
      InsertKeeps(pairs[0], Sort(pairs[1..], descending), descending);
      assert pairs == [pairs[0]] + pairs[1..];
    }
  }

  lemma GroupTyped(w: World, pairs: seq<(Json, Json)>, b: Bucket<Json, Json>, t: DataType, ty: DataType)
    requires PairsTyped(w, pairs, t, ty) && b.items != [] && b.items == Select(pairs, b.code)
    ensures Inhabits(GroupJson(b), Record(map["key" := t, "items" := List(ty)]), w.g.types)
  {
    SelectMembers(pairs, b.code);
    assert b.items[0] in Select(pairs, b.code);
    forall i | 0 <= i < |b.items| ensures Inhabits(b.items[i], ty, w.g.types) {
      assert b.items[i] in Select(pairs, b.code);
    }
  }

  lemma RearrangedTyped(w: World, op: KeyedOp, pairs: seq<(Json, Json)>, t: DataType, ty: DataType)
    requires PairsTyped(w, pairs, t, ty) && KeyedType(w.g, op, ty, t).Some?
    ensures Inhabits(Rearranged(op, pairs), KeyedType(w.g, op, ty, t).value, w.g.types)
  {
    match op
    case MapOp =>
    case SortOp(descending) =>
      SortMembers(pairs, descending);
      var sorted := Sort(pairs, descending);
      forall i | 0 <= i < |sorted| ensures Inhabits(sorted[i].1, ty, w.g.types) { assert sorted[i] in sorted; }
    case DedupOp =>
      DedupMembers(pairs);
      var kept := Dedup(pairs);
      forall i | 0 <= i < |kept| ensures Inhabits(kept[i], ty, w.g.types) { assert kept[i] in kept; }
    case GroupOp =>
      GroupPartitions(pairs);
      var gs := Buckets(pairs);
      forall i | 0 <= i < |gs|
        ensures Inhabits(GroupJson(gs[i]), Record(map["key" := t, "items" := List(ty)]), w.g.types)
      {
        GroupTyped(w, pairs, gs[i], t, ty);
      }
  }
}
