/** The type rules are as permissive as values allow: subtyping is inclusion under every reading of the
    nominal types, and an operation, a sort key or a representation is refused only where some value of
    the type would not fit it (rust/crates/zf-core/src/types.rs, rust/crates/zf-context/src/context.rs). */
module Tightness {
  import opened Base
  import opened Types
  import opened Syntax
  import opened Typing
  import opened Ordering
  import opened Showing

  // ----- Subtyping -----

  /** The values of each named type and of each media type. */
  type Reading = DataType -> iset<Json>

  /** `v` is a value of `t` when nominal types are read as `values` says. */
  ghost predicate In(v: Json, t: DataType, values: Reading)
    decreases t
  {
    match t
    case Boolean => v.Bool?
    case Number => v.Numeric?
    case Text => v.Str?
    case Named(_) => v in values(t)
    case Media(_) => v in values(t)
    case List(item) => v.Arr? && forall i | 0 <= i < |v.items| :: In(v.items[i], item, values)
    case Record(fs) => v.Obj? && forall k | k in fs :: k in v.fields && In(v.fields[k], fs[k], values)
  }

  /** The reading that the registry gives. */
  ghost function Registered(types: Registry): Reading {
    t => iset v | Inhabits(v, t, types)
  }

  lemma {:induction false} InhabitsIsIn(v: Json, t: DataType, types: Registry)
    ensures Inhabits(v, t, types) <==> In(v, t, Registered(types))
    decreases t
  {
    match t
    case List(item) =>
      if v.Arr? {
        forall i | 0 <= i < |v.items| ensures Inhabits(v.items[i], item, types) <==> In(v.items[i], item, Registered(types)) {
          InhabitsIsIn(v.items[i], item, types);
        }
      }
    case Record(fs) =>
      if v.Obj? {
        forall k | k in fs && k in v.fields ensures Inhabits(v.fields[k], fs[k], types) <==> In(v.fields[k], fs[k], Registered(types)) {
          InhabitsIsIn(v.fields[k], fs[k], types);
        }
      }
    case _ =>
  }

  /** The reading that sets one nominal type apart from all others. */
  ghost function Apart(n: DataType): Reading {
    t => if t == n then iset{Null} else iset{Str("")}
  }

  function Marked(t: DataType, n: DataType): Json {
    match t
    case Boolean => Bool(true)
    case Number => Numeric(Int(0))
    case Text => Str("")
    case Named(_) => if t == n then Null else Str("")
    case Media(_) => if t == n then Null else Str("")
    case List(item) => Arr([Marked(item, n)])
    case Record(fs) => Obj(map k | k in fs :: Marked(fs[k], n))
  }

  lemma {:induction false} MarkedIsIn(t: DataType, n: DataType)
    ensures In(Marked(t, n), t, Apart(n))
  {
    match t
    case List(item) => MarkedIsIn(item, n);
    case Record(fs) => forall k | k in fs ensures In(Marked(fs[k], n), fs[k], Apart(n)) { MarkedIsIn(fs[k], n); }
    case _ =>
  }

  /** Where acceptance fails, some reading has a value of the one type that the other does not have. */
  lemma {:induction false} Separates(a: DataType, b: DataType) returns (n: DataType)
    requires !Accepts(a, b)
    ensures !In(Marked(a, n), b, Apart(n))
    decreases a
  {
    match (a, b)
    case (Record(s), Record(t)) =>
      var k :| k in t && (k !in s || !Accepts(s[k], t[k]));
      n := a;
      if k in s { n := Separates(s[k], t[k]); }
      assert Marked(a, n).fields.Keys == s.Keys;
      assert !(k in Marked(a, n).fields && In(Marked(a, n).fields[k], t[k], Apart(n)));
    case (List(s), List(t)) =>
      n := Separates(s, t);
      assert Marked(a, n).items[0] == Marked(s, n);
    case (Named(_), _) => n := a;
    case (Media(_), _) => n := a;
    case _ => n := b;
  }

  lemma {:induction false} AcceptsIncludes(v: Json, a: DataType, b: DataType, values: Reading)
    requires Accepts(a, b) && In(v, a, values)
    ensures In(v, b, values)
    decreases a
  {
    match (a, b)
    case (Record(s), Record(t)) =>
      forall k | k in t ensures k in v.fields && In(v.fields[k], t[k], values) { AcceptsIncludes(v.fields[k], s[k], t[k], values); }
    case (List(s), List(t)) =>
      forall i | 0 <= i < |v.items| ensures In(v.items[i], t, values) { AcceptsIncludes(v.items[i], s, t, values); }
    case _ =>
  }

  /** Compatibility is inclusion of values under every reading of the nominal types; the values that the
      registry gives are one such reading. */
  lemma CompatibleIsInclusion(a: DataType, b: DataType, types: Registry)
    ensures Compatible(a, b, types) <==>
      TypeOk(a, types) && TypeOk(b, types) && forall values: Reading, v: Json :: In(v, a, values) ==> In(v, b, values)
    ensures forall v, t :: Inhabits(v, t, types) <==> In(v, t, Registered(types))
  {
    forall v, t ensures Inhabits(v, t, types) <==> In(v, t, Registered(types)) { InhabitsIsIn(v, t, types); }
    if Accepts(a, b) {
      forall values: Reading, v: Json | In(v, a, values) ensures In(v, b, values) { AcceptsIncludes(v, a, b, values); }
    } else {
      var n := Separates(a, b);
      MarkedIsIn(a, n);
    }
  }

  // ----- Operations -----

  /** An object with exactly these fields, whose texts are empty. */
  predicate EmptyTexts(v: Json, keys: set<string>) {
    v.Obj? && v.fields.Keys == keys && forall k | k in keys && v.fields[k].Str? :: v.fields[k].s == ""
  }

  /** A value of every well-formed type; texts are empty where the type allows it. */
  lemma {:induction false} HasValue(t: DataType, types: Registry, names: nat) returns (v: Json)
    requires Resolves(t, types, names)
    ensures Fits(v, t, types, names)
    ensures t.Boolean? ==> v.Bool?
    ensures t.Text? ==> v == Str("")
    ensures t.List? ==> v.Arr? && v.items != []
    ensures t.Record? ==> EmptyTexts(v, t.fields.Keys)
    ensures v.Str? ==> v.s == ""
    decreases names, t
  {
    match t
    case Boolean => v := Bool(true);
    case Number => v := Numeric(Int(0));
    case Text => v := Str("");
    case Media(m) => v := Obj(map["contentRef" := Str("x"), "mediaType" := Str(m)]);
    case Named(n) => v := HasValue(types[n], types, names - 1);
    case List(item) =>
      var x := HasValue(item, types, names);
      v := Arr([x]);
    case Record(fs) =>
      var fields: map<string, Json> := map[];
      var left := fs.Keys;
      while left != {}
        invariant left <= fs.Keys && fields.Keys == fs.Keys - left
        invariant forall k | k in fields :: Fits(fields[k], fs[k], types, names) && (fields[k].Str? ==> fields[k].s == "")
        decreases |left|
      {
        var k :| k in left;
        var x := HasValue(fs[k], types, names);
        fields, left := fields[k := x], left - {k};
      }
      v := Obj(fields);
  }

  /** The same through outer names. */
  lemma Witness(t: DataType, types: Registry) returns (r: DataType, v: Json)
    requires Wf(t, types)
    ensures Resolved(t, types) == Some(r) && !r.Named? && Wf(r, types) && Inhabits(v, t, types)
    ensures forall x :: Inhabits(x, t, types) <==> Inhabits(x, r, types)
    ensures r.Boolean? ==> v.Bool?
    ensures r.Text? ==> v == Str("")
    ensures r.List? ==> v.Arr? && v.items != []
    ensures r.Record? ==> EmptyTexts(v, r.fields.Keys)
    ensures v.Str? ==> v.s == ""
  {
    ResolvedMeans(Null, t, types);
    r := Resolved(t, types).value;
    v := HasValue(r, types, MAX_LEVELS);
    forall x ensures Inhabits(x, t, types) <==> Inhabits(x, r, types) { ResolvedMeans(x, t, types); }
  }

  /** A media object of type `m`. */
  predicate IsMedia(v: Json, m: string, types: Registry) { Inhabits(v, Media(m), types) }

  predicate MediaType(t: DataType, types: Registry) {
    var r := Resolved(t, types);
    r.Some? && r.value.Media?
  }

  /** A type that is no media type has a value that is no media object. */
  lemma NotMedia(t: DataType, types: Registry) returns (v: Json)
    requires Wf(t, types) && !MediaType(t, types)
    ensures Inhabits(v, t, types) && !FormatFits(v, AsMedia) && forall m :: !IsMedia(v, m, types)
  {
    var r: DataType;
    r, v := Witness(t, types);
  }

  /** An operation is typed exactly when every value of its operand's type has the shape it needs:
      `take` lists, `truncate` texts, selection and projection an object with the fields. */
  lemma OperationsAreTight(g: Linked, op: UnaryOp, t: DataType)
    requires Wf(t, g.types)
    ensures op.Take? ==> (UnaryType(g, op, t).Some? <==> forall v | Inhabits(v, t, g.types) :: v.Arr?)
    ensures op.Truncate? ==> (UnaryType(g, op, t).Some? <==> forall v | Inhabits(v, t, g.types) :: v.Str?)
    ensures op.ToJson? ==> UnaryType(g, op, t).Some?
    ensures op.FieldOf? && !MediaType(t, g.types) ==>
      (UnaryType(g, op, t).Some? <==> forall v | Inhabits(v, t, g.types) :: v.Obj? && op.field in v.fields)
    ensures op.Project? && !MediaType(t, g.types) ==>
      (UnaryType(g, op, t).Some? <==>
         && op.fields != [] && (forall i, j | 0 <= i < j < |op.fields| :: op.fields[i] != op.fields[j])
         && forall v | Inhabits(v, t, g.types) :: v.Obj? && forall i | 0 <= i < |op.fields| :: op.fields[i] in v.fields)
  {
    var r, v := Witness(t, g.types);
  }

  /** Bytes are measured of everything, items of lists, media of media objects and lists of them. */
  lemma MeasuresAreTight(g: Linked, unit: Unit, t: DataType)
    requires Wf(t, g.types)
    ensures unit.Bytes? ==> UnaryType(g, Measure(unit), t).Some?
    ensures unit.Items? ==> (UnaryType(g, Measure(unit), t).Some? <==> forall v | Inhabits(v, t, g.types) :: v.Arr?)
    ensures unit.MediaCount? ==> (UnaryType(g, Measure(unit), t).Some? <==>
      exists m :: AlwaysMedia(t, m, g.types))
  {
    var r, v := Witness(t, g.types);
    if unit.MediaCount? {
      if r.List? {
        MediaLists(g, t, r);
      } else if r.Media? {
        assert AlwaysMedia(t, r.mediaType, g.types);
      } else {
        var x := NotMedia(t, g.types);
        assert !x.Arr? && forall m :: !AlwaysMedia(t, m, g.types);
      }
    }
  }

  /** Every value of `t` is a media object of type `m`, or a list of them. */
  ghost predicate AlwaysMedia(t: DataType, m: string, types: Registry) {
    forall v | Inhabits(v, t, types) :: IsMedia(v, m, types) || (v.Arr? && AllMedia(v.items, m, types))
  }

  predicate AllMedia(vs: seq<Json>, m: string, types: Registry) {
    forall i | 0 <= i < |vs| :: IsMedia(vs[i], m, types)
  }

  lemma MediaLists(g: Linked, t: DataType, r: DataType)
    requires Wf(t, g.types) && Resolved(t, g.types) == Some(r) && r.List? && Wf(r, g.types)
    requires forall x :: Inhabits(x, t, g.types) <==> Inhabits(x, r, g.types)
    ensures Measurable(g, r, MediaCount) <==> exists m :: AlwaysMedia(t, m, g.types)
  {
    var i, x := Witness(r.item, g.types);
    if i.Media? {
      forall v | Inhabits(v, t, g.types) ensures IsMedia(v, i.mediaType, g.types) || (v.Arr? && AllMedia(v.items, i.mediaType, g.types)) {
        forall k | 0 <= k < |v.items| ensures IsMedia(v.items[k], i.mediaType, g.types) {
          ResolvedMeans(v.items[k], r.item, g.types);
        }
      }
      assert AlwaysMedia(t, i.mediaType, g.types);
    } else {
      var y := NotMedia(r.item, g.types);
      var list := Arr([y]);
      assert Inhabits(list, r, g.types);
      forall m ensures !AlwaysMedia(t, m, g.types) {
        assert list.items[0] == y && !AllMedia(list.items, m, g.types);
      }
    }
  }

  /** A sort is typed exactly when any two keys can be compared. */
  lemma SortKeysAreTight(g: Linked, descending: bool, item: DataType, key: DataType)
    requires Wf(key, g.types)
    ensures KeyedType(g, SortOp(descending), item, key).Some? <==>
      forall a, b | Inhabits(a, key, g.types) && Inhabits(b, key, g.types) :: CompareJson(a, b).Some?
    ensures KeyedType(g, MapOp, item, key).Some? && KeyedType(g, GroupOp, item, key).Some? && KeyedType(g, DedupOp, item, key).Some?
  {
    var r, v := Witness(key, g.types);
    if !r.Text? && !r.Number? { assert CompareJson(v, v).None?; }
  }

  /** A value may be shown as text or as media exactly when every value of its type has that shape, as
      messages exactly when it is always a list of objects that are not media, as JSON unless it is
      media. */
  lemma FormatsAreTight(g: Linked, t: DataType, format: Format)
    requires Wf(t, g.types)
    ensures format.AsText? || format.AsMedia? ==>
      (FormatOk(g, t, format) <==> forall v | Inhabits(v, t, g.types) :: FormatFits(v, format))
    ensures format.AsJson? ==> (FormatOk(g, t, format) <==> !MediaType(t, g.types))
    ensures format.AsMessages? ==> (FormatOk(g, t, format) <==>
      && (forall v | Inhabits(v, t, g.types) :: FormatFits(v, format))
      && exists v :: Inhabits(v, t, g.types) && v.Arr? && v.items != [] && !FormatFits(v.items[0], AsMedia))
  {
    var r, v := Witness(t, g.types);
    forall v | FormatOk(g, t, format) && Inhabits(v, t, g.types) ensures FormatFits(v, format) { FormatSound(g, v, t, format); }
    if !r.Media? { var x := NotMedia(t, g.types); }
    if format.AsMessages? && r.List? { MessageLists(g, t, r); }
  }

  lemma MessageLists(g: Linked, t: DataType, r: DataType)
    requires Wf(t, g.types) && Resolved(t, g.types) == Some(r) && r.List? && Wf(r, g.types)
    requires forall x :: Inhabits(x, t, g.types) <==> Inhabits(x, r, g.types)
    ensures FormatOk(g, t, AsMessages) <==>
      && (forall v | Inhabits(v, t, g.types) :: FormatFits(v, AsMessages))
      && exists v :: Inhabits(v, t, g.types) && v.Arr? && v.items != [] && !FormatFits(v.items[0], AsMedia)
  {
    var i, x := Witness(r.item, g.types);
    assert Inhabits(Arr([x]), r, g.types);
    forall v | FormatOk(g, t, AsMessages) && Inhabits(v, t, g.types) ensures FormatFits(v, AsMessages) { FormatSound(g, v, t, AsMessages); }
    if i.Media? {
      forall v | Inhabits(v, t, g.types) && v.Arr? && v.items != [] ensures FormatFits(v.items[0], AsMedia) {
        ResolvedMeans(v.items[0], r.item, g.types);
      }
    } else {
      var y := NotMedia(r.item, g.types);
      assert Inhabits(Arr([y]), r, g.types) && Arr([y]).items[0] == y;
      assert !i.Record? ==> !FormatFits(Arr([x]), AsMessages) by { assert Arr([x]).items[0] == x; }
    }
  }
}
