/** Resource types, their validity, their values and structural subtyping
    (rust/crates/zf-core/src/types.rs). */
module Types {
  import opened Base

  datatype DataType =
    | Boolean
    | Number
    | Text
    | List(item: DataType)
    | Record(fields: map<string, DataType>)
    | Media(mediaType: string)
    | Named(name: string)

  type Registry = map<string, DataType>

  const MAX_LEVELS := 64
  const MAX_NODES := 4096

  /** The expansion of `t` through the registry is finite: it stays within `levels` further levels,
      every reference on the way resolves, and no name or media type is blank. */
  predicate Unfolds(t: DataType, types: Registry, levels: nat)
    decreases levels
  {
    match t
    case Named(n) => !Blank(n) && n in types && levels > 0 && Unfolds(types[n], types, levels - 1)
    case Record(fs) => forall k | k in fs :: levels > 0 && Unfolds(fs[k], types, levels - 1)
    case List(item) => levels > 0 && Unfolds(item, types, levels - 1)
    case Media(m) => !Blank(m)
    case _ => true
  }

  predicate FieldsUnfold(fs: map<string, DataType>, keys: set<string>, types: Registry, levels: nat) {
    keys <= fs.Keys && forall k | k in keys :: levels > 0 && Unfolds(fs[k], types, levels - 1)
  }

  /** Number of nodes of the expansion. */
  ghost function Nodes(t: DataType, types: Registry, levels: nat): (n: nat)
    requires Unfolds(t, types, levels)
    ensures n >= 1
    decreases levels, 1, 0
  {
    match t
    case Named(n) => 1 + Nodes(types[n], types, levels - 1)
    case Record(fs) => 1 + FieldNodes(fs, fs.Keys, types, levels)
    case List(item) => 1 + Nodes(item, types, levels - 1)
    case _ => 1
  }

  /** Nodes of the expansions of the fields `keys` of a record. */
  ghost function FieldNodes(fs: map<string, DataType>, keys: set<string>, types: Registry, levels: nat): (n: nat)
    requires FieldsUnfold(fs, keys, types, levels)
    decreases levels, 0, |keys|
  {
    if keys == {} then 0 else
      var k :| k in keys;
      Nodes(fs[k], types, levels - 1) + FieldNodes(fs, keys - {k}, types, levels)
  }

  /** The verdict of `validate_type`: a finite expansion of at most 64 levels and 4096 nodes. */
  ghost predicate TypeOk(t: DataType, types: Registry) {
    Unfolds(t, types, MAX_LEVELS) && Nodes(t, types, MAX_LEVELS) <= MAX_NODES
  }

  /** Every reference met in the expansion of `t` resolves after at most `names` references in a row;
      lists and records are free. Inferred types, which nest validated ones, satisfy this. */
  predicate Resolves(t: DataType, types: Registry, names: nat)
    decreases names, t
  {
    match t
    case Named(n) => names > 0 && n in types && Resolves(types[n], types, names - 1)
    case Record(fs) => forall k | k in fs :: Resolves(fs[k], types, names)
    case List(item) => Resolves(item, types, names)
    case Media(m) => !Blank(m)
    case _ => true
  }

  predicate Wf(t: DataType, types: Registry) {
    Resolves(t, types, MAX_LEVELS)
  }

  /** `check_value` reports nothing for `v`, following at most `names` references in a row. */
  predicate Fits(v: Json, t: DataType, types: Registry, names: nat)
    decreases names, t
  {
    match t
    case Boolean => v.Bool?
    case Number => v.Numeric?
    case Text => v.Str?
    case Named(n) => names > 0 && n in types && Fits(v, types[n], types, names - 1)
    case Media(m) =>
      && v.Obj? && "contentRef" in v.fields && v.fields["contentRef"].Str? && v.fields["contentRef"].s != ""
      && "mediaType" in v.fields && v.fields["mediaType"] == Str(m)
    case List(item) => v.Arr? && forall i | 0 <= i < |v.items| :: Fits(v.items[i], item, types, names)
    case Record(fs) => v.Obj? && forall k | k in fs :: k in v.fields && Fits(v.fields[k], fs[k], types, names)
  }

  /** `v` is a value of type `t`. */
  predicate Inhabits(v: Json, t: DataType, types: Registry) {
    Fits(v, t, types, MAX_LEVELS)
  }

  /** Structural acceptance: records may carry more fields, names are nominal. */
  predicate Accepts(source: DataType, target: DataType) {
    match (source, target)
    case (Record(s), Record(t)) => forall k | k in t :: k in s && Accepts(s[k], t[k])
    case (List(s), List(t)) => Accepts(s, t)
    case _ => source == target
  }

  ghost predicate Compatible(source: DataType, target: DataType, types: Registry) {
    TypeOk(source, types) && TypeOk(target, types) && Accepts(source, target)
  }

  /** At most `steps` references are followed to reach a constructor. */
  function ResolvedWithin(t: DataType, types: Registry, steps: nat): Option<DataType>
    decreases steps
  {
    if steps == 0 then None
    else if !t.Named? then Some(t)
    else if t.name in types then ResolvedWithin(types[t.name], types, steps - 1)
    else None
  }

  /** The checker's 65-step resolution of outer names. */
  function Resolved(t: DataType, types: Registry): Option<DataType> {
    ResolvedWithin(t, types, MAX_LEVELS + 1)
  }

  // ----- Finite unfolding -----

  /** A finite expansion resolves: every level follows at most one reference. */
  lemma {:induction false} UnfoldsResolves(t: DataType, types: Registry, levels: nat)
    requires Unfolds(t, types, levels)
    ensures Resolves(t, types, levels)
    decreases levels
  {
    match t
    case Named(n) => UnfoldsResolves(types[n], types, levels - 1);
    case Record(fs) =>
      forall k | k in fs ensures Resolves(fs[k], types, levels) {
        UnfoldsResolves(fs[k], types, levels - 1);
        MoreNames(fs[k], types, levels - 1, levels);
      }
    case List(item) =>
      UnfoldsResolves(item, types, levels - 1);
      MoreNames(item, types, levels - 1, levels);
    case _ =>
  }

  lemma {:induction false} MoreNames(t: DataType, types: Registry, names: nat, more: nat)
    requires Resolves(t, types, names) && names <= more
    ensures Resolves(t, types, more)
    decreases names, t
  {
    match t
    case Named(n) => MoreNames(types[n], types, names - 1, more - 1);
    case Record(fs) =>
      forall k | k in fs ensures Resolves(fs[k], types, more) { MoreNames(fs[k], types, names, more); }
    case List(item) => MoreNames(item, types, names, more);
    case _ =>
  }

  /** `check_value` never depends on the bound that makes it terminate. */
  lemma {:induction false} FitsIgnoresBound(v: Json, t: DataType, types: Registry, names: nat, more: nat)
    requires Resolves(t, types, names) && names <= more
    ensures Fits(v, t, types, names) == Fits(v, t, types, more)
    decreases names, t
  {
    match t
    case Named(n) => FitsIgnoresBound(v, types[n], types, names - 1, more - 1);
    case Record(fs) =>
      if v.Obj? {
        forall k | k in fs && k in v.fields
          ensures Fits(v.fields[k], fs[k], types, names) == Fits(v.fields[k], fs[k], types, more)
        {
          FitsIgnoresBound(v.fields[k], fs[k], types, names, more);
        }
      }
    case List(item) =>
      if v.Arr? {
        forall i | 0 <= i < |v.items|
          ensures Fits(v.items[i], item, types, names) == Fits(v.items[i], item, types, more)
        {
          FitsIgnoresBound(v.items[i], item, types, names, more);
        }
      }
    case _ =>
  }

  lemma {:induction false} ResolvedWithinMeans(v: Json, t: DataType, types: Registry, names: nat)
    requires Resolves(t, types, names)
    ensures var r := ResolvedWithin(t, types, names + 1);
      r.Some? && !r.value.Named? && Resolves(r.value, types, names)
      && Fits(v, t, types, names) == Fits(v, r.value, types, names)
    decreases names
  {
    if t.Named? {
      var next := types[t.name];
      ResolvedWithinMeans(v, next, types, names - 1);
      var r := ResolvedWithin(next, types, names).value;
      MoreNames(r, types, names - 1, names);
      FitsIgnoresBound(v, r, types, names - 1, names);
    }
  }

  /** The checker's resolution succeeds on every well-formed type and keeps its values. */
  lemma ResolvedMeans(v: Json, t: DataType, types: Registry)
    requires Wf(t, types)
    ensures var r := Resolved(t, types);
      r.Some? && !r.value.Named? && Wf(r.value, types)
      && Inhabits(v, t, types) == Inhabits(v, r.value, types)
  {
    ResolvedWithinMeans(v, t, types, MAX_LEVELS);
  }

  /** A validated type is well formed. */
  lemma TypeOkWf(t: DataType, types: Registry)
    requires TypeOk(t, types)
    ensures Wf(t, types)
  {
    UnfoldsResolves(t, types, MAX_LEVELS);
  }

  // ----- Subtyping -----

  lemma {:induction false} AcceptsReflexive(t: DataType)
    ensures Accepts(t, t)
  {
    match t
    case Record(fs) => forall k | k in fs ensures Accepts(fs[k], fs[k]) { AcceptsReflexive(fs[k]); }
    case List(item) => AcceptsReflexive(item);
    case _ =>
  }

  lemma {:induction false} AcceptsTransitive(a: DataType, b: DataType, c: DataType)
    requires Accepts(a, b) && Accepts(b, c)
    ensures Accepts(a, c)
  {
    match (a, b, c)
    case (Record(fa), Record(fb), Record(fc)) =>
      forall k | k in fc ensures k in fa && Accepts(fa[k], fc[k]) { AcceptsTransitive(fa[k], fb[k], fc[k]); }
    case (List(x), List(y), List(z)) => AcceptsTransitive(x, y, z);
    case _ =>
  }

  lemma {:induction false} AcceptsAntisymmetric(a: DataType, b: DataType)
    requires Accepts(a, b) && Accepts(b, a)
    ensures a == b
  {
    match (a, b)
    case (Record(fa), Record(fb)) =>
      forall k | k in fa ensures k in fb && fa[k] == fb[k] { AcceptsAntisymmetric(fa[k], fb[k]); }
      assert fa == fb;
    case (List(x), List(y)) => AcceptsAntisymmetric(x, y);
    case _ =>
  }

  /** Subtyping is value inclusion. */
  lemma {:induction false} AcceptsIncludesValues(v: Json, source: DataType, target: DataType, types: Registry, names: nat)
    requires Accepts(source, target) && Fits(v, source, types, names)
    ensures Fits(v, target, types, names)
    decreases source
  {
    match (source, target)
    case (Record(s), Record(t)) =>
      forall k | k in t ensures k in v.fields && Fits(v.fields[k], t[k], types, names) {
        AcceptsIncludesValues(v.fields[k], s[k], t[k], types, names);
      }
    case (List(s), List(t)) =>
      forall i | 0 <= i < |v.items| ensures Fits(v.items[i], t, types, names) {
        AcceptsIncludesValues(v.items[i], s, t, types, names);
      }
    case _ =>
  }

  /** On validated types `compatible` is a partial order whose order is value inclusion. */
  lemma CompatibleIsSubtyping(a: DataType, b: DataType, c: DataType, types: Registry)
    ensures Compatible(a, a, types) <==> TypeOk(a, types)
    ensures Compatible(a, b, types) && Compatible(b, c, types) ==> Compatible(a, c, types)
    ensures Compatible(a, b, types) && Compatible(b, a, types) ==> a == b
    ensures Compatible(a, b, types) ==> forall v | Inhabits(v, a, types) :: Inhabits(v, b, types)
  {
    AcceptsReflexive(a);
    if Accepts(a, b) && Accepts(b, c) { AcceptsTransitive(a, b, c); }
    if Accepts(a, b) && Accepts(b, a) { AcceptsAntisymmetric(a, b); }
    if Accepts(a, b) {
      forall v | Inhabits(v, a, types) ensures Inhabits(v, b, types) {
        AcceptsIncludesValues(v, a, b, types, MAX_LEVELS);
      }
    }
  }
}
