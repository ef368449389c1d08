/** Context values: shared pointer views into resource documents, and the records and lists built
    over them (rust/crates/zf-context/src/context.rs, `ContextValue`). */
module Views {
  import opened Base
  import opened Pointers

  datatype ContextValue =
    | Shared(root: Json, pointer: string)
    | Object(fields: map<string, ContextValue>)
    | Array(items: seq<ContextValue>)

  /** Every shared part points at an existing place. */
  predicate Live(v: ContextValue) {
    match v
    case Shared(root, pointer) => Pointer(root, pointer).Some?
    case Object(fields) => forall k | k in fields :: Live(fields[k])
    case Array(items) => forall i | 0 <= i < |items| :: Live(items[i])
  }

  /** The values the evaluator handles: no operation below ever produces a dangling view. */
  type View = v: ContextValue | Live(v) witness Shared(Null, "")

  /** The plain document that a value stands for, which is also what it serializes to. */
  function Denote(v: View): Json {
    match v
    case Shared(root, pointer) => Pointer(root, pointer).value
    case Object(fields) => Obj(map k | k in fields :: Denote(fields[k]))
    case Array(items) => Arr(seq(|items|, i requires 0 <= i < |items| => Denote(items[i])))
  }

  function Owned(v: Json): (r: View)
    ensures Denote(r) == v
  {
    Shared(v, "")
  }

  function AsValue(v: View): Option<Json> {
    if v.Shared? then Pointer(v.root, v.pointer) else None
  }

  /** The field view exists exactly when the document has that field, and denotes it. */
  function Field(v: View, name: string): (r: Option<View>)
    ensures r.Some? <==> Denote(v).Obj? && name in Denote(v).fields
    ensures r.Some? ==> Denote(r.value) == Denote(v).fields[name]
  {
    match v
    case Object(fields) => if name in fields then Some(fields[name]) else None
    case Array(_) => None
    case Shared(root, pointer) =>
      var value := Pointer(root, pointer).value;
      if value.Obj? && name in value.fields then
        PointerField(root, pointer, name);
        Some(Shared(root, pointer + "/" + Escape(name)))
      else None
  }

  function ArrayLen(v: View): (r: Option<nat>)
    ensures r.Some? <==> Denote(v).Arr?
    ensures r.Some? ==> r.value == |Denote(v).items|
  {
    if v.Array? then Some(|v.items|)
    else
      var value := AsValue(v);
      if value.Some? && value.value.Arr? then Some(|value.value.items|) else None
  }

  /** The element view exists exactly within bounds, and denotes that element. */
  function Index(v: View, index: nat): (r: Option<View>)
    ensures r.Some? <==> Denote(v).Arr? && index < |Denote(v).items|
    ensures r.Some? ==> Denote(r.value) == Denote(v).items[index]
  {
    match v
    case Array(items) => if index < |items| then Some(items[index]) else None
    case Object(_) => None
    case Shared(root, pointer) =>
      var value := Pointer(root, pointer).value;
      if value.Arr? && index < |value.items| then
        PointerIndex(root, pointer, index);
        Some(Shared(root, pointer + "/" + Decimal(index)))
      else None
  }

  /** The keys of a record value, as the equivalence test enumerates them. */
  function Keys(v: View): Option<set<string>> {
    if v.Object? then Some(v.fields.Keys)
    else
      var value := AsValue(v);
      if value.Some? && value.value.Obj? then Some(value.value.fields.Keys) else None
  }

  lemma SubsetOfEqualSize(a: set<string>, b: set<string>)
    requires a <= b && |a| == |b|
    ensures a == b
  {
    assert b == a + (b - a);
    assert |b - a| == 0;
    forall x | x in b ensures x in a { assert x !in b - a; }
  }

  /** The structural equivalence test of the source. */
  predicate Equivalent(a: View, b: View)
    decreases Denote(a)
  {
    var la, lb := ArrayLen(a), ArrayLen(b);
    if la.Some? && lb.Some? then
      la.value == lb.value && forall i | 0 <= i < la.value :: Equivalent(Index(a, i).value, Index(b, i).value)
    else if AsValue(a).Some? && AsValue(b).Some? then AsValue(a) == AsValue(b)
    else
      var ka, kb := Keys(a), Keys(b);
      if ka.Some? && kb.Some? then
        |ka.value| == |kb.value|
        && forall k | k in ka.value :: Field(b, k).Some? && Equivalent(Field(a, k).value, Field(b, k).value)
      else false
  }

  /** Equivalence is equality of the denoted documents, however either side is represented. */
  lemma {:induction false} EquivalentIsEquality(a: View, b: View)
    ensures Equivalent(a, b) <==> Denote(a) == Denote(b)
    decreases Denote(a)
  {
    if Denote(a).Arr? && Denote(b).Arr? {
      EquivalentArrays(a, b);
    } else if AsValue(a).None? || AsValue(b).None? {
      if Denote(a).Obj? && Denote(b).Obj? { EquivalentObjects(a, b); }
    }
  }

  lemma {:induction false} EquivalentArrays(a: View, b: View)
    requires Denote(a).Arr? && Denote(b).Arr?
    ensures Equivalent(a, b) <==> Denote(a) == Denote(b)
    decreases Denote(a), 0
  {
    var xs, ys := Denote(a).items, Denote(b).items;
    if |xs| == |ys| {
      forall i | 0 <= i < |xs|
        ensures Equivalent(Index(a, i).value, Index(b, i).value) <==> xs[i] == ys[i]
      {
        EquivalentIsEquality(Index(a, i).value, Index(b, i).value);
      }
      assert xs == ys <==> forall i | 0 <= i < |xs| :: xs[i] == ys[i];
    }
  }

  lemma {:induction false} EquivalentObjects(a: View, b: View)
    requires Denote(a).Obj? && Denote(b).Obj? && (AsValue(a).None? || AsValue(b).None?)
    ensures Equivalent(a, b) <==> Denote(a) == Denote(b)
    decreases Denote(a), 0
  {
    var xs, ys := Denote(a).fields, Denote(b).fields;
    KeysAreFields(a);
    KeysAreFields(b);
    if Equivalent(a, b) {
      forall k | k in xs ensures k in ys && xs[k] == ys[k] {
        assert Field(b, k).Some? && Equivalent(Field(a, k).value, Field(b, k).value);
        EquivalentIsEquality(Field(a, k).value, Field(b, k).value);
      }
      assert xs.Keys <= ys.Keys;
      SubsetOfEqualSize(xs.Keys, ys.Keys);
      assert xs == ys;
    }
    if xs == ys {
      forall k | k in xs
        ensures Field(b, k).Some? && Equivalent(Field(a, k).value, Field(b, k).value)
      {
        EquivalentIsEquality(Field(a, k).value, Field(b, k).value);
      }
    }
  }

  lemma KeysAreFields(v: View)
    requires Denote(v).Obj?
    ensures Keys(v) == Some(Denote(v).fields.Keys)
  {
    if v.Object? { assert Denote(v).fields.Keys == v.fields.Keys; }
  }

  /** UTF-8 bytes of a text, compact JSON bytes of any other value. */
  function MeasuredBytes(v: View, encode: Json -> string): nat {
    if Denote(v).Str? then Utf8Len(Denote(v).s) else Utf8Len(encode(Denote(v)))
  }
}
