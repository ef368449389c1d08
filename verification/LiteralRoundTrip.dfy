/** Printed types and JSON literals parse back to themselves exactly when they nest within the limit. */
module LiteralRoundTrip {
  import opened Base
  import opened Types
  import opened SourceTerms
  import opened SourceParser

  function Max(a: nat, b: nat): nat { if a < b then b else a }

  // ----- JSON literals -----

  /** The literal nests no deeper than its parser allows. */
  predicate JsonFits(v: Json, depth: nat) {
    depth <= MAX_NESTING &&
    match v
    case Arr(items) => forall i | 0 <= i < |items| :: JsonFits(items[i], depth + 1)
    case Obj(fields) => forall k | k in fields :: JsonFits(fields[k], depth + 1)
    case _ => true
  }

  function Kept<T>(value: T, fits: bool): Option<T> {
    if fits then Some(value) else None
  }

  lemma {:induction false} JsonRoundTrip(v: Json, depth: nat, names: Names)
    requires Lists(names)
    ensures ParseJson(PrintJson(v, names), depth) == Kept(v, JsonFits(v, depth))
    decreases v, 1
  {
    if depth <= MAX_NESTING {
      match v
      case Arr(items) =>
        JsonsRoundTrip(v, 0, depth + 1, names);
        assert items[..0] == [] && items[..|items|] == items;
      case Obj(fields) => MembersRoundTrip(v, names(fields.Keys), depth + 1, names);
      case _ =>
    }
  }

  lemma {:induction false} JsonsRoundTrip(v: Json, i: nat, depth: nat, names: Names)
    requires Lists(names) && v.Arr? && i <= |v.items|
    ensures var ts := seq(|v.items|, k requires 0 <= k < |v.items| => PrintJson(v.items[k], names));
      ParseJsons(ts, i, depth, v.items[..i]) == Kept(v.items, forall k | i <= k < |v.items| :: JsonFits(v.items[k], depth))
    decreases v, 0, |v.items| - i
  {
    if i == |v.items| {
      assert v.items[..i] == v.items;
    } else {
      JsonRoundTrip(v.items[i], depth, names);
      JsonsRoundTrip(v, i + 1, depth, names);
      assert v.items[..i] + [v.items[i]] == v.items[..i + 1];
    }
  }

  lemma {:induction false} MembersPrinted(v: Json, list: seq<string>, names: Names)
    requires v.Obj? && forall x | x in list :: x in v.fields
    ensures var ms := PrintMembers(v, list, names);
      |ms| == |list| && forall i | 0 <= i < |list| :: ms[i] == Member(list[i], PrintJson(v.fields[list[i]], names))
    decreases |list|
  {
    if list != [] {
      assert list[0] in list;
      MembersPrinted(v, list[1..], names);
    }
  }

  /** The entries of the first `i` listed names. */
  function Upto<T>(m: map<string, T>, list: seq<string>, i: nat): map<string, T>
    requires i <= |list| && forall k | 0 <= k < |list| :: list[k] in m
  {
    if i == 0 then map[] else Upto(m, list, i - 1)[list[i - 1] := m[list[i - 1]]]
  }

  lemma {:induction false} UptoHolds<T>(m: map<string, T>, list: seq<string>, i: nat, x: string)
    requires i <= |list| && forall k | 0 <= k < |list| :: list[k] in m
    ensures x in Upto(m, list, i) <==> exists k :: 0 <= k < i && list[k] == x
    ensures x in Upto(m, list, i) ==> x in m && Upto(m, list, i)[x] == m[x]
  {
    if i > 0 {
      UptoHolds(m, list, i - 1, x);
      if x in Upto(m, list, i - 1) {
        var k :| 0 <= k < i - 1 && list[k] == x;
        assert 0 <= k < i && list[k] == x;
      } else if x == list[i - 1] {
        assert 0 <= i - 1 < i && list[i - 1] == x;
      }
    }
  }

  lemma UptoMore<T>(m: map<string, T>, list: seq<string>, i: nat)
    requires i < |list| && (forall k | 0 <= k < |list| :: list[k] in m) && forall a, b | 0 <= a < b < |list| :: list[a] != list[b]
    ensures list[i] !in Upto(m, list, i) && Upto(m, list, i + 1) == Upto(m, list, i)[list[i] := m[list[i]]]
  {
    UptoHolds(m, list, i, list[i]);
  }

  lemma ListedIn(list: seq<string>, s: set<string>)
    requires Listing(list, s)
    ensures (forall k | 0 <= k < |list| :: list[k] in s) && forall x | x in s :: exists k :: 0 <= k < |list| && list[k] == x
  {
    forall k | 0 <= k < |list| ensures list[k] in s { assert list[k] in list; }
    forall x | x in s ensures exists k :: 0 <= k < |list| && list[k] == x { assert x in list; }
  }

  lemma UptoWhole<T>(m: map<string, T>, list: seq<string>)
    requires Listing(list, m.Keys)
    ensures (forall k | 0 <= k < |list| :: list[k] in m) && Upto(m, list, 0) == map[] && Upto(m, list, |list|) == m
  {
    ListedIn(list, m.Keys);
    var whole := Upto(m, list, |list|);
    forall x ensures x in whole <==> x in m { UptoHolds(m, list, |list|, x); }
    forall x | x in whole ensures whole[x] == m[x] { UptoHolds(m, list, |list|, x); }
    assert whole == m;
  }

  predicate MembersFit(v: Json, list: seq<string>, i: nat, depth: nat)
    requires v.Obj?
  {
    forall k | i <= k < |list| :: list[k] in v.fields && JsonFits(v.fields[list[k]], depth)
  }

  lemma AllMembersFit(v: Json, list: seq<string>, depth: nat)
    requires v.Obj? && Listing(list, v.fields.Keys)
    ensures MembersFit(v, list, 0, depth) <==> forall k | k in v.fields :: JsonFits(v.fields[k], depth)
  {
    ListedIn(list, v.fields.Keys);
    if MembersFit(v, list, 0, depth) {
      forall k | k in v.fields ensures JsonFits(v.fields[k], depth) { var i :| 0 <= i < |list| && list[i] == k; }
    }
  }

  lemma {:induction false} MembersRoundTrip(v: Json, list: seq<string>, depth: nat, names: Names)
    requires Lists(names) && v.Obj? && list == names(v.fields.Keys)
    ensures ParseMembers(PrintMembers(v, list, names), 0, depth, map[])
      == Kept(v.fields, forall k | k in v.fields :: JsonFits(v.fields[k], depth))
    decreases v, 0, |list| + 1
  {
    assert Listing(list, v.fields.Keys);
    UptoWhole(v.fields, list);
    MembersPrinted(v, list, names);
    MembersFrom(v, list, PrintMembers(v, list, names), 0, depth, names);
    AllMembersFit(v, list, depth);
  }

  lemma {:induction false} MembersFrom(v: Json, list: seq<string>, ms: seq<Member>, i: nat, depth: nat, names: Names)
    requires Lists(names) && v.Obj? && i <= |list| == |ms| && forall k | 0 <= k < |list| :: list[k] in v.fields
    requires forall a, b | 0 <= a < b < |list| :: list[a] != list[b]
    requires forall k | 0 <= k < |list| :: ms[k] == Member(list[k], PrintJson(v.fields[list[k]], names))
    ensures ParseMembers(ms, i, depth, Upto(v.fields, list, i))
      == Kept(Upto(v.fields, list, |list|), MembersFit(v, list, i, depth))
    decreases v, 0, |list| - i
  {
    if i < |list| {
      var x := v.fields[list[i]];
      JsonRoundTrip(x, depth, names);
      UptoMore(v.fields, list, i);
      MembersStep(ms, i, depth, Upto(v.fields, list, i), x, JsonFits(x, depth));
      MembersFrom(v, list, ms, i + 1, depth, names);
      MembersFitFirst(v, list, i, depth);
    }
  }

  lemma MembersStep(ms: seq<Member>, i: nat, depth: nat, done: map<string, Json>, x: Json, fits: bool)
    requires i < |ms| && ParseJson(ms[i].value, depth) == Kept(x, fits) && ms[i].name !in done
    ensures ParseMembers(ms, i, depth, done) == if fits then ParseMembers(ms, i + 1, depth, done[ms[i].name := x]) else None
  {
  }

  lemma MembersFitFirst(v: Json, list: seq<string>, i: nat, depth: nat)
    requires v.Obj? && i < |list| && list[i] in v.fields
    ensures MembersFit(v, list, i, depth) <==> JsonFits(v.fields[list[i]], depth) && MembersFit(v, list, i + 1, depth)
  {
  }

  // ----- Types -----

  /** The printed type nests no deeper than its parser allows. */
  predicate TypeFits(t: DataType, depth: nat) {
    depth <= MAX_NESTING &&
    match t
    case List(item) => TypeFits(item, depth + 1)
    case Record(fields) => forall k | k in fields :: TypeFits(fields[k], depth + 1)
    case _ => true
  }

  /** Validated types always fit: their expansion already stays within the same number of levels. */
  lemma {:induction false} ValidTypesFit(t: DataType, types: Registry, levels: nat, depth: nat)
    requires Unfolds(t, types, levels) && depth + levels <= MAX_NESTING
    ensures TypeFits(t, depth)
    decreases levels
  {
    match t
    case List(item) => ValidTypesFit(item, types, levels - 1, depth + 1);
    case Record(fields) => forall k | k in fields ensures TypeFits(fields[k], depth + 1) { ValidTypesFit(fields[k], types, levels - 1, depth + 1); }
    case _ =>
  }

  lemma {:induction false} TypeRoundTrip(t: DataType, depth: nat, names: Names)
    requires Lists(names)
    ensures ParseType(PrintType(t, names), depth) == Kept(t, TypeFits(t, depth))
    decreases t, 1
  {
    if depth <= MAX_NESTING {
      match t
      case List(item) => TypeRoundTrip(item, depth + 1, names);
      case Record(fields) => RecordRoundTrip(t, depth, names);
      case _ =>
    }
  }

  lemma {:induction false} RecordRoundTrip(t: DataType, depth: nat, names: Names)
    requires Lists(names) && t.Record? && depth <= MAX_NESTING
    ensures ParseType(PrintType(t, names), depth) == Kept(t, TypeFits(t, depth))
    decreases t, 0, |names(t.fields.Keys)| + 2
  {
    FieldsRoundTrip(t, names(t.fields.Keys), depth + 1, names);
  }

  lemma {:induction false} FieldsPrinted(t: DataType, list: seq<string>, names: Names)
    requires t.Record? && forall x | x in list :: x in t.fields
    ensures var ts := PrintFields(t, list, names);
      |ts| == |list| && forall i | 0 <= i < |list| :: ts[i] == Pair(Into(list[i]), PrintType(t.fields[list[i]], names))
    decreases |list|
  {
    if list != [] {
      assert list[0] in list;
      FieldsPrinted(t, list[1..], names);
    }
  }

  predicate FieldsFit(t: DataType, list: seq<string>, i: nat, depth: nat)
    requires t.Record?
  {
    forall k | i <= k < |list| :: list[k] in t.fields && TypeFits(t.fields[list[k]], depth)
  }

  lemma AllFieldsFit(t: DataType, list: seq<string>, depth: nat)
    requires t.Record? && Listing(list, t.fields.Keys)
    ensures FieldsFit(t, list, 0, depth) <==> forall k | k in t.fields :: TypeFits(t.fields[k], depth)
  {
    ListedIn(list, t.fields.Keys);
    if FieldsFit(t, list, 0, depth) {
      forall k | k in t.fields ensures TypeFits(t.fields[k], depth) { var i :| 0 <= i < |list| && list[i] == k; }
    }
  }

  lemma {:induction false} FieldsRoundTrip(t: DataType, list: seq<string>, depth: nat, names: Names)
    requires Lists(names) && t.Record? && list == names(t.fields.Keys)
    ensures ParseFields(PrintFields(t, list, names), 0, depth, map[])
      == Kept(t.fields, forall k | k in t.fields :: TypeFits(t.fields[k], depth))
    decreases t, 0, |list| + 1
  {
    assert Listing(list, t.fields.Keys);
    UptoWhole(t.fields, list);
    FieldsPrinted(t, list, names);
    FieldsFrom(t, list, PrintFields(t, list, names), 0, depth, names);
    AllFieldsFit(t, list, depth);
  }

  lemma {:induction false} FieldsFrom(t: DataType, list: seq<string>, ts: seq<Term>, i: nat, depth: nat, names: Names)
    requires Lists(names) && t.Record? && i <= |list| == |ts| && forall k | 0 <= k < |list| :: list[k] in t.fields
    requires forall a, b | 0 <= a < b < |list| :: list[a] != list[b]
    requires forall k | 0 <= k < |list| :: ts[k] == Pair(Into(list[k]), PrintType(t.fields[list[k]], names))
    ensures ParseFields(ts, i, depth, Upto(t.fields, list, i))
      == Kept(Upto(t.fields, list, |list|), FieldsFit(t, list, i, depth))
    decreases t, 0, |list| - i
  {
    if i < |list| {
      var x := t.fields[list[i]];
      TypeRoundTrip(x, depth, names);
      UptoMore(t.fields, list, i);
      FieldsStep(ts, i, depth, Upto(t.fields, list, i), x, TypeFits(x, depth));
      FieldsFrom(t, list, ts, i + 1, depth, names);
      FieldsFitFirst(t, list, i, depth);
    }
  }

  lemma FieldsStep(ts: seq<Term>, i: nat, depth: nat, done: map<string, DataType>, x: DataType, fits: bool)
    requires i < |ts| && ts[i].Pair? && ts[i].first.Into? && ParseType(ts[i].second, depth) == Kept(x, fits) && ts[i].first.text !in done
    ensures ParseFields(ts, i, depth, done) == if fits then ParseFields(ts, i + 1, depth, done[ts[i].first.text := x]) else None
  {
  }

  lemma FieldsFitFirst(t: DataType, list: seq<string>, i: nat, depth: nat)
    requires t.Record? && i < |list| && list[i] in t.fields
    ensures FieldsFit(t, list, i, depth) <==> TypeFits(t.fields[list[i]], depth) && FieldsFit(t, list, i + 1, depth)
  {
  }
}
