/** JSON documents can be written as texts without loss. Evaluation and selection take the JSON
    serialisation of the source as a parameter that is injective; here is one that is. */
module Encoding {
  import opened Base
  import opened Grouping

  function Unary(n: nat): string {
    if n == 0 then "." else "|" + Unary(n - 1)
  }

  function Size(i: int): nat { if i < 0 then -i else i }

  function CodeInt(i: int): string {
    (if i < 0 then "-" else "+") + Unary(Size(i))
  }

  function CodeText(s: string): string {
    Unary(|s|) + s
  }

  ghost function CodeFloat(r: Finite): string {
    assert Dyadic(r);
    var n: int, shift: nat :| r == Ratio(n, shift);
    CodeInt(n) + Unary(shift)
  }

  /** The elements of a set in some order. */
  ghost function ListOf(s: set<string>): (list: seq<string>)
    ensures forall x :: x in list <==> x in s
  {
    if s == {} then []
    else
      var x :| x in s;
      [x] + ListOf(s - {x})
  }

  ghost function Code(v: Json): string
    decreases v, 1
  {
    match v
    case Null => "n"
    case Bool(b) => if b then "t" else "f"
    case Numeric(Int(i)) => "i" + CodeInt(i)
    case Numeric(Float(r)) => "r" + CodeFloat(r)
    case Str(s) => "s" + CodeText(s)
    case Arr(items) => "a" + (Unary(|items|) + CodeItems(items))
    case Obj(fields) => var list := ListOf(fields.Keys); "o" + (Unary(|list|) + CodeFields(v, list))
  }

  ghost function CodeItems(items: seq<Json>): string
    decreases items, 0
  {
    if items == [] then "" else Code(items[0]) + CodeItems(items[1..])
  }

  ghost function CodeFields(v: Json, list: seq<string>): string
    requires v.Obj? && forall x | x in list :: x in v.fields
    decreases v, 0, |list|
  {
    if list == [] then ""
    else
      assert list[0] in list;
      CodeText(list[0]) + (Code(v.fields[list[0]]) + CodeFields(v, list[1..]))
  }

  // ----- Reading back -----

  /** A code is known before the text goes on. */
  lemma Regroup_(a: string, b: string, x: string)
    ensures a + b + x == a + (b + x)
  {
  }

  lemma {:induction false} UnaryReads(m: nat, n: nat, x: string, y: string)
    requires Unary(m) + x == Unary(n) + y
    ensures m == n && x == y
  {
    var s, t := Unary(m) + x, Unary(n) + y;
    assert s[0] == t[0];
    if m == 0 {
      assert s[1..] == x && t[1..] == y;
    } else {
      assert s[1..] == Unary(m - 1) + x && t[1..] == Unary(n - 1) + y;
      UnaryReads(m - 1, n - 1, x, y);
    }
  }

  lemma IntReads(i: int, j: int, x: string, y: string)
    requires CodeInt(i) + x == CodeInt(j) + y
    ensures i == j && x == y
  {
    var a, b := if i < 0 then "-" else "+", if j < 0 then "-" else "+";
    var u, v := Unary(Size(i)) + x, Unary(Size(j)) + y;
    Regroup_(a, Unary(Size(i)), x);
    Regroup_(b, Unary(Size(j)), y);
    assert (a + u)[0] == a[0] && (b + v)[0] == b[0] && (a + u)[1..] == u && (b + v)[1..] == v;
    UnaryReads(Size(i), Size(j), x, y);
  }

  lemma TextReads(a: string, b: string, x: string, y: string)
    requires CodeText(a) + x == CodeText(b) + y
    ensures a == b && x == y
  {
    Regroup_(Unary(|a|), a, x);
    Regroup_(Unary(|b|), b, y);
    UnaryReads(|a|, |b|, a + x, b + y);
    assert (a + x)[..|a|] == a && (b + y)[..|b|] == b && (a + x)[|a|..] == x && (b + y)[|b|..] == y;
  }

  lemma FloatReads(q: Finite, r: Finite, x: string, y: string)
    requires CodeFloat(q) + x == CodeFloat(r) + y
    ensures q == r && x == y
  {
    var n: int, k: nat :| q == Ratio(n, k) && CodeFloat(q) == CodeInt(n) + Unary(k);
    var m: int, l: nat :| r == Ratio(m, l) && CodeFloat(r) == CodeInt(m) + Unary(l);
    Regroup_(CodeInt(n), Unary(k), x);
    Regroup_(CodeInt(m), Unary(l), y);
    IntReads(n, m, Unary(k) + x, Unary(l) + y);
    UnaryReads(k, l, x, y);
  }

  lemma HeadsMeet(a: string, b: string, x: string, y: string)
    requires a != "" && b != "" && a + x == b + y
    ensures a[0] == b[0] && a[1..] + x == b[1..] + y
  {
    assert (a + x)[0] == a[0] && (b + y)[0] == b[0];
    assert (a + x)[1..] == a[1..] + x && (b + y)[1..] == b[1..] + y;
  }

  lemma CodeStarts(v: Json)
    ensures Code(v) != ""
  {
  }

  /** No code is the beginning of another one. */
  lemma {:induction false} CodeReads(v: Json, w: Json, x: string, y: string)
    requires Code(v) + x == Code(w) + y
    ensures v == w && x == y
    decreases v, 1
  {
    CodeStarts(v);
    CodeStarts(w);
    HeadsMeet(Code(v), Code(w), x, y);
    assert Code(v)[0] == Code(w)[0];
    match v
    case Numeric(Int(i)) => IntReads(i, w.n.i, x, y);
    case Numeric(Float(r)) => FloatReads(r, w.n.r, x, y);
    case Str(s) => TextReads(s, w.s, x, y);
    case Arr(items) =>
      Regroup_(Unary(|items|), CodeItems(items), x);
      Regroup_(Unary(|w.items|), CodeItems(w.items), y);
      UnaryReads(|items|, |w.items|, CodeItems(items) + x, CodeItems(w.items) + y);
      ItemsRead(items, w.items, x, y);
    case Obj(fields) =>
      var l, k := ListOf(fields.Keys), ListOf(w.fields.Keys);
      Regroup_(Unary(|l|), CodeFields(v, l), x);
      Regroup_(Unary(|k|), CodeFields(w, k), y);
      UnaryReads(|l|, |k|, CodeFields(v, l) + x, CodeFields(w, k) + y);
      FieldsRead(v, w, l, k, x, y);
      SameFields(fields, w.fields, l);
    case _ => assert Code(v)[1..] == "" && Code(w)[1..] == "" && "" + x == x && "" + y == y;
  }

  lemma SameFields(f: map<string, Json>, g: map<string, Json>, list: seq<string>)
    requires (forall x :: x in list <==> x in f) && (forall x :: x in list <==> x in g)
    requires forall x | x in list :: x in f && x in g && f[x] == g[x]
    ensures f == g
  {
    assert f.Keys == g.Keys;
  }

  lemma {:induction false} ItemsRead(a: seq<Json>, b: seq<Json>, x: string, y: string)
    requires |a| == |b| && CodeItems(a) + x == CodeItems(b) + y
    ensures a == b && x == y
    decreases a, 0
  {
    if a != [] {
      Regroup_(Code(a[0]), CodeItems(a[1..]), x);
      Regroup_(Code(b[0]), CodeItems(b[1..]), y);
      CodeReads(a[0], b[0], CodeItems(a[1..]) + x, CodeItems(b[1..]) + y);
      ItemsRead(a[1..], b[1..], x, y);
      assert a == [a[0]] + a[1..] && b == [b[0]] + b[1..];
    } else {
      assert CodeItems(a) + x == x && CodeItems(b) + y == y;
    }
  }

  lemma {:induction false} FieldsRead(v: Json, w: Json, l: seq<string>, k: seq<string>, x: string, y: string)
    requires v.Obj? && w.Obj? && |l| == |k|
    requires (forall n | n in l :: n in v.fields) && (forall n | n in k :: n in w.fields)
    requires CodeFields(v, l) + x == CodeFields(w, k) + y
    ensures l == k && x == y && forall n | n in l :: v.fields[n] == w.fields[n]
    decreases v, 0, |l|
  {
    if l != [] {
      assert l[0] in l && k[0] in k;
      var p, q := v.fields[l[0]], w.fields[k[0]];
      var rest, more := CodeFields(v, l[1..]), CodeFields(w, k[1..]);
      Regroup_(CodeText(l[0]), Code(p) + rest, x);
      Regroup_(CodeText(k[0]), Code(q) + more, y);
      TextReads(l[0], k[0], Code(p) + rest + x, Code(q) + more + y);
      Regroup_(Code(p), rest, x);
      Regroup_(Code(q), more, y);
      CodeReads(p, q, rest + x, more + y);
      FieldsRead(v, w, l[1..], k[1..], x, y);
      assert l == [l[0]] + l[1..] && k == [k[0]] + k[1..];
    } else {
      assert CodeFields(v, l) + x == x && CodeFields(w, k) + y == y;
    }
  }

  /** Two documents with the same code are the same: an injective serialisation exists. */
  lemma CodeIsInjective()
    ensures Injective(Code)
  {
    forall v, w | Code(v) == Code(w) ensures v == w {
      assert Code(v) + "" == Code(w) + "";
      CodeReads(v, w, "", "");
    }
  }
}
