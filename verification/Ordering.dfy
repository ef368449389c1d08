/** Comparison of context values and the stable sort built on it
    (rust/crates/zf-context/src/context.rs, `compare_values` and the `Sort` operation). */
module Ordering {
  import opened Base

  datatype Order = Less | Equal | Greater {
    function Reverse(): Order {
      match this
      case Less => Greater
      case Equal => Equal
      case Greater => Less
    }
  }

  const BOUND := 0x8000_0000_0000_0000_0000_0000_0000_0000

  function CompareInt(a: int, b: int): Order {
    if a < b then Less else if a > b then Greater else Equal
  }

  function CompareReal(a: real, b: real): Order {
    if a < b then Less else if a > b then Greater else Equal
  }

  /** Truncation toward zero, as in a cast from a float to an integer. */
  function Trunc(f: real): int {
    if f >= 0.0 then f.Floor else -(-f).Floor
  }

  /** The mixed comparison of the source: saturation, then the integer parts, then the sign of the fraction. */
  function IntFloat(i: int, f: real): Order {
    if f >= BOUND as real then Less
    else if f <= -(BOUND as real) then Greater
    else
      var order := CompareInt(i, Trunc(f));
      var fract := f - Trunc(f) as real;
      if order != Equal then order
      else if fract > 0.0 then Less
      else if fract < 0.0 then Greater
      else Equal
  }

  function CompareNum(a: Num, b: Num): Order {
    match (a, b)
    case (Int(i), Int(j)) => CompareInt(i, j)
    case (Int(i), Float(f)) => IntFloat(i, f)
    case (Float(f), Int(j)) => IntFloat(j, f).Reverse()
    case (Float(f), Float(h)) => CompareReal(f, h)
  }

  function Value(n: Num): real {
    match n
    case Int(i) => i as real
    case Float(r) => r
  }

  /** Texts compare by their Unicode scalar values. */
  function CompareText(a: string, b: string): Order {
    if a == [] && b == [] then Equal
    else if a == [] then Less
    else if b == [] then Greater
    else if a[0] < b[0] then Less
    else if a[0] > b[0] then Greater
    else CompareText(a[1..], b[1..])
  }

  /** Two texts or two numbers; anything else is not comparable. */
  function CompareJson(a: Json, b: Json): Option<Order> {
    if a.Str? && b.Str? then Some(CompareText(a.s, b.s))
    else if a.Numeric? && b.Numeric? then Some(CompareNum(a.n, b.n))
    else None
  }

  /** The order used by Sort; keys that do not compare count as equal. */
  function Arrange(a: Json, b: Json, descending: bool): Order {
    var order := CompareJson(a, b);
    if order.None? then Equal else if descending then order.value.Reverse() else order.value
  }

  function Insert<T>(x: (Json, T), sorted: seq<(Json, T)>, descending: bool): seq<(Json, T)> {
    if sorted == [] then [x]
    else if Arrange(x.0, sorted[0].0, descending) != Greater then [x] + sorted
    else [sorted[0]] + Insert(x, sorted[1..], descending)
  }

  function Sort<T>(pairs: seq<(Json, T)>, descending: bool): (r: seq<(Json, T)>)
    ensures |r| == |pairs|
  {
    if pairs == [] then [] else
      InsertLength(pairs[0], Sort(pairs[1..], descending), descending);
      Insert(pairs[0], Sort(pairs[1..], descending), descending)
  }

  lemma {:induction false} InsertLength<T>(x: (Json, T), sorted: seq<(Json, T)>, descending: bool)
    ensures |Insert(x, sorted, descending)| == |sorted| + 1
  {
    if sorted != [] { InsertLength(x, sorted[1..], descending); }
  }

  // ----- Numbers compare exactly -----

  lemma TruncBounds(f: real)
    ensures f >= 0.0 ==> Trunc(f) as real <= f < Trunc(f) as real + 1.0
    ensures f <= 0.0 ==> Trunc(f) as real - 1.0 < f <= Trunc(f) as real
  {
  }

  /** No integer is rounded: the mixed comparison agrees with the comparison of exact values. */
  lemma IntFloatExact(i: JsonInt, f: real)
    ensures IntFloat(i, f) == CompareReal(i as real, f)
  {
    TruncBounds(f);
    var t := Trunc(f);
    if i < t {
      assert i as real + 1.0 <= t as real;
    } else if i > t {
      assert i as real >= t as real + 1.0;
    }
  }

  /** Number comparison is the order of the exact values, across integers and finite floats. */
  lemma CompareNumExact(a: Num, b: Num)
    ensures CompareNum(a, b) == CompareReal(Value(a), Value(b))
  {
    match (a, b)
    case (Int(i), Float(f)) => IntFloatExact(i, f);
    case (Float(f), Int(j)) => IntFloatExact(j, f);
    case _ =>
  }

  // ----- A total preorder on comparable keys -----

  lemma {:induction false} TextReverse(a: string, b: string)
    ensures CompareText(b, a) == CompareText(a, b).Reverse()
  {
    if a != [] && b != [] && a[0] == b[0] { TextReverse(a[1..], b[1..]); }
  }

  lemma {:induction false} TextTransitive(a: string, b: string, c: string)
    requires CompareText(a, b) != Greater && CompareText(b, c) != Greater
    ensures CompareText(a, c) != Greater
    ensures CompareText(a, c) == Equal ==> CompareText(a, b) == Equal && CompareText(b, c) == Equal
  {
    if a != [] && b != [] && c != [] && a[0] == b[0] == c[0] { TextTransitive(a[1..], b[1..], c[1..]); }
  }

  predicate Alike(a: Json, b: Json) { (a.Str? && b.Str?) || (a.Numeric? && b.Numeric?) }

  lemma ArrangeReverse(a: Json, b: Json, descending: bool)
    requires Alike(a, b)
    ensures Arrange(b, a, descending) == Arrange(a, b, descending).Reverse()
  {
    if a.Str? {
      TextReverse(a.s, b.s);
    } else {
      CompareNumExact(a.n, b.n);
      CompareNumExact(b.n, a.n);
    }
  }

  lemma ArrangeTransitive(a: Json, b: Json, c: Json, descending: bool)
    requires Alike(a, b) && Alike(b, c)
    requires Arrange(a, b, descending) != Greater && Arrange(b, c, descending) != Greater
    ensures Arrange(a, c, descending) != Greater
    ensures Arrange(a, c, descending) == Equal ==> Arrange(a, b, descending) == Equal && Arrange(b, c, descending) == Equal
  {
    if a.Str? {
      TextReverse(a.s, b.s);
      TextReverse(b.s, c.s);
      TextReverse(a.s, c.s);
      if descending { TextTransitive(c.s, b.s, a.s); } else { TextTransitive(a.s, b.s, c.s); }
    } else {
      CompareNumExact(a.n, b.n);
      CompareNumExact(b.n, c.n);
      CompareNumExact(a.n, c.n);
    }
  }

  // ----- Sort is a stable ordered permutation -----

  /** All keys are texts, or all are numbers. */
  predicate OfKind<T>(pairs: seq<(Json, T)>, text: bool) {
    forall i | 0 <= i < |pairs| :: if text then pairs[i].0.Str? else pairs[i].0.Numeric?
  }

  predicate Below<T>(k: Json, pairs: seq<(Json, T)>, descending: bool) {
    forall i | 0 <= i < |pairs| :: Arrange(k, pairs[i].0, descending) != Greater
  }

  predicate InOrder<T>(pairs: seq<(Json, T)>, descending: bool) {
    forall i, j | 0 <= i < j < |pairs| :: Arrange(pairs[i].0, pairs[j].0, descending) != Greater
  }

  /** The same text, or numbers of the same value. */
  predicate SameKey(a: Json, b: Json) {
    (a.Str? && b.Str? && a.s == b.s) || (a.Numeric? && b.Numeric? && Value(a.n) == Value(b.n))
  }

  /** The elements tied with key `k`, in sequence order. */
  function Ties<T>(pairs: seq<(Json, T)>, k: Json): seq<(Json, T)> {
    if pairs == [] then []
    else (if SameKey(pairs[0].0, k) then [pairs[0]] else []) + Ties(pairs[1..], k)
  }

  lemma OrderCons<T>(x: (Json, T), rest: seq<(Json, T)>, descending: bool)
    ensures InOrder([x] + rest, descending) <==> Below(x.0, rest, descending) && InOrder(rest, descending)
  {
    var all := [x] + rest;
    assert all[0] == x;
    if InOrder(all, descending) {
      forall i | 0 <= i < |rest| ensures Arrange(x.0, rest[i].0, descending) != Greater { assert all[i + 1] == rest[i]; }
      forall i, j | 0 <= i < j < |rest| ensures Arrange(rest[i].0, rest[j].0, descending) != Greater {
        assert all[i + 1] == rest[i] && all[j + 1] == rest[j];
      }
    }
    if Below(x.0, rest, descending) && InOrder(rest, descending) {
      forall i, j | 0 <= i < j < |all| ensures Arrange(all[i].0, all[j].0, descending) != Greater {
        assert all[j] == rest[j - 1];
        if i > 0 { assert all[i] == rest[i - 1]; }
      }
    }
  }

  lemma {:induction false} InsertKeeps<T>(x: (Json, T), sorted: seq<(Json, T)>, descending: bool)
    ensures multiset(Insert(x, sorted, descending)) == multiset([x] + sorted)
  {
    if sorted != [] && Arrange(x.0, sorted[0].0, descending) == Greater {
      InsertKeeps(x, sorted[1..], descending);
      assert sorted == [sorted[0]] + sorted[1..];
    }
  }

  lemma {:induction false} InsertBelow<T>(k: Json, x: (Json, T), sorted: seq<(Json, T)>, descending: bool)
    requires Below(k, sorted, descending) && Arrange(k, x.0, descending) != Greater
    ensures Below(k, Insert(x, sorted, descending), descending)
  {
    if sorted != [] && Arrange(x.0, sorted[0].0, descending) == Greater {
      InsertBelow(k, x, sorted[1..], descending);
    }
  }

  lemma {:induction false} InsertOrdered<T>(x: (Json, T), sorted: seq<(Json, T)>, descending: bool, text: bool)
    requires OfKind([x], text) && OfKind(sorted, text) && InOrder(sorted, descending)
    ensures InOrder(Insert(x, sorted, descending), descending)
  {
    assert [x][0] == x;
    if sorted != [] {
      var head, tail := sorted[0], sorted[1..];
      assert sorted == [head] + tail;
      OrderCons(head, tail, descending);
      if Arrange(x.0, head.0, descending) != Greater {
        forall j | 0 <= j < |sorted| ensures Arrange(x.0, sorted[j].0, descending) != Greater {
          if j > 0 {
            assert sorted[j] == tail[j - 1];
            ArrangeTransitive(x.0, head.0, sorted[j].0, descending);
          }
        }
        OrderCons(x, sorted, descending);
      } else {
        ArrangeReverse(x.0, head.0, descending);
        InsertOrdered(x, tail, descending, text);
        InsertBelow(head.0, x, tail, descending);
        OrderCons(head, Insert(x, tail, descending), descending);
      }
    }
  }

  lemma TiesCons<T>(x: (Json, T), rest: seq<(Json, T)>, k: Json)
    ensures Ties([x] + rest, k) == (if SameKey(x.0, k) then [x] else []) + Ties(rest, k)
  {
    assert ([x] + rest)[1..] == rest;
  }

  /** An element that is placed later is not tied with the one it passes. */
  lemma StableStep<T>(x: (Json, T), head: (Json, T), tail: seq<(Json, T)>, inserted: seq<(Json, T)>, descending: bool, k: Json)
    requires Arrange(x.0, head.0, descending) == Greater && Ties(inserted, k) == Ties([x] + tail, k)
    ensures Ties([head] + inserted, k) == Ties([x] + ([head] + tail), k)
  {
    TiesCons(x, tail, k);
    TiesCons(head, tail, k);
    TiesCons(head, inserted, k);
    TiesCons(x, [head] + tail, k);
    SameKeyMeans(x.0, head.0);
  }

  lemma {:induction false} InsertStable<T>(x: (Json, T), sorted: seq<(Json, T)>, descending: bool, text: bool, k: Json)
    requires OfKind([x], text) && OfKind(sorted, text)
    ensures Ties(Insert(x, sorted, descending), k) == Ties([x] + sorted, k)
  {
    if sorted != [] && Arrange(x.0, sorted[0].0, descending) == Greater {
      var head, tail := sorted[0], sorted[1..];
      assert sorted == [head] + tail;
      InsertStable(x, tail, descending, text, k);
      StableStep(x, head, tail, Insert(x, tail, descending), descending, k);
    }
  }

  lemma SameKeyMeans(a: Json, b: Json)
    ensures SameKey(a, b) <==> CompareJson(a, b) == Some(Equal)
  {
    if a.Str? && b.Str? {
      TextExact(a.s, b.s);
    } else if a.Numeric? && b.Numeric? {
      CompareNumExact(a.n, b.n);
    }
  }

  lemma {:induction false} SortInOrder<T>(pairs: seq<(Json, T)>, descending: bool, text: bool)
    requires OfKind(pairs, text)
    ensures OfKind(Sort(pairs, descending), text) && InOrder(Sort(pairs, descending), descending)
    ensures multiset(Sort(pairs, descending)) == multiset(pairs)
    ensures forall k :: Ties(Sort(pairs, descending), k) == Ties(pairs, k)
  {
    if pairs != [] {
      var x, tail := pairs[0], pairs[1..];
      assert pairs == [x] + tail;
      SortInOrder(tail, descending, text);
      var sorted := Sort(tail, descending);
      InsertKeeps(x, sorted, descending);
      InsertOrdered(x, sorted, descending, text);
      forall k ensures Ties(Sort(pairs, descending), k) == Ties(pairs, k) {
        InsertStable(x, sorted, descending, text, k);
        TiesCons(x, sorted, k);
        TiesCons(x, tail, k);
      }
      KindKept(Sort(pairs, descending), pairs, text);
    }
  }

  lemma KindKept<T>(a: seq<(Json, T)>, b: seq<(Json, T)>, text: bool)
    requires OfKind(b, text) && multiset(a) == multiset(b)
    ensures OfKind(a, text)
  {
    forall i | 0 <= i < |a| ensures if text then a[i].0.Str? else a[i].0.Numeric? {
      assert a[i] in multiset(b);
      assert a[i] in b;
    }
  }

  // ----- What the order is -----

  /** `k` characters are common to both, and there `a` ends or has the smaller character. */
  predicate SplitsAt(a: string, b: string, k: nat) {
    k <= |a| && k <= |b| && a[..k] == b[..k] && (k == |a| || (k < |b| && a[k] < b[k]))
  }

  /** `a` does not come after `b` in the lexicographic order of Unicode scalar values. */
  predicate TextAtMost(a: string, b: string) {
    exists k | 0 <= k <= |a| :: SplitsAt(a, b, k)
  }

  predicate AtMost(a: Json, b: Json) {
    (a.Str? && b.Str? && TextAtMost(a.s, b.s)) || (a.Numeric? && b.Numeric? && Value(a.n) <= Value(b.n))
  }

  lemma SplitFirst(a: string, b: string, k: nat)
    requires SplitsAt(a, b, k) && a != []
    ensures b != [] && (k == 0 || a[0] == b[0])
  {
    if k > 0 { assert a[0] == a[..k][0]; }
  }

  lemma {:induction false} TextExact(a: string, b: string)
    ensures CompareText(a, b) != Greater <==> TextAtMost(a, b)
    ensures CompareText(a, b) == Equal <==> a == b
  {
    if a == [] {
      assert SplitsAt(a, b, 0);
    } else if b != [] && a[0] == b[0] {
      var x, y := a[1..], b[1..];
      TextExact(x, y);
      assert a == [a[0]] + x && b == [b[0]] + y;
      if TextAtMost(x, y) {
        var k :| 0 <= k <= |x| && SplitsAt(x, y, k);
        assert a[..k + 1] == [a[0]] + x[..k] && b[..k + 1] == [b[0]] + y[..k];
        assert SplitsAt(a, b, k + 1);
      }
      if TextAtMost(a, b) {
        var k :| 0 <= k <= |a| && SplitsAt(a, b, k);
        assert x[..k - 1] == a[..k][1..] && y[..k - 1] == b[..k][1..];
        assert SplitsAt(x, y, k - 1);
      }
    } else {
      if b != [] && a[0] < b[0] { assert SplitsAt(a, b, 0); }
      if TextAtMost(a, b) {
        var k :| 0 <= k <= |a| && SplitsAt(a, b, k);
        SplitFirst(a, b, k);
      }
    }
  }

  lemma ArrangeMeans(a: Json, b: Json, descending: bool)
    requires Alike(a, b)
    ensures Arrange(a, b, descending) != Greater <==> if descending then AtMost(b, a) else AtMost(a, b)
  {
    if a.Str? {
      TextExact(a.s, b.s);
      TextExact(b.s, a.s);
      TextReverse(a.s, b.s);
    } else {
      CompareNumExact(a.n, b.n);
    }
  }

  /** Sort brings numbers into the order of their values and texts into lexicographic order, ascending
      or descending, keeps exactly its elements, and keeps those with the same key in their order. */
  lemma SortIsStable<T>(pairs: seq<(Json, T)>, descending: bool, text: bool)
    requires OfKind(pairs, text)
    ensures var sorted := Sort(pairs, descending);
      && (forall i, j | 0 <= i < j < |sorted| ::
            if descending then AtMost(sorted[j].0, sorted[i].0) else AtMost(sorted[i].0, sorted[j].0))
      && multiset(sorted) == multiset(pairs)
      && forall k :: Ties(sorted, k) == Ties(pairs, k)
  {
    SortInOrder(pairs, descending, text);
    var sorted := Sort(pairs, descending);
    forall i, j | 0 <= i < j < |sorted|
      ensures if descending then AtMost(sorted[j].0, sorted[i].0) else AtMost(sorted[i].0, sorted[j].0)
    {
      ArrangeMeans(sorted[i].0, sorted[j].0, descending);
    }
  }

  // ----- Sorting commutes with translating the sorted elements -----

  function Translate<T, U>(pairs: seq<(Json, T)>, f: T -> U): seq<(Json, U)> {
    seq(|pairs|, i requires 0 <= i < |pairs| => (pairs[i].0, f(pairs[i].1)))
  }

  lemma {:induction false} InsertTranslates<T, U>(x: (Json, T), sorted: seq<(Json, T)>, descending: bool, f: T -> U)
    ensures Insert((x.0, f(x.1)), Translate(sorted, f), descending) == Translate(Insert(x, sorted, descending), f)
  {
    InsertLength(x, sorted, descending);
    if sorted != [] && Arrange(x.0, sorted[0].0, descending) == Greater {
      InsertTranslates(x, sorted[1..], descending, f);
      assert Translate(sorted, f)[1..] == Translate(sorted[1..], f);
    }
  }

  lemma {:induction false} SortTranslates<T, U>(pairs: seq<(Json, T)>, descending: bool, f: T -> U)
    ensures Sort(Translate(pairs, f), descending) == Translate(Sort(pairs, descending), f)
  {
    if pairs != [] {
      SortTranslates(pairs[1..], descending, f);
      assert Translate(pairs, f)[1..] == Translate(pairs[1..], f);
      InsertTranslates(pairs[0], Sort(pairs[1..], descending), descending, f);
    }
  }
}
