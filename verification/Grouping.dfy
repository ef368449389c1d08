/** Grouping and deduplication by an encoded key (rust/crates/zf-context/src/context.rs, `keyed`). */
module Grouping {
  import opened Base

  datatype Bucket<K, T> = Bucket(code: K, items: seq<T>)

  /** Position of the bucket for `code`. */
  function Position<K(==), T>(groups: seq<Bucket<K, T>>, code: K): (r: Option<nat>)
    ensures r.Some? ==> r.value < |groups| && groups[r.value].code == code
    ensures r.None? ==> forall i | 0 <= i < |groups| :: groups[i].code != code
  {
    if groups == [] then None
    else if groups[0].code == code then Some(0)
    else
      var r := Position(groups[1..], code);
      if r.None? then None else Some(r.value + 1)
  }

  /** Adds one element to its bucket, opening a bucket at the end for a new code. */
  function AddTo<K(==), T>(groups: seq<Bucket<K, T>>, code: K, x: T): seq<Bucket<K, T>> {
    var p := Position(groups, code);
    if p.None? then groups + [Bucket(code, [x])]
    else groups[p.value := Bucket(code, groups[p.value].items + [x])]
  }

  /** Buckets in order of the first appearance of their code. */
  function Buckets<K(==), T>(pairs: seq<(K, T)>): seq<Bucket<K, T>> {
    if pairs == [] then []
    else
      var n := |pairs| - 1;
      AddTo(Buckets(pairs[..n]), pairs[n].0, pairs[n].1)
  }

  /** The first element of every code. */
  function Dedup<K(==), T>(pairs: seq<(K, T)>): seq<T> {
    if pairs == [] then []
    else
      var n := |pairs| - 1;
      Dedup(pairs[..n]) + (if Seen(pairs[..n], pairs[n].0) then [] else [pairs[n].1])
  }

  predicate Seen<K(==), T>(pairs: seq<(K, T)>, code: K) {
    exists i | 0 <= i < |pairs| :: pairs[i].0 == code
  }

  /** The elements with a given code, in order. */
  function Select<K(==), T>(pairs: seq<(K, T)>, code: K): seq<T> {
    if pairs == [] then []
    else
      var n := |pairs| - 1;
      Select(pairs[..n], code) + (if pairs[n].0 == code then [pairs[n].1] else [])
  }

  // ----- What grouping means -----

  predicate DistinctCodes<K(==), T>(groups: seq<Bucket<K, T>>) {
    forall i, j | 0 <= i < j < |groups| :: groups[i].code != groups[j].code
  }

  predicate Exact<K(==), T(==)>(groups: seq<Bucket<K, T>>, pairs: seq<(K, T)>) {
    forall i | 0 <= i < |groups| :: groups[i].items != [] && groups[i].items == Select(pairs, groups[i].code)
  }

  predicate Covering<K(==), T>(groups: seq<Bucket<K, T>>, pairs: seq<(K, T)>) {
    forall i | 0 <= i < |pairs| :: Position(groups, pairs[i].0).Some?
  }

  lemma AddDistinct<K, T>(groups: seq<Bucket<K, T>>, code: K, x: T)
    requires DistinctCodes(groups)
    ensures DistinctCodes(AddTo(groups, code, x))
  {
  }

  lemma AddCovers<K, T>(groups: seq<Bucket<K, T>>, pairs: seq<(K, T)>, code: K, x: T)
    requires Covering(groups, pairs)
    ensures Covering(AddTo(groups, code, x), pairs + [(code, x)])
  {
    var after, p := AddTo(groups, code, x), Position(groups, code);
    var at := if p.None? then |groups| else p.value;
    assert after[at].code == code;
    forall i | 0 <= i < |pairs| ensures Position(after, pairs[i].0).Some? {
      var q := Position(groups, pairs[i].0).value;
      assert after[q].code == pairs[i].0;
    }
  }

  lemma SelectMore<K, T>(pairs: seq<(K, T)>, code: K, x: T, other: K)
    ensures Select(pairs + [(code, x)], other) == Select(pairs, other) + (if code == other then [x] else [])
  {
    var more := pairs + [(code, x)];
    assert more[..|more| - 1] == pairs;
  }

  lemma AddExact<K, T>(groups: seq<Bucket<K, T>>, pairs: seq<(K, T)>, code: K, x: T)
    requires DistinctCodes(groups) && Exact(groups, pairs) && Covering(groups, pairs)
    ensures Exact(AddTo(groups, code, x), pairs + [(code, x)])
  {
    var after, p := AddTo(groups, code, x), Position(groups, code);
    if p.None? { SelectAbsent(pairs, code); }
    forall i | 0 <= i < |after|
      ensures after[i].items != [] && after[i].items == Select(pairs + [(code, x)], after[i].code)
    {
      SelectMore(pairs, code, x, after[i].code);
    }
  }

  /** Buckets partition the elements: one nonempty bucket per code, holding exactly its elements in order. */
  lemma {:induction false} GroupPartitions<K, T>(pairs: seq<(K, T)>)
    ensures DistinctCodes(Buckets(pairs)) && Exact(Buckets(pairs), pairs) && Covering(Buckets(pairs), pairs)
  {
    if pairs != [] {
      var n := |pairs| - 1;
      var before := Buckets(pairs[..n]);
      GroupPartitions(pairs[..n]);
      AddDistinct(before, pairs[n].0, pairs[n].1);
      AddCovers(before, pairs[..n], pairs[n].0, pairs[n].1);
      AddExact(before, pairs[..n], pairs[n].0, pairs[n].1);
      assert pairs == pairs[..n] + [(pairs[n].0, pairs[n].1)];
    }
  }

  lemma {:induction false} SelectAbsent<K, T>(pairs: seq<(K, T)>, code: K)
    requires !Seen(pairs, code)
    ensures Select(pairs, code) == []
  {
    if pairs != [] {
      var n := |pairs| - 1;
      assert forall i | 0 <= i < n :: pairs[..n][i] == pairs[i];
      SelectAbsent(pairs[..n], code);
    }
  }

  /** Deduplication is exactly the first element of each group, in group order. */
  lemma {:induction false} DedupIsFirstOfGroups<K, T>(pairs: seq<(K, T)>)
    ensures |Dedup(pairs)| == |Buckets(pairs)|
    ensures forall i | 0 <= i < |Buckets(pairs)| ::
      Buckets(pairs)[i].items != [] && Dedup(pairs)[i] == Buckets(pairs)[i].items[0]
  {
    if pairs != [] {
      var n := |pairs| - 1;
      DedupIsFirstOfGroups(pairs[..n]);
      GroupPartitions(pairs[..n]);
      SeenHasGroup(pairs[..n], pairs[n].0);
    }
  }

  lemma {:induction false} SeenHasGroup<K, T>(pairs: seq<(K, T)>, code: K)
    ensures Seen(pairs, code) <==> Position(Buckets(pairs), code).Some?
  {
    GroupPartitions(pairs);
    if Position(Buckets(pairs), code).Some? && !Seen(pairs, code) {
      SelectAbsent(pairs, code);
      assert false;
    }
  }

  // ----- Grouping commutes with an injective change of codes and a translation of elements -----

  function Recode<K, L, T, U>(pairs: seq<(K, T)>, f: K -> L, h: T -> U): seq<(L, U)> {
    seq(|pairs|, i requires 0 <= i < |pairs| => (f(pairs[i].0), h(pairs[i].1)))
  }

  function MapAll<T, U>(xs: seq<T>, h: T -> U): seq<U> {
    seq(|xs|, i requires 0 <= i < |xs| => h(xs[i]))
  }

  function RecodeGroups<K, L, T, U>(groups: seq<Bucket<K, T>>, f: K -> L, h: T -> U): seq<Bucket<L, U>> {
    seq(|groups|, i requires 0 <= i < |groups| => Bucket(f(groups[i].code), MapAll(groups[i].items, h)))
  }

  ghost predicate Injective<K(!new), L(!new)>(f: K -> L) {
    forall a, b :: f(a) == f(b) ==> a == b
  }

  lemma {:induction false} PositionRecodes<K(!new), L(!new), T, U>(groups: seq<Bucket<K, T>>, code: K, f: K -> L, h: T -> U)
    requires Injective(f)
    ensures Position(RecodeGroups(groups, f, h), f(code)) == Position(groups, code)
  {
    if groups != [] {
      PositionRecodes(groups[1..], code, f, h);
      assert RecodeGroups(groups, f, h)[1..] == RecodeGroups(groups[1..], f, h);
    }
  }

  lemma {:induction false} GroupRecodes<K(!new), L(!new), T, U>(pairs: seq<(K, T)>, f: K -> L, h: T -> U)
    requires Injective(f)
    ensures Buckets(Recode(pairs, f, h)) == RecodeGroups(Buckets(pairs), f, h)
  {
    if pairs != [] {
      var n := |pairs| - 1;
      var before, code, x := Buckets(pairs[..n]), pairs[n].0, pairs[n].1;
      GroupRecodes(pairs[..n], f, h);
      assert Recode(pairs, f, h)[..n] == Recode(pairs[..n], f, h);
      PositionRecodes(before, code, f, h);
      var p := Position(before, code);
      if p.None? {
        assert MapAll([x], h) == [h(x)];
        assert RecodeGroups(before + [Bucket(code, [x])], f, h)
            == RecodeGroups(before, f, h) + [Bucket(f(code), [h(x)])];
      } else {
        var items := before[p.value].items;
        assert MapAll(items + [x], h) == MapAll(items, h) + [h(x)];
        assert RecodeGroups(before[p.value := Bucket(code, items + [x])], f, h)
            == RecodeGroups(before, f, h)[p.value := Bucket(f(code), MapAll(items, h) + [h(x)])];
      }
    }
  }

  lemma {:induction false} DedupRecodes<K(!new), L(!new), T, U>(pairs: seq<(K, T)>, f: K -> L, h: T -> U)
    requires Injective(f)
    ensures Dedup(Recode(pairs, f, h)) == MapAll(Dedup(pairs), h)
  {
    if pairs != [] {
      var n := |pairs| - 1;
      DedupRecodes(pairs[..n], f, h);
      var all := Recode(pairs, f, h);
      assert all[..n] == Recode(pairs[..n], f, h);
      assert Seen(all[..n], all[n].0) <==> Seen(pairs[..n], pairs[n].0) by {
        if Seen(pairs[..n], pairs[n].0) {
          var i :| 0 <= i < n && pairs[..n][i].0 == pairs[n].0;
          assert all[..n][i].0 == all[n].0;
        }
        if Seen(all[..n], all[n].0) {
          var i :| 0 <= i < n && all[..n][i].0 == all[n].0;
          assert pairs[..n][i].0 == pairs[n].0;
        }
      }
      assert MapAll([pairs[n].1], h) == [h(pairs[n].1)];
    }
  }
}
