/** Laws of the context language's meaning: comparisons are those of the numbers, `contains` finds an
    occurrence, conjunctions and disjunctions are those of logic, filters and maps go element by
    element, and a template's text is its parts put together
    (rust/crates/zf-context/src/context.rs, `Evaluator::predicate`, `expression`, `template_parts`). */
module MeaningLaws {
  import opened Base
  import opened Syntax
  import opened Ordering
  import opened Evaluation
  import opened Meaning

  // ----- Conditions -----

  /** `text` stands in `whole` at position `i`. */
  predicate StandsAt(text: string, whole: string, i: nat) {
    i + |text| <= |whole| && whole[i..i + |text|] == text
  }

  lemma {:induction false} OccursSomewhere(text: string, whole: string)
    ensures Occurs(text, whole) <==> exists i: nat :: StandsAt(text, whole, i)
  {
    if |text| <= |whole| && whole[..|text|] == text {
      assert StandsAt(text, whole, 0);
    } else if whole != [] {
      OccursSomewhere(text, whole[1..]);
      if Occurs(text, whole[1..]) {
        var i: nat :| StandsAt(text, whole[1..], i);
        assert StandsAt(text, whole, i + 1);
      }
      assert |text| <= |whole| ==> whole[0..0 + |text|] == whole[..|text|];
      assert !StandsAt(text, whole, 0);
      if exists i: nat :: StandsAt(text, whole, i) {
        var i: nat :| StandsAt(text, whole, i);
        assert StandsAt(text, whole[1..], i - 1);
      }
    }
  }

  /** Comparing numbers compares their exact values, however each is represented; inequality is that of
      documents. */
  lemma ComparisonsAreExact(b: Basis, calls: nat, env: Values, left: Expr, op: Comparison, right: Expr, x: Json, y: Json)
    requires Value_(b, calls, env, left) == Ok(x) && Value_(b, calls, env, right) == Ok(y)
    ensures Truth(b, calls, env, Compare(left, Ne, right)) == Ok(x != y) && Truth(b, calls, env, Eq(left, right)) == Ok(x == y)
    ensures x.Numeric? && y.Numeric? ==>
      && Truth(b, calls, env, Compare(left, Lt, right)) == Ok(Value(x.n) < Value(y.n))
      && Truth(b, calls, env, Compare(left, Lte, right)) == Ok(Value(x.n) <= Value(y.n))
      && Truth(b, calls, env, Compare(left, Gt, right)) == Ok(Value(x.n) > Value(y.n))
      && Truth(b, calls, env, Compare(left, Gte, right)) == Ok(Value(x.n) >= Value(y.n))
  {
    if x.Numeric? && y.Numeric? { CompareNumExact(x.n, y.n); }
  }

  /** A text contains its substrings, a list its elements. */
  lemma ContainsIsMembership(b: Basis, calls: nat, env: Values, value: Expr, element: Expr, v: Json, x: Json)
    requires Value_(b, calls, env, value) == Ok(v) && Value_(b, calls, env, element) == Ok(x)
    ensures v.Str? && x.Str? ==> Truth(b, calls, env, Contains(value, element)) == Ok(exists i: nat :: StandsAt(x.s, v.s, i))
    ensures v.Arr? ==> Truth(b, calls, env, Contains(value, element)) == Ok(exists i :: 0 <= i < |v.items| && v.items[i] == x)
  {
    if v.Str? && x.Str? { OccursSomewhere(x.s, v.s); }
  }

  lemma {:induction false} DecidedFrom(b: Basis, calls: nat, env: Values, items: seq<Pred>, i: nat, all: bool)
    requires i <= |items|
    ensures Decided(b, calls, env, items, i, all) == Ok(all)
      <==> forall j | i <= j < |items| :: Truth(b, calls, env, items[j]) == Ok(all)
    ensures Decided(b, calls, env, items, i, all) == Ok(!all)
      <==> exists j :: i <= j < |items| && Decides_(b, calls, env, items, i, j, all)
    decreases |items| - i
  {
    if i < |items| {
      var t := Truth(b, calls, env, items[i]);
      if t == Ok(all) {
        DecidedFrom(b, calls, env, items, i + 1, all);
        forall j | i + 1 <= j < |items|
          ensures Decides_(b, calls, env, items, i + 1, j, all) <==> Decides_(b, calls, env, items, i, j, all)
        {
        }
        assert !Decides_(b, calls, env, items, i, i, all);
        assert forall j | i <= j < |items| && Decides_(b, calls, env, items, i, j, all) :: j > i;
        var m := i + 1;
        if exists j :: m <= j < |items| && Decides_(b, calls, env, items, m, j, all) {
          var j :| m <= j < |items| && Decides_(b, calls, env, items, m, j, all);
          assert Decides_(b, calls, env, items, i, j, all);
        }
      } else if t == Ok(!all) {
        assert Decides_(b, calls, env, items, i, i, all);
      } else {
        assert forall j | i <= j < |items| :: !Decides_(b, calls, env, items, i, j, all);
      }
    }
  }

  /** The condition at `j` is the first from `i` on to differ from `all`. */
  ghost predicate Decides_(b: Basis, calls: nat, env: Values, items: seq<Pred>, i: nat, j: nat, all: bool)
    requires i <= j < |items|
  {
    Truth(b, calls, env, items[j]) == Ok(!all) && forall k | i <= k < j :: Truth(b, calls, env, items[k]) == Ok(all)
  }

  /** `all` holds when every condition does, and fails at the first that fails; `any` holds at the
      first that holds, and fails when every condition does. Later conditions do not matter. */
  lemma JunctionsDecide(b: Basis, calls: nat, env: Values, items: seq<Pred>)
    ensures Truth(b, calls, env, And(items)) == Ok(true) <==> forall j | 0 <= j < |items| :: Truth(b, calls, env, items[j]) == Ok(true)
    ensures Truth(b, calls, env, And(items)) == Ok(false) <==> exists j :: 0 <= j < |items| && Decides_(b, calls, env, items, 0, j, true)
    ensures Truth(b, calls, env, Or(items)) == Ok(false) <==> forall j | 0 <= j < |items| :: Truth(b, calls, env, items[j]) == Ok(false)
    ensures Truth(b, calls, env, Or(items)) == Ok(true) <==> exists j :: 0 <= j < |items| && Decides_(b, calls, env, items, 0, j, false)
  {
    DecidedFrom(b, calls, env, items, 0, true);
    DecidedFrom(b, calls, env, items, 0, false);
  }

  // ----- Element by element -----

  lemma {:induction false} PairedFrom(b: Basis, calls: nat, env: Values, items: seq<Json>, i: nat, item: string, key: Expr, done: seq<(Json, Json)>)
    requires i == |done| <= |items|
    ensures var r := Paired(b, calls, env, items, i, item, key, done);
      && (r.Ok? ==>
           && |r.value| == |items| && done <= r.value
           && forall j | i <= j < |items| :: r.value[j].1 == items[j] && Value_(b, calls, env[item := items[j]], key) == Ok(r.value[j].0))
      && ((forall j | i <= j < |items| :: Value_(b, calls, env[item := items[j]], key).Ok?) ==> r.Ok?)
    decreases |items| - i
  {
    if i < |items| {
      var k := Value_(b, calls, env[item := items[i]], key);
      if k.Ok? {
        var next := done + [(k.value, items[i])];
        PairedFrom(b, calls, env, items, i + 1, item, key, next);
        var r := Paired(b, calls, env, items, i + 1, item, key, next);
        if r.Ok? {
          assert r.value[i] == next[i];
          assert done <= r.value;
        }
      }
    }
  }

  /** `map` gives the value of the body for each element, in order. */
  lemma MapIsPointwise(b: Basis, calls: nat, env: Values, value: Expr, item: string, body: Expr, vs: seq<Json>, rs: seq<Json>)
    requires Value_(b, calls, env, value) == Ok(Arr(vs))
    ensures Value_(b, calls, env, Keyed(MapOp, value, item, body)) == Ok(Arr(rs))
      <==> |rs| == |vs| && forall j | 0 <= j < |vs| :: Value_(b, calls, env[item := vs[j]], body) == Ok(rs[j])
  {
    PairedFrom(b, calls, env, vs, 0, item, body, []);
    var r := Paired(b, calls, env, vs, 0, item, body, []);
    if r.Ok? {
      var keys := seq(|r.value|, i requires 0 <= i < |r.value| => r.value[i].0);
      assert Value_(b, calls, env, Keyed(MapOp, value, item, body)) == Ok(Arr(keys));
      if |rs| == |vs| && forall j | 0 <= j < |vs| :: Value_(b, calls, env[item := vs[j]], body) == Ok(rs[j]) {
        assert keys == rs;
      }
    }
  }

  /** Of the first `n` elements exactly those for which `keep` says so, in order. */
  function Chosen(items: seq<Json>, keep: seq<bool>, n: nat): (r: seq<Json>)
    requires n <= |keep| == |items|
  {
    if n == 0 then [] else Chosen(items, keep, n - 1) + if keep[n - 1] then [items[n - 1]] else []
  }

  lemma {:induction false} SelectedFrom(b: Basis, calls: nat, env: Values, items: seq<Json>, i: nat, item: string, condition: Pred, keep: seq<bool>)
    requires |keep| == |items| && i <= |items|
    requires forall j | 0 <= j < |items| :: Truth(b, calls, env[item := items[j]], condition) == Ok(keep[j])
    ensures Selected(b, calls, env, items, i, item, condition, Chosen(items, keep, i)) == Ok(Chosen(items, keep, |items|))
    decreases |items| - i
  {
    if i < |items| {
      assert Chosen(items, keep, i) + [] == Chosen(items, keep, i);
      SelectedFrom(b, calls, env, items, i + 1, item, condition, keep);
    }
  }

  /** The positions below `n` at which `x` is kept. */
  function Places(items: seq<Json>, keep: seq<bool>, x: Json, n: nat): set<int>
    requires n <= |keep| == |items|
  {
    set j | 0 <= j < n && keep[j] && items[j] == x
  }

  lemma {:induction false} ChosenCounts(items: seq<Json>, keep: seq<bool>, x: Json, n: nat)
    requires n <= |keep| == |items|
    ensures multiset(Chosen(items, keep, n))[x] == |Places(items, keep, x, n)|
  {
    if n > 0 {
      ChosenCounts(items, keep, x, n - 1);
      PlacesGrow(items, keep, x, n);
    }
  }

  lemma PlacesGrow(items: seq<Json>, keep: seq<bool>, x: Json, n: nat)
    requires 0 < n <= |keep| == |items|
    ensures |Places(items, keep, x, n)| == |Places(items, keep, x, n - 1)| + if keep[n - 1] && items[n - 1] == x then 1 else 0
  {
    var before := Places(items, keep, x, n - 1);
    assert Places(items, keep, x, n) == before + if keep[n - 1] && items[n - 1] == x then {n - 1} else {};
  }

  lemma FilterSelects(b: Basis, calls: nat, env: Values, value: Expr, item: string, condition: Pred, vs: seq<Json>)
    requires Value_(b, calls, env, value) == Ok(Arr(vs))
    ensures var kept := Selected(b, calls, env, vs, 0, item, condition, []);
      Value_(b, calls, env, Filter(value, item, condition)) == if kept.Ok? then Ok(Arr(kept.value)) else Fail(kept)
  {
  }

  /** `filter` keeps exactly the elements that meet the condition, in order and as often as they do. */
  lemma FilterKeepsChosen(b: Basis, calls: nat, env: Values, value: Expr, item: string, condition: Pred, vs: seq<Json>, keep: seq<bool>)
    requires Value_(b, calls, env, value) == Ok(Arr(vs)) && |keep| == |vs|
    requires forall j | 0 <= j < |vs| :: Truth(b, calls, env[item := vs[j]], condition) == Ok(keep[j])
    ensures Value_(b, calls, env, Filter(value, item, condition)) == Ok(Arr(Chosen(vs, keep, |vs|)))
    ensures forall x :: multiset(Chosen(vs, keep, |vs|))[x] == |Places(vs, keep, x, |vs|)|
  {
    FilterSelects(b, calls, env, value, item, condition, vs);
    SelectedFrom(b, calls, env, vs, 0, item, condition, keep);
    forall x ensures multiset(Chosen(vs, keep, |vs|))[x] == |Places(vs, keep, x, |vs|)| { ChosenCounts(vs, keep, x, |vs|); }
  }

  // ----- Templates -----

  /** The text of a template with the given parts. */
  function Glued(parts: seq<Part>): string {
    if parts == [] then ""
    else (match parts[0] case Plain(t) => t case Hole(name) => "{{" + name + "}}") + Glued(parts[1..])
  }

  /** `c` nowhere stands twice in a row. */
  predicate NoPair(s: string, c: char) {
    forall i | 0 <= i < |s| - 1 :: !(s[i] == c && s[i + 1] == c)
  }

  /** Plain texts and holes alternate, beginning and ending with a plain text; names are identifiers,
      and no plain text opens a hole or ends in the middle of opening one. */
  predicate Canonical(parts: seq<Part>) {
    parts != [] && parts[0].Plain? &&
    if |parts| == 1 then NoPair(parts[0].text, '{')
    else NoPair(parts[0].text + "{", '{') && parts[1].Hole? && ValidId(parts[1].name) && Canonical(parts[2..])
  }

  lemma {:induction false} PairIsFirst(s: string, c: char)
    ensures FindPair(s, c).None? <==> NoPair(s, c)
    ensures FindPair(s, c).Some? ==> NoPair(s[..FindPair(s, c).value] + [c], c)
  {
    if |s| >= 2 && !(s[0] == c && s[1] == c) {
      PairIsFirst(s[1..], c);
      if FindPair(s[1..], c).None? {
        forall i | 0 <= i < |s| - 1 ensures !(s[i] == c && s[i + 1] == c) {
          if i > 0 { assert s[1..][i - 1] == s[i] && s[1..][i] == s[i + 1]; }
        }
      } else {
        var r := FindPair(s[1..], c).value;
        var inner, outer := s[1..][..r] + [c], s[..r + 1] + [c];
        assert s[1..][..r] == s[1..r + 1] && s[..r + 1] == [s[0]] + s[1..r + 1];
        assert outer == [s[0]] + inner;
        forall i | 0 <= i < |outer| - 1 ensures !(outer[i] == c && outer[i + 1] == c) {
          if i > 0 { assert inner[i - 1] == outer[i] && inner[i] == outer[i + 1]; }
        }
        assert s[1..][r] == s[r + 1] && s[1..][r + 1] == s[r + 2];
      }
    }
  }

  /** The first doubled `c` is where nothing before it doubles. */
  lemma {:induction false} FirstPair(before: string, rest: string, c: char)
    requires NoPair(before + [c], c)
    ensures FindPair(before + [c, c] + rest, c) == Some(|before|)
  {
    var s := before + [c, c] + rest;
    if before != [] {
      assert s[1..] == before[1..] + [c, c] + rest;
      var t := before + [c];
      assert forall i | 0 <= i < |before| - 1 :: (before[1..] + [c])[i] == t[i + 1];
      assert NoPair(before[1..] + [c], c) by {
        var u := before[1..] + [c];
        assert u == t[1..];
      }
      FirstPair(before[1..], rest, c);
      assert s[0] == t[0] && s[1] == t[1];
    }
  }

  lemma IdHasNoBraces(name: string, c: char)
    requires ValidId(name) && c == '}'
    ensures NoPair(name + [c], c)
  {
    forall i | 0 <= i < |name| ensures (name + [c])[i] != c { assert name[i] in name; }
  }

  /** The parts of a text are the one alternating list that spells it; without one it is malformed. */
  lemma {:induction false} TemplatePartsExactly(text: string, parts: seq<Part>)
    ensures TemplateParts(text) == Some(parts) <==> Canonical(parts) && Glued(parts) == text
    decreases |text|
  {
    if TemplateParts(text) == Some(parts) { PartsSpell(text, parts); }
    if Canonical(parts) && Glued(parts) == text { SpelledParts(parts); }
  }

  /** One plain text and one hole, followed by the rest. */
  lemma GluedTwo(before: string, name: string, rest: seq<Part>)
    ensures Glued([Plain(before), Hole(name)] + rest) == before + ("{{" + (name + ("}}" + Glued(rest))))
  {
    var parts := [Plain(before), Hole(name)] + rest;
    assert parts[1..] == [Hole(name)] + rest && parts[1..][1..] == rest;
    assert "{{" + name + "}}" + Glued(rest) == "{{" + (name + ("}}" + Glued(rest)));
  }

  lemma CanonicalTwo(before: string, name: string, rest: seq<Part>)
    requires Canonical(rest)
    ensures Canonical([Plain(before), Hole(name)] + rest) <==> NoPair(before + "{", '{') && ValidId(name)
  {
    assert ([Plain(before), Hole(name)] + rest)[2..] == rest;
  }

  /** Where the first hole of a text stands. */
  lemma FirstHole(before: string, name: string, rest: string)
    requires NoPair(before + "{", '{') && ValidId(name)
    ensures var text := before + ("{{" + (name + ("}}" + rest)));
      TemplateParts(text) == if TemplateParts(rest).None? then None else Some([Plain(before), Hole(name)] + TemplateParts(rest).value)
  {
    var inner := name + ("}}" + rest);
    var text := before + ("{{" + inner);
    assert text == before + ['{', '{'] + inner && inner == name + ['}', '}'] + rest;
    assert before + ['{'] == before + "{";
    FirstPair(before, inner, '{');
    IdHasNoBraces(name, '}');
    FirstPair(name, rest, '}');
    assert text[|before| + 2..] == inner && text[..|before|] == before;
    assert inner[..|name|] == name && inner[|name| + 2..] == rest;
  }

  /** A text around its first doubled `c`. */
  lemma Cut(text: string, c: char) returns (before: string, after: string)
    requires FindPair(text, c).Some?
    ensures before == text[..FindPair(text, c).value] && after == text[FindPair(text, c).value + 2..] && |after| < |text|
    ensures NoPair(before + [c], c) && text == before + ([c, c] + after)
  {
    PairIsFirst(text, c);
    var at := FindPair(text, c).value;
    before, after := text[..at], text[at + 2..];
  }

  /** The first hole of a well-formed text. */
  lemma HoleOpens(text: string) returns (before: string, name: string, tail: string)
    requires FindPair(text, '{').Some? && TemplateParts(text).Some?
    ensures text == before + ("{{" + (name + ("}}" + tail))) && |tail| < |text|
    ensures NoPair(before + "{", '{') && ValidId(name)
  {
    var inner;
    before, inner := Cut(text, '{');
    name, tail := Cut(inner, '}');
  }

  lemma {:induction false} PartsSpell(text: string, parts: seq<Part>)
    requires TemplateParts(text) == Some(parts)
    ensures Canonical(parts) && Glued(parts) == text
    decreases |text|
  {
    if FindPair(text, '{').Some? {
      var before, name, tail := HoleOpens(text);
      FirstHole(before, name, tail);
      var rest := TemplateParts(tail).value;
      PartsSpell(tail, rest);
      GluedTwo(before, name, rest);
      CanonicalTwo(before, name, rest);
    } else {
      PairIsFirst(text, '{');
      assert parts[1..] == [];
      assert Glued(parts) == text + "";
    }
  }

  lemma {:induction false} SpelledParts(parts: seq<Part>)
    requires Canonical(parts)
    ensures TemplateParts(Glued(parts)) == Some(parts)
    decreases |parts|
  {
    if |parts| == 1 {
      assert parts[1..] == [];
      assert Glued(parts) == parts[0].text + "" == parts[0].text;
      PairIsFirst(parts[0].text, '{');
      assert parts == [Plain(parts[0].text)];
    } else {
      var before, name, rest := parts[0].text, parts[1].name, parts[2..];
      assert parts == [Plain(before), Hole(name)] + rest;
      SpelledParts(rest);
      GluedTwo(before, name, rest);
      FirstHole(before, name, Glued(rest));
    }
  }

  /** A filled-in template is its parts with every hole replaced by the text bound to its name. */
  function Filled(parts: seq<Part>, values: Values): Access<string> {
    if parts == [] then Ok("")
    else
      var first := match parts[0]
        case Plain(t) => Ok(t)
        case Hole(name) => if name in values && values[name].Str? then Ok(values[name].s) else Invalid;
      var rest := Filled(parts[1..], values);
      if !first.Ok? then first else if !rest.Ok? then rest else Ok(first.value + rest.value)
  }

  lemma {:induction false} TextIsFilled(parts: seq<Part>, i: nat, values: Values, text: string)
    requires i <= |parts|
    ensures var f := Filled(parts[i..], values);
      Text_(parts, i, values, text) == if f.Ok? then Ok(text + f.value) else Invalid
    decreases |parts| - i
  {
    if i < |parts| {
      assert parts[i..][1..] == parts[i + 1..];
      match parts[i]
      case Plain(t) =>
        TextIsFilled(parts, i + 1, values, text + t);
        var f := Filled(parts[i + 1..], values);
        if f.Ok? { assert text + t + f.value == text + (t + f.value); }
      case Hole(name) =>
        if name in values && values[name].Str? {
          TextIsFilled(parts, i + 1, values, text + values[name].s);
          var f := Filled(parts[i + 1..], values);
          if f.Ok? { assert text + values[name].s + f.value == text + (values[name].s + f.value); }
        }
    } else {
      assert text + "" == text;
    }
  }

  /** A template means its text with every hole filled in. */
  lemma TemplatesFillHoles(b: Basis, calls: nat, env: Values, args: seq<Arg>, text: string, parts: seq<Part>, vs: seq<Json>)
    requires TemplateParts(text) == Some(parts) && |vs| == |args| && Values_(b, calls, env, args, 0, []) == Ok(vs)
    ensures var f := Filled(parts, Named_(args, vs));
      Value_(b, calls, env, Build(Template(text), args)) == if f.Ok? then Ok(Str(f.value)) else Invalid
  {
    ConstructionFills(args, parts, vs, text);
    BuildConstructs(b, calls, env, Template(text), args, vs);
  }

  lemma BuildConstructs(b: Basis, calls: nat, env: Values, op: BuildOp, args: seq<Arg>, vs: seq<Json>)
    requires |vs| == |args| && Values_(b, calls, env, args, 0, []) == Ok(vs)
    requires op.Template? ==> TemplateParts(op.text).Some?
    ensures Value_(b, calls, env, Build(op, args)) == Construction(op, args, vs)
  {
  }

  lemma ConstructionFills(args: seq<Arg>, parts: seq<Part>, vs: seq<Json>, text: string)
    requires |vs| == |args| && TemplateParts(text) == Some(parts)
    ensures var f := Filled(parts, Named_(args, vs));
      Construction(Template(text), args, vs) == if f.Ok? then Ok(Str(f.value)) else Invalid
  {
    assert parts[0..] == parts;
    TextIsFilled(parts, 0, Named_(args, vs), "");
    var f := Filled(parts, Named_(args, vs));
    if f.Ok? { assert "" + f.value == f.value; }
  }
}
