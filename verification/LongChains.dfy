/** A catalogue that resolves and does not resolve again (rust/crates/zf-compiler/src/resolve.rs and
    prepared_model.rs): a line of 200 bridges under names in ascending order. */
module LongChains {
  import opened Base
  import opened Types
  import opened Composition
  import opened Dependencies
  import opened Aliases
  import opened Resolution
  import Ordering

  // ----- Ascending order -----

  predicate Before(a: string, b: string) { Ordering.CompareText(a, b) == Ordering.Less }

  predicate Sorted(list: seq<string>) {
    forall i, j | 0 <= i < j < |list| :: Before(list[i], list[j])
  }

  lemma {:induction false} TextsDiffer(a: string, b: string)
    ensures a == b <==> Ordering.CompareText(a, b) == Ordering.Equal
  {
    if a != [] && b != [] {
      TextsDiffer(a[1..], b[1..]);
      assert a == [a[0]] + a[1..] && b == [b[0]] + b[1..];
    }
  }

  lemma OneBefore(a: string, b: string)
    ensures a != b ==> (Before(a, b) <==> !Before(b, a))
    ensures !Before(a, a)
  {
    TextsDiffer(a, b);
    TextsDiffer(a, a);
    Ordering.TextReverse(a, b);
  }

  lemma BeforeTwice(a: string, b: string, c: string)
    requires Before(a, b) && Before(b, c)
    ensures Before(a, c)
  {
    Ordering.TextTransitive(a, b, c);
  }

  /** A nonempty set has an element before all others. */
  lemma {:induction false} LeastExists(s: set<string>)
    requires s != {}
    ensures exists x :: x in s && forall y | y in s && y != x :: Before(x, y)
    decreases |s|
  {
    var a :| a in s;
    var rest := s - {a};
    if rest == {} {
      assert s == rest + {a};
    } else {
      LeastExists(rest);
      var x :| x in rest && forall y | y in rest && y != x :: Before(x, y);
      OneBefore(a, x);
      if Before(a, x) {
        forall y | y in s && y != a ensures Before(a, y) { if y != x { BeforeTwice(a, x, y); } }
      } else {
        forall y | y in s && y != x ensures Before(x, y) { }
      }
    }
  }

  ghost function Ascending(s: set<string>): (list: seq<string>)
    ensures forall x :: x in list <==> x in s
    ensures Sorted(list)
  {
    if s == {} then []
    else
      LeastExists(s);
      var x :| x in s && forall y | y in s && y != x :: Before(x, y);
      [x] + Ascending(s - {x})
  }

  ghost function AnyList(s: set<Alias>): (list: seq<Alias>)
    ensures forall x :: x in list <==> x in s
  {
    if s == {} then []
    else
      var x :| x in s;
      [x] + AnyList(s - {x})
  }

  /** The order of the source's maps: names ascend by their scalar values. */
  ghost function Alphabetical(): (ord: Order)
    ensures Lists(ord)
  {
    Order(Ascending, AnyList)
  }

  // ----- A line of 200 bridges -----

  /** The names ascend as bridges 50, 100, 0, 1, 2, and so on. */
  function Rank(j: nat): nat {
    if j == 50 then 0 else if j == 100 then 1 else if j == 0 then 2 else j + 3
  }

  function Name(j: nat): string
    requires j < 200
  {
    [(0x4E00 + Rank(j)) as char]
  }

  lemma LettersCompare(c: char, d: char)
    ensures Before([c], [d]) <==> c < d
  {
    assert [c][1..] == [] && [d][1..] == [] && [c][0] == c && [d][0] == d;
    if c == d { assert Ordering.CompareText([c][1..], [d][1..]) == Ordering.Equal; }
  }

  lemma NamesAscend(j: nat, k: nat)
    requires j < 200 && k < 200
    ensures Before(Name(j), Name(k)) <==> Rank(j) < Rank(k)
    ensures Name(j) == Name(k) <==> j == k
  {
    LettersCompare(Name(j)[0], Name(k)[0]);
    if Name(j) == Name(k) { assert Name(j)[0] == Name(k)[0]; }
  }

  lemma NameIsValid(j: nat)
    requires j < 200
    ensures ValidName(Name(j))
  {
    var c := Name(j)[0];
    assert Name(j)[..0] == [] && Utf8Len(Name(j)) == Utf8Width(c);
  }

  lemma NamesDiffer()
    ensures forall j, k | 0 <= j < 200 && 0 <= k < 200 && Name(j) == Name(k) :: j == k
  {
    forall j, k | 0 <= j < 200 && 0 <= k < 200 && Name(j) == Name(k) ensures j == k { NamesAscend(j, k); }
  }

  function Chained(j: nat): Bridge
    requires j < 200
  {
    Bridge(if j == 199 then {} else {Name(j + 1)}, map[], map[], map[])
  }

  function Chain(): map<string, Bridge> {
    NamesDiffer();
    map j | 0 <= j < 200 :: Name(j) := Chained(j)
  }

  lemma ChainHolds(j: nat)
    requires j < 200
    ensures Name(j) in Chain() && Chain()[Name(j)] == Chained(j)
  {
    NamesDiffer();
  }

  lemma ChainNames(x: string) returns (j: nat)
    requires x in Chain()
    ensures j < 200 && x == Name(j) && Chain()[x] == Chained(j)
  {
    j :| 0 <= j < 200 && x == Name(j);
    ChainHolds(j);
  }

  function LineNames(): seq<string> {
    seq(200, j requires 0 <= j < 200 => Name(j))
  }

  lemma ChainIsLine()
    ensures Line(Chain(), LineNames()) && Chain().Keys == Span(LineNames(), 0, 200)
  {
    var p, bridges := LineNames(), Chain();
    forall i, j | 0 <= i < j < 200 ensures p[i] != p[j] { NamesAscend(i, j); }
    forall i | 0 <= i < 200 ensures p[i] in bridges && ValidName(p[i])
      && bridges[p[i]].required == if i == 199 then {} else {p[i + 1]}
    {
      NameIsValid(i);
      ChainHolds(i);
    }
    forall x ensures x in bridges <==> x in Span(p, 0, 200) {
      if x in bridges {
        var j := ChainNames(x);
        assert p[j] == x;
      }
    }
  }

  // ----- The two requests -----

  const ROOT_FLOW := Flow(map["main" := Contract(Text, None)], map[], map[], map[], map[])

  function LongCatalog(): Catalog { Catalog(map[], map["flow" := ROOT_FLOW], Chain()) }

  /** The middle of the line and its start. */
  function LongRequest(): Request { Request("flow", "main", {Name(100), Name(0)}) }

  lemma PairSorted(list: seq<string>, a: string, b: string)
    requires Sorted(list) && Before(a, b) && forall x :: x in list <==> x == a || x == b
    ensures list == [a, b]
  {
    OneBefore(a, b);
    OneBefore(a, a);
    forall i, j | 0 <= i < j < |list| ensures list[i] != list[j] && !(list[i] == b && list[j] == a) {
      assert Before(list[i], list[j]);
      OneBefore(list[i], list[i]);
    }
    assert a in list && b in list;
    assert forall k | 0 <= k < |list| :: list[k] in list;
    assert list[0] == a && |list| > 1;
    assert list[1] == b;
    var third := if |list| > 2 then list[2] else a;
    assert |list| > 2 ==> third == a || third == b;
  }

  lemma FirstIsLeast(s: set<string>)
    requires s == Chain().Keys
    ensures Ascending(s) != [] && Ascending(s)[0] == Name(50)
  {
    ChainHolds(50);
    var list := Ascending(s);
    assert Name(50) in list;
    var k :| 0 <= k < |list| && list[k] == Name(50);
    if k > 0 {
      assert list[0] in list && Before(list[0], list[k]);
      var j := ChainNames(list[0]);
      NamesAscend(j, 50);
    }
  }

  lemma BareFlow()
    ensures FlowOk(ROOT_FLOW, map[])
  {
    assert ValidName("main") by { assert "main"[..3] == "mai" && "mai"[..2] == "ma" && "ma"[..1] == "m" && "m"[..0] == ""; }
    assert ContractOk(Contract(Text, None), map[]);
  }

  /** Bridges that only require one another. */
  ghost predicate Bare(bridges: map<string, Bridge>) {
    forall b | b in bridges :: bridges[b].imports == map[] && bridges[b].connections == map[] && bridges[b].bindings == map[]
  }

  /** With one flow and bare bridges there is nothing to wire. */
  lemma BareIsWired(parses: Json -> bool, bridges: map<string, Bridge>, t: Table)
    requires Bare(bridges) && t.instances == map[Root := Instance("flow", ROOT_FLOW)]
    ensures Wired(map[], parses, bridges, t)
  {
    BareFlow();
    assert ConnectionKeys(bridges) == {} && BindingKeys(bridges) == {};
    assert DeclarationsOk(map[], bridges, t);
    assert ConnectionsOk(map[], parses, bridges, t) && ToolsDistinct(bridges, t);
    assert BindingsOk(map[], bridges, t) && NoneSuppliedTwice(bridges, t) && AllSupplied(bridges, t);
  }

  lemma ChainIsBare()
    ensures Bare(Chain()) && ImportsOf(Chain()) == map[] && Restrict(Chain(), Chain().Keys) == Chain()
  {
    forall b | b in Chain() ensures Chain()[b].imports == map[] && Chain()[b].connections == map[] && Chain()[b].bindings == map[] {
      var j := ChainNames(b);
    }
  }

  lemma NoAliases(w: Wiring, ord: Order, root: Instance)
    requires Lists(ord) && w.imports == map[]
    ensures Aliases.Resolved(w, ord, root) == Initial(root, false)
  {
    var list := ord.aliases(w.imports.Keys);
    FirstListed(list);
    assert list == [];
  }

  lemma RequestSorted(ord: Order)
    requires ord == Alphabetical()
    ensures ord.names({Name(100), Name(0)}) == [Name(100), Name(0)]
  {
    NamesAscend(100, 0);
    PairSorted(ord.names({Name(100), Name(0)}), Name(100), Name(0));
  }

  /** The request activates the whole line, because its middle is visited first; asking for all of it
      does not, because bridge 50 is. */
  lemma LongActivates(ord: Order)
    requires ord == Alphabetical()
    ensures Activated(Chain(), ord, LongRequest().bridges) == Progress(Chain().Keys, false)
    ensures Activated(Chain(), ord, Chain().Keys).bad
  {
    var p := LineNames();
    ChainIsLine();
    RequestSorted(ord);
    FirstIsLeast(Chain().Keys);
    assert p[100] == Name(100) && p[0] == Name(0) && p[50] == Name(50);
    LongLine(Chain(), ord, p, {Name(100), Name(0)}, Chain().Keys);
  }

  lemma LongTable(ord: Order)
    requires Lists(ord)
    ensures TableOf(LongCatalog(), LongRequest(), ord, Chain().Keys) == Initial(Instance("flow", ROOT_FLOW), false)
  {
    ChainIsBare();
    NoAliases(Wiring(map[], LongCatalog().flows, LongCatalog().bridges), ord, Instance("flow", ROOT_FLOW));
  }

  /** Re-resolution is not always a fixed point: requesting the middle and the start of a line of 200
      bridges resolves, and resolving the resulting graph again does not. */
  lemma LongChainsCanFail(parses: Json -> bool)
    ensures var r := Resolve_(LongCatalog(), LongRequest(), Alphabetical(), parses);
      && r.Some? && Root in r.value.instances && Consistent(r.value.instances)
      && Resolve_(Cut(r.value), Again(r.value), Alphabetical(), parses) == None
  {
    var ord := Alphabetical();
    LongActivates(ord);
    LongTable(ord);
    ChainIsBare();
    var t := Initial(Instance("flow", ROOT_FLOW), false);
    BareIsWired(parses, Chain(), t);
    Assembles(LongCatalog(), LongRequest(), ord, parses, Chain().Keys, t);
    var g := GraphOf(map[], parses, Chain(), t, "main");
    SameUnlessReported(LongCatalog(), LongRequest(), ord, parses, g);
  }
}
