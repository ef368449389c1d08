/** What a captured window holds (rust/crates/zf-context/src/window.rs, `capture`): exactly what the
    evaluated strategy means, with the identifiers and sources of the evaluation. */
module Capturing {
  import opened Base
  import opened Types
  import opened Syntax
  import opened Acceptance
  import opened Grouping
  import opened Evaluation
  import opened Blocks
  import opened Meaning
  import opened Showing
  import opened Outputs
  import opened Window

  /** A window item displays what a block shows. */
  predicate Displays(x: WindowItem, s: Shown) {
    match (x, s)
    case (WGroup(id, title, items), ShownGroup(blockId, shown, inner)) =>
      NamedBy(id, blockId) && title == shown && AllDisplay(items, inner)
    case (WFragment(id, role, format, value, _), ShownValue(blockId, r, f, json)) =>
      NamedBy(id, blockId) && role == r && format == f && value == json
    case _ => false
  }

  predicate AllDisplay(xs: seq<WindowItem>, ss: seq<Shown>) {
    |xs| == |ss| && forall i | 0 <= i < |xs| :: Displays(xs[i], ss[i])
  }

  /** The sources of the fragments in document order. */
  function SourcesIn(items: seq<Item>): seq<set<string>> {
    if items == [] then []
    else (if items[0].ItemGroup? then SourcesIn(items[0].items) else [items[0].sources]) + SourcesIn(items[1..])
  }

  function WindowSources(items: seq<WindowItem>): seq<set<string>> {
    if items == [] then []
    else (if items[0].WGroup? then WindowSources(items[0].items) else [items[0].sources]) + WindowSources(items[1..])
  }

  lemma {:induction false} CapturedDisplay(items: seq<Item>, shown: seq<Shown>)
    requires MatchAll(items, shown)
    ensures AllDisplay(AllCaptured(items), shown)
  {
    forall i | 0 <= i < |items| ensures Displays(Captured(items[i]), shown[i]) {
      assert Match(items[i], shown[i]);
      if items[i].ItemGroup? { CapturedDisplay(items[i].items, shown[i].items); }
    }
  }

  lemma {:induction false} CapturedSources(items: seq<Item>)
    ensures WindowSources(AllCaptured(items)) == SourcesIn(items)
  {
    if items != [] {
      CapturedSources(items[1..]);
      assert AllCaptured(items)[1..] == AllCaptured(items[1..]);
      if items[0].ItemGroup? { CapturedSources(items[0].items); }
    }
  }

  /** A captured window displays exactly the meaning of its strategy; identifiers and sources are those
      of the evaluation, in the same order, and it names the strategy, its revision and capabilities. */
  lemma CaptureDisplaysMeaning(s: Strategy, external: Registry, library: Library, keys: seq<Key>, resources: map<string, Json>,
    limits: Limits, encode: Json -> string, revision: string, revisions: map<string, string>, calls: nat)
    requires Injective(encode) && |library| <= calls
    requires EvaluateStrategy(s, external, library, keys, resources, limits, encode).Complete()
    ensures var ev := EvaluateStrategy(s, external, library, keys, resources, limits, encode);
      var window := WindowOf(s, revision, ev, revisions);
      var m := ShowAll(Basis(Link(s, external, library), resources, encode), calls, map[], s.program, 0);
      && m.Ok? && AllDisplay(window.items, m.value)
      && WindowIds(window.items) == Ids(ev.items) && WindowSources(window.items) == SourcesIn(ev.items)
      && window.strategyId == s.id && window.strategyRevision == revision && window.sourceRevisions == revisions
      && window.capabilities == s.capabilities
  {
    var ev := EvaluateStrategy(s, external, library, keys, resources, limits, encode);
    CompleteShowsMeaning(s, external, library, keys, resources, limits, encode, calls);
    var m := ShowAll(Basis(Link(s, external, library), resources, encode), calls, map[], s.program, 0);
    CapturedDisplay(ev.items, m.value);
    CapturedIds(ev.items);
    CapturedSources(ev.items);
  }
}
