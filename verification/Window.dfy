/** Prepared windows: capture of a complete evaluation and validation
    (rust/crates/zf-context/src/window.rs). */
module Window {
  import opened Base
  import opened Types
  import opened Views
  import opened Syntax
  import opened Acceptance
  import opened Evaluation
  import opened Blocks
  import opened Grouping
  import opened Showing
  import opened Outputs
  import opened Provenance

  const MAX_ITEMS := 4096
  const MAX_WINDOW_DEPTH := 64
  const MAX_BYTES := 16 * 1024 * 1024

  datatype WindowItem =
    | WGroup(id: string, title: string, items: seq<WindowItem>)
    | WFragment(id: string, role: Role, format: Format, value: Json, sources: set<string>)

  datatype PreparedWindow = PreparedWindow(
    strategyId: string,
    strategyRevision: string,
    items: seq<WindowItem>,
    sourceRevisions: map<string, string>,
    capabilities: seq<Capability>)

  datatype Fault = IncompleteFault | StrategyFault | RevisionFault | IdFault | GroupFault | FormatFault | LimitFault

  // ----- What a window must be -----

  /** Identifiers in document order. */
  function WindowIds(items: seq<WindowItem>): seq<string> {
    if items == [] then [] else [items[0].id] + InnerIds(items[0]) + WindowIds(items[1..])
  }

  function InnerIds(x: WindowItem): seq<string> {
    if x.WGroup? then WindowIds(x.items) else []
  }

  function AsSet(ids: seq<string>): set<string> {
    set i | 0 <= i < |ids| :: ids[i]
  }

  /** Not blank, not repeated, and not taken before. */
  predicate Unused(ids: seq<string>, taken: set<string>) {
    Distinct(ids) && forall i | 0 <= i < |ids| :: ids[i] !in taken && !Blank(ids[i])
  }

  /** Titles, roles, representations and sources are in order, whatever the identifiers. */
  predicate Proper(x: WindowItem, revisions: map<string, string>) {
    match x
    case WGroup(_, title, items) => !Blank(title) && AllProper(items, revisions)
    case WFragment(_, role, format, value, sources) =>
      (role == Instruction ==> format == AsText) && FormatFits(value, format) && sources <= revisions.Keys
  }

  predicate AllProper(items: seq<WindowItem>, revisions: map<string, string>) {
    forall i | 0 <= i < |items| :: Proper(items[i], revisions)
  }

  /** No list of items, even an empty one, lies deeper than the limit. */
  predicate Shallow(items: seq<WindowItem>, depth: nat) {
    depth <= MAX_WINDOW_DEPTH && forall i | 0 <= i < |items| && items[i].WGroup? :: Shallow(items[i].items, depth + 1)
  }

  predicate Sound_(window: PreparedWindow) {
    && !Blank(window.strategyId) && !Blank(window.strategyRevision)
    && (forall k | k in window.sourceRevisions :: !Blank(window.sourceRevisions[k]))
    && Unused(WindowIds(window.items), {}) && AllProper(window.items, window.sourceRevisions)
  }

  predicate WithinLimits(window: PreparedWindow, size: PreparedWindow -> nat) {
    Shallow(window.items, 0) && |WindowIds(window.items)| <= MAX_ITEMS && size(window) <= MAX_BYTES
  }

  // ----- Validation -----

  lemma UnusedSplit(x: seq<string>, y: seq<string>, taken: set<string>)
    ensures Unused(x + y, taken) <==> Unused(x, taken) && Unused(y, taken + AsSet(x))
  {
    var z := x + y;
    if Unused(z, taken) {
      assert forall i | 0 <= i < |x| :: x[i] == z[i];
      assert forall j | 0 <= j < |y| :: y[j] == z[|x| + j];
    }
    if Unused(x, taken) && Unused(y, taken + AsSet(x)) {
      forall i, j | 0 <= i < j < |z| ensures z[i] != z[j] {
        if i < |x| <= j { assert x[i] in AsSet(x) && y[j - |x|] !in AsSet(x); }
      }
    }
  }

  lemma AsSetAdds(x: seq<string>, y: seq<string>)
    ensures AsSet(x + y) == AsSet(x) + AsSet(y)
  {
    var z := x + y;
    forall u | u in AsSet(x) ensures u in AsSet(z) {
      var i :| 0 <= i < |x| && x[i] == u;
      assert z[i] == u;
    }
    forall u | u in AsSet(y) ensures u in AsSet(z) {
      var i :| 0 <= i < |y| && y[i] == u;
      assert z[|x| + i] == u;
    }
  }

  /** What remains to be checked of a list whose first item's identifier and children are known. */
  lemma RestUnused(items: seq<WindowItem>, taken: set<string>)
    requires items != []
    ensures var x, mid := items[0], taken + {items[0].id};
      var after := mid + AsSet(InnerIds(x));
      && (Unused(WindowIds(items), taken) <==>
            x.id !in taken && !Blank(x.id) && Unused(InnerIds(x), mid) && Unused(WindowIds(items[1..]), after))
      && taken + AsSet(WindowIds(items)) == after + AsSet(WindowIds(items[1..]))
      && |WindowIds(items)| == 1 + |InnerIds(x)| + |WindowIds(items[1..])|
  {
    var x, rest := items[0], WindowIds(items[1..]);
    var one := [x.id];
    assert one[0] == x.id;
    assert AsSet([x.id]) == {x.id};
    UnusedSplit([x.id] + InnerIds(x), rest, taken);
    UnusedSplit([x.id], InnerIds(x), taken);
    AsSetAdds([x.id] + InnerIds(x), rest);
    AsSetAdds([x.id], InnerIds(x));
    assert taken + AsSet([x.id] + InnerIds(x)) == taken + {x.id} + AsSet(InnerIds(x));
  }

  /** Identifiers are unused and the contents are in order. */
  predicate InOrder(items: seq<WindowItem>, taken: set<string>, revisions: map<string, string>) {
    Unused(WindowIds(items), taken) && AllProper(items, revisions)
  }

  /** Neither too deep nor, together with `taken` identifiers, too many. */
  predicate InLimits(items: seq<WindowItem>, depth: nat, taken: nat) {
    Shallow(items, depth) && (items == [] || taken + |WindowIds(items)| <= MAX_ITEMS)
  }

  predicate ItemInOrder(x: WindowItem, taken: set<string>, revisions: map<string, string>) {
    x.id !in taken && !Blank(x.id) && Unused(InnerIds(x), taken + {x.id}) && Proper(x, revisions)
  }

  predicate ItemInLimits(x: WindowItem, depth: nat, taken: nat) {
    taken + 1 + |InnerIds(x)| <= MAX_ITEMS && (x.WGroup? ==> Shallow(x.items, depth + 1))
  }

  lemma ProperSplit(items: seq<WindowItem>, revisions: map<string, string>)
    requires items != []
    ensures AllProper(items, revisions) <==> Proper(items[0], revisions) && AllProper(items[1..], revisions)
  {
    assert forall i | 0 <= i < |items| - 1 :: items[1..][i] == items[i + 1];
    assert forall i | 1 <= i < |items| :: items[i] == items[1..][i - 1];
  }

  lemma ShallowSplit(items: seq<WindowItem>, depth: nat)
    requires items != []
    ensures Shallow(items, depth) <==> (items[0].WGroup? ==> Shallow(items[0].items, depth + 1)) && Shallow(items[1..], depth)
  {
    assert forall i | 0 <= i < |items| - 1 :: items[1..][i] == items[i + 1];
    assert forall i | 1 <= i < |items| :: items[i] == items[1..][i - 1];
  }

  lemma OrderSplit(items: seq<WindowItem>, taken: set<string>, revisions: map<string, string>)
    requires items != []
    ensures InOrder(items, taken, revisions) <==>
      && ItemInOrder(items[0], taken, revisions)
      && InOrder(items[1..], taken + {items[0].id} + AsSet(InnerIds(items[0])), revisions)
  {
    RestUnused(items, taken);
    ProperSplit(items, revisions);
  }

  lemma LimitSplit(items: seq<WindowItem>, depth: nat, taken: nat)
    requires items != [] && depth <= MAX_WINDOW_DEPTH
    ensures InLimits(items, depth, taken) <==>
      ItemInLimits(items[0], depth, taken) && InLimits(items[1..], depth, taken + 1 + |InnerIds(items[0])|)
  {
    RestUnused(items, {});
    ShallowSplit(items, depth);
  }

  /** After the first `k` items, with identifiers `ids` in use, the verdict on the whole list is that
      on the rest. */
  ghost predicate Reduced(items: seq<WindowItem>, k: nat, depth: nat, taken: set<string>, ids: set<string>, revisions: map<string, string>)
    requires k <= |items|
  {
    && |ids| + |WindowIds(items[k..])| == |taken| + |WindowIds(items)|
    && ids + AsSet(WindowIds(items[k..])) == taken + AsSet(WindowIds(items))
    && (InOrder(items, taken, revisions) <==> InOrder(items[k..], ids, revisions))
    && (InLimits(items, depth, |taken|) <==> InLimits(items[k..], depth, |ids|))
  }

  lemma ReducedFurther(items: seq<WindowItem>, k: nat, depth: nat, taken: set<string>, ids: set<string>, after: set<string>, revisions: map<string, string>)
    requires k < |items| && depth <= MAX_WINDOW_DEPTH && Reduced(items, k, depth, taken, ids, revisions)
    requires ItemInOrder(items[k], ids, revisions) && ItemInLimits(items[k], depth, |ids|)
    requires after == ids + {items[k].id} + AsSet(InnerIds(items[k])) && |after| == |ids| + 1 + |InnerIds(items[k])|
    ensures Reduced(items, k + 1, depth, taken, after, revisions)
  {
    assert items[k..][1..] == items[k + 1..];
    RestUnused(items[k..], ids);
    OrderSplit(items[k..], ids, revisions);
    LimitSplit(items[k..], depth, |ids|);
  }

  lemma ReducedFails(items: seq<WindowItem>, k: nat, depth: nat, taken: set<string>, ids: set<string>, revisions: map<string, string>)
    requires k < |items| && depth <= MAX_WINDOW_DEPTH && Reduced(items, k, depth, taken, ids, revisions)
    ensures InOrder(items, taken, revisions) ==> ItemInOrder(items[k], ids, revisions)
    ensures InLimits(items, depth, |taken|) ==> ItemInLimits(items[k], depth, |ids|)
  {
    OrderSplit(items[k..], ids, revisions);
    LimitSplit(items[k..], depth, |ids|);
  }

  lemma ReducedToNothing(items: seq<WindowItem>, depth: nat, taken: set<string>, ids: set<string>, revisions: map<string, string>)
    requires depth <= MAX_WINDOW_DEPTH && Reduced(items, |items|, depth, taken, ids, revisions)
    ensures InOrder(items, taken, revisions) && InLimits(items, depth, |taken|)
    ensures ids == taken + AsSet(WindowIds(items)) && |ids| == |taken| + |WindowIds(items)|
  {
    assert items[|items|..] == [];
  }

  /** The recursive walk with its growing set of identifiers: it accepts exactly the lists that are in
      order and within the limits, and a list in order can only fail on a limit. */
  method CheckItems(items: seq<WindowItem>, depth: nat, taken: set<string>, revisions: map<string, string>)
    returns (fault: Option<Fault>, ids: set<string>)
    ensures fault.None? <==> InOrder(items, taken, revisions) && InLimits(items, depth, |taken|)
    ensures fault.None? ==> ids == taken + AsSet(WindowIds(items)) && |ids| == |taken| + |WindowIds(items)|
    ensures fault.Some? && InOrder(items, taken, revisions) ==> fault == Some(LimitFault)
    decreases items, 1
  {
    ids := taken;
    if depth > MAX_WINDOW_DEPTH { return Some(LimitFault), ids; }
    var k := 0;
    assert Reduced(items, 0, depth, taken, ids, revisions) by { assert items[0..] == items; }
    while k < |items|
      invariant k <= |items| && Reduced(items, k, depth, taken, ids, revisions)
    {
      var inner, after := CheckItem(items[k], depth, ids, revisions);
      if inner.Some? {
        ReducedFails(items, k, depth, taken, ids, revisions);
        return inner, after;
      }
      ReducedFurther(items, k, depth, taken, ids, after, revisions);
      k, ids := k + 1, after;
    }
    ReducedToNothing(items, depth, taken, ids, revisions);
    fault := None;
  }

  /** One item of the walk. */
  method CheckItem(item: WindowItem, depth: nat, taken: set<string>, revisions: map<string, string>)
    returns (fault: Option<Fault>, ids: set<string>)
    ensures fault.None? <==> ItemInOrder(item, taken, revisions) && ItemInLimits(item, depth, |taken|)
    ensures fault.None? ==> ids == taken + {item.id} + AsSet(InnerIds(item)) && |ids| == |taken| + 1 + |InnerIds(item)|
    ensures fault.Some? && ItemInOrder(item, taken, revisions) ==> fault == Some(LimitFault)
    decreases item, 0
  {
    ids := taken;
    if |ids| >= MAX_ITEMS { return Some(LimitFault), ids; }
    if Blank(item.id) || item.id in ids { return Some(IdFault), ids; }
    ids := ids + {item.id};
    match item {
      case WGroup(_, title, children) =>
        if Blank(title) { return Some(GroupFault), ids; }
        fault, ids := CheckItems(children, depth + 1, ids, revisions);
      case WFragment(_, role, format, value, sources) =>
        if role == Instruction && format != AsText { return Some(FormatFault), ids; }
        if !FormatFits(value, format) { return Some(FormatFault), ids; }
        if !(sources <= revisions.Keys) { return Some(RevisionFault), ids; }
        fault := None;
    }
  }

  /** `size` is the length of the window's JSON text. */
  method Validate(window: PreparedWindow, size: PreparedWindow -> nat) returns (fault: Option<Fault>)
    ensures fault.None? <==> Sound_(window) && WithinLimits(window, size)
    ensures fault.Some? && Sound_(window) ==> fault == Some(LimitFault)
  {
    if Blank(window.strategyId) || Blank(window.strategyRevision) { return Some(StrategyFault); }
    if exists k | k in window.sourceRevisions :: Blank(window.sourceRevisions[k]) { return Some(RevisionFault); }
    var ids;
    fault, ids := CheckItems(window.items, 0, {}, window.sourceRevisions);
    if fault.None? && size(window) > MAX_BYTES { fault := Some(LimitFault); }
  }

  // ----- Capture -----

  /** An evaluated item as its serialized form reads back. */
  function Captured(x: Item): WindowItem {
    match x
    case ItemGroup(id, title, items) => WGroup(id, title, AllCaptured(items))
    case Fragment(id, role, format, value, sources) => WFragment(id, role, format, Denote(value), sources)
  }

  function AllCaptured(items: seq<Item>): seq<WindowItem> {
    seq(|items|, i requires 0 <= i < |items| => Captured(items[i]))
  }

  function WindowOf(s: Strategy, revision: string, ev: Evaluated, revisions: map<string, string>): PreparedWindow {
    PreparedWindow(s.id, revision, AllCaptured(ev.items), revisions, s.capabilities)
  }

  datatype CaptureResult = Captured_(window: PreparedWindow) | Refused_(fault: Fault)

  method Capture(s: Strategy, revision: string, ev: Evaluated, revisions: map<string, string>, size: PreparedWindow -> nat)
    returns (r: CaptureResult)
    ensures var window := WindowOf(s, revision, ev, revisions);
      && (r.Captured_? <==> ev.Complete() && ev.run.core.allReads <= revisions.Keys && Sound_(window) && WithinLimits(window, size))
      && (r.Captured_? ==> r.window == window)
      && (ev.Complete() && ev.run.core.allReads <= revisions.Keys && Sound_(window) && r.Refused_? ==> r.fault == LimitFault)
  {
    if !ev.Complete() { return Refused_(IncompleteFault); }
    if !(ev.run.core.allReads <= revisions.Keys) { return Refused_(RevisionFault); }
    var window := WindowOf(s, revision, ev, revisions);
    var fault := Validate(window, size);
    r := if fault.Some? then Refused_(fault.value) else Captured_(window);
  }

  lemma {:induction false} CapturedIds(items: seq<Item>)
    ensures WindowIds(AllCaptured(items)) == Ids(items)
  {
    if items != [] {
      CapturedIds(items[1..]);
      assert AllCaptured(items)[1..] == AllCaptured(items[1..]);
      if items[0].ItemGroup? { CapturedIds(items[0].items); }
    }
  }

  lemma {:induction false} CapturedProper(items: seq<Item>, revisions: map<string, string>)
    requires FitAll(items) && CoversAll(items, revisions.Keys)
    ensures AllProper(AllCaptured(items), revisions)
  {
    forall i | 0 <= i < |items| ensures Proper(Captured(items[i]), revisions) {
      if items[i].ItemGroup? { CapturedProper(items[i].items, revisions); }
    }
  }

  lemma {:induction false} FitIds(items: seq<Item>)
    requires FitAll(items)
    ensures forall k | 0 <= k < |Ids(items)| :: !Blank(Ids(items)[k])
  {
    if items != [] {
      FitIds(items[1..]);
      assert Fit(items[0]);
      if items[0].ItemGroup? { FitIds(items[0].items); }
      assert Ids(items) == ItemIdsOf(items[0]) + Ids(items[1..]);
    }
  }

  /** A complete evaluation, with a revision for everything it consulted, is in order as a window: its
      capture can fail only on the depth, item or byte limit. */
  lemma CompleteIsCapturable(s: Strategy, external: Registry, library: Library, keys: seq<Key>, resources: map<string, Json>,
    limits: Limits, encode: Json -> string, revision: string, revisions: map<string, string>)
    requires Injective(encode)
    requires var ev := EvaluateStrategy(s, external, library, keys, resources, limits, encode);
      ev.Complete() && ev.run.core.allReads <= revisions.Keys
    requires !Blank(revision) && forall k | k in revisions :: !Blank(revisions[k])
    ensures Sound_(WindowOf(s, revision, EvaluateStrategy(s, external, library, keys, resources, limits, encode), revisions))
  {
    var w := World(Link(s, external, library), resources, limits, encode);
    var ev := EvaluateStrategy(s, external, library, keys, resources, limits, encode);
    CompleteShowsMeaning(s, external, library, keys, resources, limits, encode, |library|);
    var _ := AcceptedIsWellTyped(s, external, library, keys);
    OutputIsAccounted(w, s.program);
    SourcesAreCovered(w, s.program);
    CoversMore(ev.items, ev.run.core.allReads, revisions.Keys);
    CapturedIds(ev.items);
    FitIds(ev.items);
    CapturedProper(ev.items, revisions);
    ValidIdNotBlank(s.id);
  }
}
