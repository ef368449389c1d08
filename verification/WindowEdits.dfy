/** Edits of prepared windows (rust/crates/zf-context/src/window.rs, `apply_patches`, `find_mut`,
    `remove`). A place in the item tree is the path of list positions that leads to it. */
module WindowEdits {
  import opened Base
  import opened Syntax
  import opened Acceptance
  import opened Window

  type Path = seq<nat>

  /** `path` leads to an item. */
  predicate Leads(items: seq<WindowItem>, path: Path)
    decreases path
  {
    path != [] && path[0] < |items|
    && (|path| == 1 || (items[path[0]].WGroup? && Leads(items[path[0]].items, path[1..])))
  }

  /** An item can be inserted at `path`. */
  predicate Free(items: seq<WindowItem>, path: Path)
    decreases path
  {
    path != [] &&
    if |path| == 1 then path[0] <= |items|
    else path[0] < |items| && items[path[0]].WGroup? && Free(items[path[0]].items, path[1..])
  }

  function At(items: seq<WindowItem>, path: Path): WindowItem
    requires Leads(items, path)
    decreases path
  {
    if |path| == 1 then items[path[0]] else At(items[path[0]].items, path[1..])
  }

  function Delete(items: seq<WindowItem>, path: Path): seq<WindowItem>
    requires Leads(items, path)
    decreases path
  {
    var i := path[0];
    if |path| == 1 then items[..i] + items[i + 1..]
    else items[i := items[i].(items := Delete(items[i].items, path[1..]))]
  }

  function Insert(items: seq<WindowItem>, path: Path, x: WindowItem): seq<WindowItem>
    requires Free(items, path)
    decreases path
  {
    var i := path[0];
    if |path| == 1 then items[..i] + [x] + items[i..]
    else items[i := items[i].(items := Insert(items[i].items, path[1..], x))]
  }

  function Put(items: seq<WindowItem>, path: Path, x: WindowItem): seq<WindowItem>
    requires Leads(items, path)
    decreases path
  {
    var i := path[0];
    if |path| == 1 then items[i := x]
    else items[i := items[i].(items := Put(items[i].items, path[1..], x))]
  }

  // ----- Deletion and insertion undo each other -----

  lemma {:induction false} InsertThenDelete(items: seq<WindowItem>, path: Path, x: WindowItem)
    requires Free(items, path)
    ensures var after := Insert(items, path, x);
      Leads(after, path) && At(after, path) == x && Delete(after, path) == items
    decreases path
  {
    if |path| > 1 { InsertThenDelete(items[path[0]].items, path[1..], x); }
  }

  lemma {:induction false} DeleteThenInsert(items: seq<WindowItem>, path: Path)
    requires Leads(items, path)
    ensures Free(Delete(items, path), path) && Insert(Delete(items, path), path, At(items, path)) == items
    decreases path
  {
    if |path| > 1 { DeleteThenInsert(items[path[0]].items, path[1..]); }
  }

  lemma {:induction false} PutReplaces(items: seq<WindowItem>, path: Path, x: WindowItem)
    requires Leads(items, path)
    ensures Free(Delete(items, path), path) && Put(items, path, x) == Insert(Delete(items, path), path, x)
    decreases path
  {
    if |path| > 1 { PutReplaces(items[path[0]].items, path[1..], x); }
  }

  // ----- Identifiers -----

  function TreeIds(x: WindowItem): seq<string> {
    [x.id] + InnerIds(x)
  }

  lemma {:induction false} WindowIdsAdd(xs: seq<WindowItem>, ys: seq<WindowItem>)
    ensures WindowIds(xs + ys) == WindowIds(xs) + WindowIds(ys)
  {
    if xs == [] {
      assert xs + ys == ys;
    } else {
      WindowIdsAdd(xs[1..], ys);
      assert (xs + ys)[1..] == xs[1..] + ys;
    }
  }

  lemma Associative(a: seq<string>, b: seq<string>, c: seq<string>)
    ensures a + (b + c) == a + b + c
  {
  }

  /** The identifiers before, at and after position `i`. */
  lemma IdsAround(items: seq<WindowItem>, i: nat)
    requires i < |items|
    ensures WindowIds(items) == WindowIds(items[..i]) + TreeIds(items[i]) + WindowIds(items[i + 1..])
  {
    var tail := items[i..];
    assert items == items[..i] + tail && tail[1..] == items[i + 1..];
    WindowIdsAdd(items[..i], tail);
    assert WindowIds(tail) == TreeIds(items[i]) + WindowIds(items[i + 1..]);
    Associative(WindowIds(items[..i]), TreeIds(items[i]), WindowIds(items[i + 1..]));
  }

  lemma InsertHere(items: seq<WindowItem>, i: nat, x: WindowItem)
    requires i <= |items|
    ensures WindowIds(items) == WindowIds(items[..i]) + WindowIds(items[i..])
    ensures WindowIds(items[..i] + [x] + items[i..]) == WindowIds(items[..i]) + TreeIds(x) + WindowIds(items[i..])
  {
    assert items == items[..i] + items[i..];
    WindowIdsAdd(items[..i], items[i..]);
    var after := items[..i] + [x] + items[i..];
    assert after[..i] == items[..i] && after[i] == x && after[i + 1..] == items[i..];
    IdsAround(after, i);
  }

  /** Insertion adds the identifiers of exactly the inserted tree, in one piece. */
  lemma {:induction false} InsertIds(items: seq<WindowItem>, path: Path, x: WindowItem) returns (a: seq<string>, b: seq<string>)
    requires Free(items, path)
    ensures WindowIds(items) == a + b && WindowIds(Insert(items, path, x)) == a + TreeIds(x) + b
    decreases path
  {
    var i := path[0];
    if |path| == 1 {
      a, b := WindowIds(items[..i]), WindowIds(items[i..]);
      InsertHere(items, i, x);
    } else {
      var c, d := InsertIds(items[i].items, path[1..], x);
      var after := Insert(items, path, x);
      IdsAround(items, i);
      IdsAround(after, i);
      assert after[..i] == items[..i] && after[i + 1..] == items[i + 1..];
      var before, next := WindowIds(items[..i]), WindowIds(items[i + 1..]);
      a, b := before + [items[i].id] + c, d + next;
      Regrouping(before, [items[i].id], c, [], d, next);
      Regrouping(before, [items[i].id], c, TreeIds(x), d, next);
      assert TreeIds(items[i]) == [items[i].id] + (c + [] + d);
      assert TreeIds(after[i]) == [items[i].id] + (c + TreeIds(x) + d);
      assert a + [] + b == a + b;
    }
  }

  lemma Regrouping(before: seq<string>, one: seq<string>, c: seq<string>, t: seq<string>, d: seq<string>, next: seq<string>)
    ensures before + (one + (c + t + d)) + next == (before + one + c) + t + (d + next)
  {
  }

  /** Deletion takes away the identifiers of exactly the deleted tree, in one piece. */
  lemma DeleteIds(items: seq<WindowItem>, path: Path) returns (a: seq<string>, b: seq<string>)
    requires Leads(items, path)
    ensures WindowIds(items) == a + TreeIds(At(items, path)) + b && WindowIds(Delete(items, path)) == a + b
  {
    DeleteThenInsert(items, path);
    a, b := InsertIds(Delete(items, path), path, At(items, path));
  }

  lemma DistinctParts(a: seq<string>, t: seq<string>, b: seq<string>)
    requires Distinct(a + t + b)
    ensures Distinct(a + b) && Distinct(t) && forall u | u in t :: u !in a + b
  {
    var all := a + t + b;
    assert forall i | 0 <= i < |a| :: a[i] == all[i];
    assert forall i | 0 <= i < |t| :: t[i] == all[|a| + i];
    assert forall i | 0 <= i < |b| :: b[i] == all[|a| + |t| + i];
  }

  lemma DistinctWhole(a: seq<string>, t: seq<string>, b: seq<string>)
    requires Distinct(a + b) && Distinct(t) && forall u | u in t :: u !in a + b
    ensures Distinct(a + t + b)
  {
    var all, rest := a + t + b, a + b;
    assert forall i | 0 <= i < |a| :: a[i] == rest[i];
    assert forall i | 0 <= i < |b| :: b[i] == rest[|a| + i];
    forall i, j | 0 <= i < j < |all| ensures all[i] != all[j] {
      if i < |a| <= j < |a| + |t| { assert t[j - |a|] in t && a[i] in rest; }
      else if |a| <= i < |a| + |t| <= j { assert t[i - |a|] in t && b[j - |a| - |t|] in rest; }
    }
  }

  // ----- Under distinct identifiers, an identifier is one place -----

  lemma {:induction false} AtListed(items: seq<WindowItem>, path: Path)
    requires Leads(items, path)
    ensures At(items, path).id in TreeIds(items[path[0]])
    ensures |path| > 1 ==> At(items, path).id in InnerIds(items[path[0]])
    decreases path
  {
    if |path| > 1 {
      var children, rest := items[path[0]].items, path[1..];
      AtListed(children, rest);
      IdsAround(children, rest[0]);
    }
  }

  lemma TreesApart(items: seq<WindowItem>, i: nat, j: nat)
    requires Distinct(WindowIds(items)) && i < j < |items|
    ensures forall u | u in TreeIds(items[i]) :: u !in TreeIds(items[j])
  {
    IdsAround(items, i);
    IdsAround(items[i + 1..], j - i - 1);
    var rest := items[i + 1..];
    assert rest[j - i - 1] == items[j];
    var a := WindowIds(items[..i]);
    DistinctParts(a, TreeIds(items[i]), WindowIds(rest));
    assert forall u | u in TreeIds(items[j]) :: u in WindowIds(rest);
  }

  lemma DistinctInside(items: seq<WindowItem>, i: nat)
    requires Distinct(WindowIds(items)) && i < |items|
    ensures Distinct(InnerIds(items[i])) && items[i].id !in InnerIds(items[i])
  {
    IdsAround(items, i);
    DistinctParts(WindowIds(items[..i]), TreeIds(items[i]), WindowIds(items[i + 1..]));
    DistinctTail(items[i].id, InnerIds(items[i]));
  }

  lemma DistinctTail(id: string, rest: seq<string>)
    requires Distinct([id] + rest)
    ensures Distinct(rest) && id !in rest
  {
    var t := [id] + rest;
    assert t[0] == id;
    assert forall k | 0 <= k < |rest| :: rest[k] == t[k + 1];
  }

  lemma {:induction false} OnePlace(items: seq<WindowItem>, p: Path, q: Path)
    requires Distinct(WindowIds(items)) && Leads(items, p) && Leads(items, q) && At(items, p).id == At(items, q).id
    ensures p == q
    decreases p
  {
    AtListed(items, p);
    AtListed(items, q);
    if p[0] < q[0] {
      TreesApart(items, p[0], q[0]);
    } else if q[0] < p[0] {
      TreesApart(items, q[0], p[0]);
    } else {
      DistinctInside(items, p[0]);
      if |p| > 1 && |q| > 1 {
        OnePlace(items[p[0]].items, p[1..], q[1..]);
        assert p == [p[0]] + p[1..] && q == [q[0]] + q[1..];
      }
    }
  }

  // ----- The two searches -----

  /** Depth first: an item, then its children, then the next item. */
  function Find(items: seq<WindowItem>, i: nat, id: string): Option<Path>
    requires i <= |items|
    decreases items, |items| - i
  {
    if i == |items| then None
    else if items[i].id == id then Some([i])
    else
      var inner := if items[i].WGroup? then Find(items[i].items, 0, id) else None;
      if inner.Some? then Some([i] + inner.value) else Find(items, i + 1, id)
  }

  /** The whole level first, then inside its groups. */
  function Search(items: seq<WindowItem>, id: string): Option<Path>
    decreases items, 1, 0
  {
    var k := Position(items, 0, id);
    if k.Some? then Some([k.value]) else SearchInside(items, 0, id)
  }

  function Position(items: seq<WindowItem>, i: nat, id: string): (k: Option<nat>)
    requires i <= |items|
    ensures k.Some? ==> i <= k.value < |items| && items[k.value].id == id
    ensures k.None? ==> forall j | i <= j < |items| :: items[j].id != id
    decreases |items| - i
  {
    if i == |items| then None else if items[i].id == id then Some(i) else Position(items, i + 1, id)
  }

  function SearchInside(items: seq<WindowItem>, i: nat, id: string): Option<Path>
    requires i <= |items|
    decreases items, 0, |items| - i
  {
    if i == |items| then None
    else
      var inner := if items[i].WGroup? then Search(items[i].items, id) else None;
      if inner.Some? then Some([i] + inner.value) else SearchInside(items, i + 1, id)
  }

  lemma ListedAt(items: seq<WindowItem>, i: nat, id: string)
    requires i < |items|
    ensures id in WindowIds(items[i..]) <==>
      items[i].id == id || id in InnerIds(items[i]) || id in WindowIds(items[i + 1..])
  {
    assert items[i..][1..] == items[i + 1..];
  }

  lemma {:induction false} FindFinds(items: seq<WindowItem>, i: nat, id: string)
    requires i <= |items|
    ensures var p := Find(items, i, id);
      && (p.Some? <==> id in WindowIds(items[i..]))
      && (p.Some? ==> Leads(items, p.value) && At(items, p.value).id == id)
    decreases items, |items| - i
  {
    if i < |items| {
      ListedAt(items, i, id);
      FindFinds(items, i + 1, id);
      if items[i].WGroup? {
        FindFinds(items[i].items, 0, id);
        assert items[i].items[0..] == items[i].items;
        var inner := Find(items[i].items, 0, id);
        if inner.Some? { assert ([i] + inner.value)[1..] == inner.value; }
      }
    }
  }

  lemma {:induction false} SearchFinds(items: seq<WindowItem>, id: string)
    ensures var p := Search(items, id);
      && (p.Some? <==> id in WindowIds(items))
      && (p.Some? ==> Leads(items, p.value) && At(items, p.value).id == id)
    decreases items, 1, 0
  {
    assert items[0..] == items;
    SearchInsideFinds(items, 0, id);
    var k := Position(items, 0, id);
    if k.Some? {
      IdsAround(items, k.value);
      assert id in TreeIds(items[k.value]);
    }
  }

  /** Beyond position `i` the search inside groups misses only identifiers of the level itself. */
  lemma {:induction false} SearchInsideFinds(items: seq<WindowItem>, i: nat, id: string)
    requires i <= |items|
    ensures var p := SearchInside(items, i, id);
      && (p.Some? ==> id in WindowIds(items[i..]) && Leads(items, p.value) && At(items, p.value).id == id)
      && (p.None? && id in WindowIds(items[i..]) ==> exists j | i <= j < |items| :: items[j].id == id)
    decreases items, 0, |items| - i
  {
    if i < |items| {
      ListedAt(items, i, id);
      SearchInsideFinds(items, i + 1, id);
      if items[i].WGroup? {
        SearchFinds(items[i].items, id);
        var inner := Search(items[i].items, id);
        if inner.Some? { assert ([i] + inner.value)[1..] == inner.value; }
      }
    }
  }

  /** The two searches visit items in different orders, yet under distinct identifiers they agree. */
  lemma SearchesAgree(items: seq<WindowItem>, id: string)
    requires Distinct(WindowIds(items))
    ensures Find(items, 0, id) == Search(items, id)
  {
    assert items[0..] == items;
    FindFinds(items, 0, id);
    SearchFinds(items, id);
    if id in WindowIds(items) { OnePlace(items, Find(items, 0, id).value, Search(items, id).value); }
  }

  /** `find_mut`: the place of an item, or nothing. */
  method FindMut(items: seq<WindowItem>, id: string) returns (path: Option<Path>)
    ensures path == Find(items, 0, id)
    decreases items
  {
    var i := 0;
    while i < |items|
      invariant i <= |items| && Find(items, 0, id) == Find(items, i, id)
    {
      if items[i].id == id { return Some([i]); }
      if items[i].WGroup? {
        var inner := FindMut(items[i].items, id);
        if inner.Some? { return Some([i] + inner.value); }
      }
      i := i + 1;
    }
    path := None;
  }

  /** `remove`: the removed item and what is left, which is all there was if nothing is removed. */
  method RemoveItem(items: seq<WindowItem>, id: string) returns (removed: Option<WindowItem>, rest: seq<WindowItem>)
    ensures var p := Search(items, id);
      && (removed.Some? <==> p.Some?)
      && (p.Some? ==> Leads(items, p.value) && removed.value == At(items, p.value) && rest == Delete(items, p.value))
      && (p.None? ==> rest == items)
    decreases items
  {
    SearchFinds(items, id);
    var k := 0;
    while k < |items| && items[k].id != id
      invariant k <= |items| && Position(items, 0, id) == Position(items, k, id)
    {
      k := k + 1;
    }
    if k < |items| { return Some(items[k]), items[..k] + items[k + 1..]; }
    var i := 0;
    while i < |items|
      invariant i <= |items| && SearchInside(items, 0, id) == SearchInside(items, i, id)
    {
      if items[i].WGroup? {
        var inner, left := RemoveItem(items[i].items, id);
        if inner.Some? {
          ghost var q := Search(items[i].items, id).value;
          assert ([i] + q)[1..] == q && |q| > 0;
          return inner, items[i := items[i].(items := left)];
        }
      }
      i := i + 1;
    }
    removed, rest := None, items;
  }

  // ----- Patches -----

  datatype Patch =
    | Remove(id: string)
    | Replace(id: string, item: WindowItem)
    | Move(id: string, parent: Option<string>, index: nat)
    | Represent(id: string, format: Format, value: Json)

  datatype EditFault = UnknownItem | ChangedIdentity | NoRepresentation | NoParent | OutsideIndex

  datatype Edit = Edited(items: seq<WindowItem>) | Failed(fault: EditFault)

  /** The list that `path` names as a destination: the window itself or a group. */
  predicate Holds(items: seq<WindowItem>, path: Path) {
    path == [] || (Leads(items, path) && At(items, path).WGroup?)
  }

  function Children(items: seq<WindowItem>, path: Path): seq<WindowItem>
    requires Holds(items, path)
  {
    if path == [] then items else At(items, path).items
  }

  lemma {:induction false} FreeSlot(items: seq<WindowItem>, path: Path, index: nat)
    requires Holds(items, path) && index <= |Children(items, path)|
    ensures Free(items, path + [index])
    decreases path
  {
    if path != [] {
      assert (path + [index])[1..] == path[1..] + [index];
      FreeSlot(items[path[0]].items, path[1..], index);
    }
  }

  /** The place of a destination group, searched after the moved item is gone. */
  function Destination(items: seq<WindowItem>, parent: Option<string>): (path: Option<Path>)
    ensures path.Some? ==> Holds(items, path.value)
  {
    if parent.None? then Some([])
    else
      var p := Find(items, 0, parent.value);
      FindFinds(items, 0, parent.value);
      if p.Some? && At(items, p.value).WGroup? then p else None
  }

  function MoveItem(items: seq<WindowItem>, id: string, parent: Option<string>, index: nat): Edit {
    var p := Search(items, id);
    SearchFinds(items, id);
    if p.None? then Failed(UnknownItem)
    else
      var rest := Delete(items, p.value);
      var target := Destination(rest, parent);
      if target.None? then Failed(NoParent)
      else if index > |Children(rest, target.value)| then Failed(OutsideIndex)
      else
        FreeSlot(rest, target.value, index);
        Edited(Insert(rest, target.value + [index], At(items, p.value)))
  }

  function ReplaceItem(items: seq<WindowItem>, id: string, x: WindowItem): Edit {
    var p := Find(items, 0, id);
    FindFinds(items, 0, id);
    if p.None? then Failed(UnknownItem) else Edited(Put(items, p.value, x))
  }

  function Apply(items: seq<WindowItem>, patch: Patch): Edit {
    match patch
    case Remove(id) =>
      var p := Search(items, id);
      SearchFinds(items, id);
      if p.None? then Failed(UnknownItem) else Edited(Delete(items, p.value))
    case Replace(id, item) => if item.id != id then Failed(ChangedIdentity) else ReplaceItem(items, id, item)
    case Represent(id, format, value) =>
      var p := Find(items, 0, id);
      FindFinds(items, 0, id);
      if p.None? then Failed(UnknownItem)
      else if !At(items, p.value).WFragment? then Failed(NoRepresentation)
      else ReplaceItem(items, id, At(items, p.value).(format := format, value := value))
    case Move(id, parent, index) => MoveItem(items, id, parent, index)
  }

  // ----- What edits keep -----

  /** Removal succeeds exactly for present items and takes away one whole tree, nothing else: putting
      it back where it was restores the window. */
  lemma RemoveTakesOneTree(items: seq<WindowItem>, id: string) returns (path: Path, a: seq<string>, b: seq<string>)
    requires Distinct(WindowIds(items))
    ensures Apply(items, Remove(id)).Edited? <==> id in WindowIds(items)
    ensures var r := Apply(items, Remove(id)); r.Edited? ==>
      && Find(items, 0, id) == Some(path) && Leads(items, path)
      && WindowIds(items) == a + TreeIds(At(items, path)) + b && WindowIds(r.items) == a + b && Distinct(a + b)
      && Free(r.items, path) && Insert(r.items, path, At(items, path)) == items
  {
    SearchFinds(items, id);
    SearchesAgree(items, id);
    path, a, b := [], [], [];
    if id in WindowIds(items) {
      path := Search(items, id).value;
      a, b := DeleteIds(items, path);
      DistinctParts(a, TreeIds(At(items, path)), b);
      DeleteThenInsert(items, path);
    }
  }

  /** A group keeps its place and its name when something is inserted into it. */
  lemma {:induction false} InsertInto(items: seq<WindowItem>, target: Path, index: nat, x: WindowItem)
    requires Leads(items, target) && Free(items, target + [index])
    ensures var after := Insert(items, target + [index], x); Leads(after, target) && At(after, target).id == At(items, target).id
    decreases target
  {
    var path := target + [index];
    assert path[1..] == target[1..] + [index] && path[0] == target[0];
    if |target| > 1 { InsertInto(items[target[0]].items, target[1..], index, x); }
  }

  /** A move takes the item's whole tree from its old place to the requested one, at the given index of
      the given parent, and everything else stays as it was: without the moved tree the window before and the window after are the same. */
  lemma MoveConserves(items: seq<WindowItem>, id: string, parent: Option<string>, index: nat) returns (from: Path, to: Path)
    requires MoveItem(items, id, parent, index).Edited?
    ensures var after := MoveItem(items, id, parent, index).items;
      && Leads(items, from) && At(items, from).id == id && Leads(after, to) && At(after, to) == At(items, from)
      && Delete(after, to) == Delete(items, from) && to[|to| - 1] == index && ParentOf(after, to) == parent
      && multiset(WindowIds(after)) == multiset(WindowIds(items))
  {
    SearchFinds(items, id);
    from := Search(items, id).value;
    var rest := Delete(items, from);
    var target := Destination(rest, parent).value;
    to := target + [index];
    FreeSlot(rest, target, index);
    InsertThenDelete(rest, to, At(items, from));
    assert to[..|target|] == target;
    if parent.Some? {
      FindFinds(rest, 0, parent.value);
      InsertInto(rest, target, index, At(items, from));
    }
    var a, b := DeleteIds(items, from);
    var c, d := InsertIds(rest, to, At(items, from));
    SamePieces(a, b, c, d, TreeIds(At(items, from)));
  }

  lemma SamePieces(a: seq<string>, b: seq<string>, c: seq<string>, d: seq<string>, t: seq<string>)
    requires a + b == c + d
    ensures multiset(a + t + b) == multiset(c + t + d)
  {
    assert multiset(a + t + b) == multiset(a + b) + multiset(t);
    assert multiset(c + t + d) == multiset(c + d) + multiset(t);
  }

  /** Identifiers around an inserted tree are unused exactly when the rest is and the tree's are new. */
  lemma UnusedMiddle(a: seq<string>, t: seq<string>, b: seq<string>)
    ensures Unused(a + t + b, {}) <==> Unused(a + b, {}) && Unused(t, AsSet(a + b))
  {
    if Unused(a + t + b, {}) {
      DistinctParts(a, t, b);
      MiddleBlanks(a, t, b);
      forall i | 0 <= i < |t| ensures t[i] !in AsSet(a + b) { assert t[i] in t; }
    }
    if Unused(a + b, {}) && Unused(t, AsSet(a + b)) {
      MiddleBlanks(a, t, b);
      forall u | u in t ensures u !in a + b {
        var i :| 0 <= i < |t| && t[i] == u;
        assert t[i] !in AsSet(a + b);
      }
      DistinctWhole(a, t, b);
    }
  }

  predicate NoBlank(ids: seq<string>) {
    forall i | 0 <= i < |ids| :: !Blank(ids[i])
  }

  lemma MiddleBlanks(a: seq<string>, t: seq<string>, b: seq<string>)
    ensures NoBlank(a + t + b) <==> NoBlank(a + b) && NoBlank(t)
  {
    var all, rest := a + t + b, a + b;
    assert forall i | 0 <= i < |a| :: a[i] == all[i] == rest[i];
    assert forall i | 0 <= i < |t| :: t[i] == all[|a| + i];
    assert forall i | 0 <= i < |b| :: b[i] == all[|a| + |t| + i] == rest[|a| + i];
  }

  lemma InsertUnused(items: seq<WindowItem>, path: Path, x: WindowItem)
    requires Free(items, path)
    ensures Unused(WindowIds(Insert(items, path, x)), {}) <==>
      Unused(WindowIds(items), {}) && Unused(TreeIds(x), AsSet(WindowIds(items)))
  {
    var a, b := InsertIds(items, path, x);
    UnusedMiddle(a, TreeIds(x), b);
  }

  lemma {:induction false} InsertProper(items: seq<WindowItem>, path: Path, x: WindowItem, revisions: map<string, string>)
    requires Free(items, path)
    ensures AllProper(Insert(items, path, x), revisions) <==> AllProper(items, revisions) && Proper(x, revisions)
    decreases path
  {
    var i, after := path[0], Insert(items, path, x);
    if |path| == 1 {
      assert after[i] == x;
      assert forall k | 0 <= k < i :: after[k] == items[k];
      assert forall k | i <= k < |items| :: after[k + 1] == items[k];
      assert forall k | i < k < |after| :: after[k] == items[k - 1];
    } else {
      InsertProper(items[i].items, path[1..], x, revisions);
      assert forall k | 0 <= k < |items| && k != i :: after[k] == items[k];
      assert Proper(after[i], revisions) <==> Proper(items[i], revisions) && Proper(x, revisions);
    }
  }

  lemma InsertInOrder(items: seq<WindowItem>, path: Path, x: WindowItem, revisions: map<string, string>)
    requires Free(items, path)
    ensures InOrder(Insert(items, path, x), {}, revisions) <==>
      InOrder(items, {}, revisions) && Unused(TreeIds(x), AsSet(WindowIds(items))) && Proper(x, revisions)
  {
    InsertUnused(items, path, x);
    InsertProper(items, path, x, revisions);
  }

  lemma DeleteInOrder(items: seq<WindowItem>, path: Path, revisions: map<string, string>)
    requires Leads(items, path) && InOrder(items, {}, revisions)
    ensures InOrder(Delete(items, path), {}, revisions) && Proper(At(items, path), revisions)
    ensures Unused(TreeIds(At(items, path)), AsSet(WindowIds(Delete(items, path))))
  {
    DeleteThenInsert(items, path);
    InsertInOrder(Delete(items, path), path, At(items, path), revisions);
  }

  /** Removing or moving items never brings a window out of order. */
  lemma RemoveAndMoveKeepOrder(items: seq<WindowItem>, patch: Patch, revisions: map<string, string>)
    requires InOrder(items, {}, revisions) && (patch.Remove? || patch.Move?) && Apply(items, patch).Edited?
    ensures InOrder(Apply(items, patch).items, {}, revisions)
  {
    SearchFinds(items, patch.id);
    var p := Search(items, patch.id).value;
    DeleteInOrder(items, p, revisions);
    if patch.Move? {
      var rest := Delete(items, p);
      var target := Destination(rest, patch.parent).value;
      FreeSlot(rest, target, patch.index);
      InsertInOrder(rest, target + [patch.index], At(items, p), revisions);
    }
  }

  /** A replacement keeps a window in order exactly when it is proper and brings no identifier that the
      rest already uses. */
  lemma ReplaceKeepsOrder(items: seq<WindowItem>, id: string, x: WindowItem, revisions: map<string, string>) returns (path: Path)
    requires InOrder(items, {}, revisions) && ReplaceItem(items, id, x).Edited?
    ensures Leads(items, path) && At(items, path).id == id
    ensures InOrder(ReplaceItem(items, id, x).items, {}, revisions) <==>
      Proper(x, revisions) && Unused(TreeIds(x), AsSet(WindowIds(Delete(items, path))))
  {
    FindFinds(items, 0, id);
    path := Find(items, 0, id).value;
    PutReplaces(items, path, x);
    DeleteInOrder(items, path, revisions);
    InsertInOrder(Delete(items, path), path, x, revisions);
  }

  /** A new representation keeps a window in order exactly when it fits its value and role. */
  lemma RepresentKeepsOrder(items: seq<WindowItem>, id: string, format: Format, value: Json, revisions: map<string, string>) returns (path: Path)
    requires InOrder(items, {}, revisions) && Apply(items, Represent(id, format, value)).Edited?
    ensures Leads(items, path) && At(items, path).id == id && At(items, path).WFragment?
    ensures InOrder(Apply(items, Represent(id, format, value)).items, {}, revisions) <==>
      Proper(At(items, path).(format := format, value := value), revisions)
  {
    FindFinds(items, 0, id);
    path := Find(items, 0, id).value;
    var x := At(items, path).(format := format, value := value);
    DeleteInOrder(items, path, revisions);
    assert TreeIds(x) == TreeIds(At(items, path));
    var same := ReplaceKeepsOrder(items, id, x, revisions);
    OnePlace(items, path, same);
  }

  // ----- Moving back -----

  /** The identifier of the group that holds the item at `path`, or nothing at the top. */
  function ParentOf(items: seq<WindowItem>, path: Path): Option<string>
    requires Leads(items, path)
  {
    if |path| == 1 then None
    else
      ParentLeads(items, path);
      Some(At(items, path[..|path| - 1]).id)
  }

  lemma {:induction false} ParentLeads(items: seq<WindowItem>, path: Path)
    requires Leads(items, path) && |path| > 1
    ensures var up := path[..|path| - 1]; Leads(items, up) && At(items, up).WGroup?
    ensures var up := path[..|path| - 1];
      Leads(Delete(items, path), up) && At(Delete(items, path), up).WGroup?
      && At(Delete(items, path), up).id == At(items, up).id
    decreases path
  {
    var up := path[..|path| - 1];
    if |path| > 2 {
      ParentLeads(items[path[0]].items, path[1..]);
      assert path[1..][..|path| - 2] == up[1..];
    }
  }

  lemma {:induction false} SlotFits(items: seq<WindowItem>, path: Path)
    requires Free(items, path)
    ensures var n := |path| - 1; Holds(items, path[..n]) && path[n] <= |Children(items, path[..n])|
    decreases path
  {
    var n := |path| - 1;
    if n > 0 {
      SlotFits(items[path[0]].items, path[1..]);
      assert path[1..][..n - 1] == path[..n][1..];
    }
  }

  /** In the window without the item, its former parent is found where it was. */
  lemma ParentFound(items: seq<WindowItem>, path: Path)
    requires Leads(items, path) && Distinct(WindowIds(items))
    ensures Destination(Delete(items, path), ParentOf(items, path)) == Some(path[..|path| - 1])
  {
    if |path| > 1 {
      var rest, up := Delete(items, path), path[..|path| - 1];
      ParentLeads(items, path);
      var a, b := DeleteIds(items, path);
      DistinctParts(a, TreeIds(At(items, path)), b);
      var id := At(items, up).id;
      assert rest[0..] == rest;
      FindFinds(rest, 0, id);
      AtListed(rest, up);
      IdsAround(rest, up[0]);
      OnePlace(rest, Find(rest, 0, id).value, up);
    }
  }

  /** Moving an item back to its former parent and index restores the window. */
  lemma MoveBackRestores(items: seq<WindowItem>, id: string, parent: Option<string>, index: nat, from: Path)
    requires Distinct(WindowIds(items)) && MoveItem(items, id, parent, index).Edited?
    requires Search(items, id) == Some(from) && Leads(items, from)
    ensures var after := MoveItem(items, id, parent, index).items;
      MoveItem(after, id, ParentOf(items, from), from[|from| - 1]) == Edited(items)
  {
    var after := MoveItem(items, id, parent, index).items;
    var f, to := MoveConserves(items, id, parent, index);
    SearchIs(items, f, id);
    MovedDistinct(items, after);
    SearchIs(after, to, id);
    ParentFound(items, from);
    DeleteThenInsert(items, from);
    MoveTo(after, id, ParentOf(items, from), to, from);
  }

  /** Under distinct identifiers, a known place is the one that the search finds. */
  lemma SearchIs(items: seq<WindowItem>, path: Path, id: string)
    requires Distinct(WindowIds(items)) && Leads(items, path) && At(items, path).id == id
    ensures Search(items, id) == Some(path)
  {
    SearchFinds(items, id);
    AtListed(items, path);
    IdsAround(items, path[0]);
    OnePlace(items, Search(items, id).value, path);
  }

  /** A move from `from` whose destination is the slot `to`. */
  lemma MoveTo(items: seq<WindowItem>, id: string, parent: Option<string>, from: Path, to: Path)
    requires Search(items, id) == Some(from) && Leads(items, from) && Free(Delete(items, from), to)
    requires Destination(Delete(items, from), parent) == Some(to[..|to| - 1])
    ensures MoveItem(items, id, parent, to[|to| - 1]) == Edited(Insert(Delete(items, from), to, At(items, from)))
  {
    var n := |to| - 1;
    SlotFits(Delete(items, from), to);
    assert to[..n] + [to[n]] == to;
  }

  lemma MovedDistinct(items: seq<WindowItem>, after: seq<WindowItem>)
    requires Distinct(WindowIds(items)) && multiset(WindowIds(after)) == multiset(WindowIds(items))
    ensures Distinct(WindowIds(after))
  {
    DistinctCounts(WindowIds(items));
    DistinctIfCounts(WindowIds(after));
  }

  lemma {:induction false} DistinctCounts(ids: seq<string>)
    requires Distinct(ids)
    ensures forall u :: multiset(ids)[u] <= 1
  {
    if ids != [] {
      var n := |ids| - 1;
      DistinctCounts(ids[..n]);
      assert ids == ids[..n] + [ids[n]];
      assert ids[n] !in ids[..n];
    }
  }

  lemma {:induction false} DistinctIfCounts(ids: seq<string>)
    requires forall u :: multiset(ids)[u] <= 1
    ensures Distinct(ids)
  {
    if ids != [] {
      var n := |ids| - 1;
      assert ids == ids[..n] + [ids[n]];
      assert multiset(ids) == multiset(ids[..n]) + multiset{ids[n]};
      forall u ensures multiset(ids[..n])[u] <= 1 { assert multiset(ids)[u] <= 1; }
      DistinctIfCounts(ids[..n]);
      assert multiset(ids)[ids[n]] <= 1;
      assert ids[n] !in multiset(ids[..n]);
      assert forall i | 0 <= i < n :: ids[i] == ids[..n][i];
    }
  }

  /** A destination inside the moved tree is refused: no move can hang an item below itself. */
  lemma NoMoveBelowItself(items: seq<WindowItem>, id: string, parent: string, index: nat, from: Path)
    requires Distinct(WindowIds(items)) && Search(items, id) == Some(from) && Leads(items, from)
    requires parent in TreeIds(At(items, from))
    ensures MoveItem(items, id, Some(parent), index) == Failed(NoParent)
  {
    var a, b := DeleteIds(items, from);
    DistinctParts(a, TreeIds(At(items, from)), b);
    var rest := Delete(items, from);
    assert rest[0..] == rest;
    FindFinds(rest, 0, parent);
  }
}
