/** What each patch does to a window, and exactly when it can (rust/crates/zf-context/src/window.rs,
    `apply_patches`). */
module WindowEffects {
  import opened Base
  import opened Syntax
  import opened Acceptance
  import opened Window
  import opened WindowEdits

  lemma {:induction false} PutPuts(items: seq<WindowItem>, path: Path, x: WindowItem)
    requires Leads(items, path)
    ensures var after := Put(items, path, x); Leads(after, path) && At(after, path) == x && Delete(after, path) == Delete(items, path)
    decreases path
  {
    if |path| > 1 { PutPuts(items[path[0]].items, path[1..], x); }
  }

  /** From `items` to `after` only the tree at `path` changed, into `x`. */
  predicate ChangedAt(items: seq<WindowItem>, after: seq<WindowItem>, path: Path, x: WindowItem) {
    && Leads(items, path) && Leads(after, path) && At(after, path) == x
    && Delete(after, path) == Delete(items, path)
  }

  /** A replacement succeeds exactly for a present item and content of the same identifier; the content
      then stands where the item stood, and nothing else changes. */
  lemma ReplaceTakesEffect(items: seq<WindowItem>, id: string, x: WindowItem) returns (path: Path)
    ensures var r := Apply(items, Replace(id, x));
      && (r.Edited? <==> x.id == id && id in WindowIds(items))
      && (r == Failed(ChangedIdentity) <==> x.id != id) && (r == Failed(UnknownItem) <==> x.id == id && id !in WindowIds(items))
      && (r.Edited? ==> ChangedAt(items, r.items, path, x) && At(items, path).id == id)
  {
    assert items[0..] == items;
    FindFinds(items, 0, id);
    path := [];
    if id in WindowIds(items) {
      path := Find(items, 0, id).value;
      PutPuts(items, path, x);
    }
  }

  /** A new representation is given exactly to a present fragment; only its representation and value
      change. */
  lemma RepresentTakesEffect(items: seq<WindowItem>, id: string, format: Format, value: Json) returns (path: Path)
    requires Distinct(WindowIds(items))
    ensures var r := Apply(items, Represent(id, format, value));
      && (r == Failed(UnknownItem) <==> id !in WindowIds(items))
      && (id in WindowIds(items) ==>
            && Leads(items, path) && At(items, path).id == id
            && (r == Failed(NoRepresentation) <==> At(items, path).WGroup?)
            && (At(items, path).WFragment? ==>
                  && r.Edited?
                  && ChangedAt(items, r.items, path,
                       WFragment(id, At(items, path).role, format, value, At(items, path).sources))))
  {
    assert items[0..] == items;
    FindFinds(items, 0, id);
    path := [];
    if id in WindowIds(items) {
      path := Find(items, 0, id).value;
      var x := At(items, path);
      if x.WFragment? { PutPuts(items, path, x.(format := format, value := value)); }
    }
  }

  /** `up` is the list that a destination names in what is left after the moved item is taken out. */
  predicate NamesList(rest: seq<WindowItem>, up: Path, parent: Option<string>) {
    Holds(rest, up) && if parent.None? then up == [] else up != [] && At(rest, up).id == parent.value
  }

  /** A move of a present item succeeds exactly if, apart from the moved tree, its destination names a
      list and the index lies in it; the tree then stands at that index. */
  lemma MoveSucceedsExactly(items: seq<WindowItem>, id: string, parent: Option<string>, index: nat, from: Path)
    requires Distinct(WindowIds(items)) && Leads(items, from) && At(items, from).id == id
    ensures var rest := Delete(items, from);
      && (MoveItem(items, id, parent, index).Edited? <==>
            exists up :: NamesList(rest, up, parent) && index <= |Children(rest, up)|)
      && forall up | NamesList(rest, up, parent) && index <= |Children(rest, up)| ::
           Free(rest, up + [index]) && MoveItem(items, id, parent, index) == Edited(Insert(rest, up + [index], At(items, from)))
  {
    var rest := Delete(items, from);
    SearchIs(items, from, id);
    var a, b := DeleteIds(items, from);
    DistinctParts(a, TreeIds(At(items, from)), b);
    forall up | NamesList(rest, up, parent) ensures Destination(rest, parent) == Some(up) { DestinationIs(rest, up, parent); }
    forall up | NamesList(rest, up, parent) && index <= |Children(rest, up)| ensures Free(rest, up + [index]) {
      FreeSlot(rest, up, index);
    }
    if MoveItem(items, id, parent, index).Edited? {
      var up := Destination(rest, parent).value;
      if parent.Some? { FindFinds(rest, 0, parent.value); }
      assert NamesList(rest, up, parent);
    }
  }

  lemma DestinationIs(rest: seq<WindowItem>, up: Path, parent: Option<string>)
    requires Distinct(WindowIds(rest)) && NamesList(rest, up, parent)
    ensures Destination(rest, parent) == Some(up)
  {
    if parent.Some? {
      SearchIs(rest, up, parent.value);
      SearchesAgree(rest, parent.value);
    }
  }
}
