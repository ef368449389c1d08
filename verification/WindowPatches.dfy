/** Patch sequences on prepared windows (rust/crates/zf-context/src/window.rs, `patched` and
    `apply_patches`): a working copy edited in place, validated after every patch. */
module WindowPatches {
  import opened Base
  import opened Acceptance
  import opened Window
  import opened WindowEdits

  predicate Valid_(window: PreparedWindow, size: PreparedWindow -> nat) {
    Sound_(window) && WithinLimits(window, size)
  }

  /** The window after one patch, if the patch applies and leaves a valid window. */
  function Next(window: PreparedWindow, patch: Patch, size: PreparedWindow -> nat): Option<PreparedWindow> {
    var r := Apply(window.items, patch);
    if r.Failed? then None
    else
      var after := window.(items := r.items);
      if Valid_(after, size) then Some(after) else None
  }

  /** The window after the first patches, all of which must succeed. */
  function Through(window: PreparedWindow, patches: seq<Patch>, size: PreparedWindow -> nat): Option<PreparedWindow> {
    if patches == [] then Some(window)
    else
      var n := |patches| - 1;
      var before := Through(window, patches[..n], size);
      if before.None? then None else Next(before.value, patches[n], size)
  }

  lemma {:induction false} FailureIsFinal(window: PreparedWindow, patches: seq<Patch>, size: PreparedWindow -> nat, k: nat)
    requires k <= |patches| && Through(window, patches[..k], size).None?
    ensures Through(window, patches, size).None?
    decreases |patches|
  {
    if k < |patches| {
      var n := |patches| - 1;
      assert patches[..n][..k] == patches[..k];
      FailureIsFinal(window, patches[..n], size, k);
    } else {
      assert patches[..k] == patches;
    }
  }

  class Draft {
    var window: PreparedWindow

    constructor (source: PreparedWindow)
      ensures window == source
    {
      window := source;
    }

    /** One patch on the item tree; a refused move has already taken its item out. */
    method Edit(patch: Patch) returns (fault: Option<EditFault>)
      modifies this
      ensures var r := Apply(old(window.items), patch);
        && (r.Edited? <==> fault.None?) && (r.Failed? ==> fault == Some(r.fault))
        && (r.Edited? ==> window == old(window).(items := r.items))
    {
      fault := None;
      match patch {
        case Remove(id) =>
          var removed, rest := RemoveItem(window.items, id);
          if removed.None? { return Some(UnknownItem); }
          window := window.(items := rest);
        case Replace(id, item) =>
          if item.id != id { return Some(ChangedIdentity); }
          var path := FindMut(window.items, id);
          if path.None? { return Some(UnknownItem); }
          FindFinds(window.items, 0, id);
          window := window.(items := Put(window.items, path.value, item));
        case Represent(id, format, value) =>
          var path := FindMut(window.items, id);
          if path.None? { return Some(UnknownItem); }
          FindFinds(window.items, 0, id);
          var current := At(window.items, path.value);
          if !current.WFragment? { return Some(NoRepresentation); }
          window := window.(items := Put(window.items, path.value, current.(format := format, value := value)));
        case Move(id, parent, index) =>
          fault := MoveOne(id, parent, index);
      }
    }

    method MoveOne(id: string, parent: Option<string>, index: nat) returns (fault: Option<EditFault>)
      modifies this
      ensures var r := MoveItem(old(window.items), id, parent, index);
        && (r.Edited? <==> fault.None?) && (r.Failed? ==> fault == Some(r.fault))
        && (r.Edited? ==> window == old(window).(items := r.items))
    {
      var removed, rest := RemoveItem(window.items, id);
      if removed.None? { return Some(UnknownItem); }
      window := window.(items := rest);
      var target: Path := [];
      if parent.Some? {
        var path := FindMut(rest, parent.value);
        FindFinds(rest, 0, parent.value);
        if path.None? || !At(rest, path.value).WGroup? { return Some(NoParent); }
        target := path.value;
      }
      if index > |Children(rest, target)| { return Some(OutsideIndex); }
      FreeSlot(rest, target, index);
      window := window.(items := Insert(rest, target + [index], removed.value));
      fault := None;
    }

    method ApplyPatches(patches: seq<Patch>, size: PreparedWindow -> nat) returns (ok: bool)
      modifies this
      ensures ok <==> 0 < |patches| <= MAX_ITEMS && Through(old(window), patches, size).Some?
      ensures ok ==> Some(window) == Through(old(window), patches, size)
    {
      if |patches| == 0 || |patches| > MAX_ITEMS { return false; }
      var k := 0;
      while k < |patches|
        invariant k <= |patches| && Through(old(window), patches[..k], size) == Some(window)
      {
        assert patches[..k + 1][..k] == patches[..k];
        var fault := Edit(patches[k]);
        if fault.Some? {
          FailureIsFinal(old(window), patches, size, k + 1);
          return false;
        }
        var invalid := Validate(window, size);
        if invalid.Some? {
          FailureIsFinal(old(window), patches, size, k + 1);
          return false;
        }
        k := k + 1;
      }
      assert patches[..k] == patches;
      ok := true;
    }
  }

  /** Validates, copies, and publishes the copy only if every patch succeeded. */
  method Patched(window: PreparedWindow, patches: seq<Patch>, size: PreparedWindow -> nat) returns (r: Option<PreparedWindow>)
    ensures r.Some? <==> Valid_(window, size) && 0 < |patches| <= MAX_ITEMS && Through(window, patches, size).Some?
    ensures r.Some? ==> r == Through(window, patches, size) && Valid_(r.value, size)
  {
    var invalid := Validate(window, size);
    if invalid.Some? { return None; }
    var draft := new Draft(window);
    var ok := draft.ApplyPatches(patches, size);
    if !ok { return None; }
    r := Some(draft.window);
  }

  /** Every patch sequence that succeeds leaves a window in order with distinct identifiers and never
      touches what identifies its strategy or its sources. */
  lemma {:induction false} PatchesKeepWindows(window: PreparedWindow, patches: seq<Patch>, size: PreparedWindow -> nat)
    requires Valid_(window, size) && Through(window, patches, size).Some?
    ensures var after := Through(window, patches, size).value;
      && Valid_(after, size) && Distinct(WindowIds(after.items))
      && after == window.(items := after.items)
  {
    if patches != [] { PatchesKeepWindows(window, patches[..|patches| - 1], size); }
  }

  /** On a valid window, removals and moves of existing items can be refused only for a destination or
      a limit, never for what the window contains. */
  lemma OnlyLimitsRefuse(window: PreparedWindow, patch: Patch, size: PreparedWindow -> nat)
    requires Valid_(window, size) && (patch.Remove? || patch.Move?) && Apply(window.items, patch).Edited?
    ensures var after := window.(items := Apply(window.items, patch).items);
      Next(window, patch, size).None? <==> !WithinLimits(after, size)
  {
    RemoveAndMoveKeepOrder(window.items, patch, window.sourceRevisions);
  }
}
