/** The mutable walk behind `validate_type` (rust/crates/zf-core/src/types.rs), proved to accept
    exactly the types whose expansion is finite and within the limits. */
module TypeWalk {
  import opened Base
  import opened Types

  /** `name` occurs in the expansion of `t`. */
  predicate Mentions(t: DataType, types: Registry, levels: nat, name: string)
    requires Unfolds(t, types, levels)
    decreases levels
  {
    match t
    case Named(n) => n == name || Mentions(types[n], types, levels - 1, name)
    case Record(fs) => exists k | k in fs :: Mentions(fs[k], types, levels - 1, name)
    case List(item) => Mentions(item, types, levels - 1, name)
    case _ => false
  }

  /** No name under expansion reappears in the expansion of `t`. */
  ghost predicate Avoids(t: DataType, types: Registry, levels: nat, names: set<string>)
    requires Unfolds(t, types, levels)
  {
    forall n | n in names :: !Mentions(t, types, levels, n)
  }

  lemma {:induction false} FieldNodesRemove(fs: map<string, DataType>, keys: set<string>, k: string, types: Registry, levels: nat)
    requires k in keys && FieldsUnfold(fs, keys, types, levels)
    ensures levels > 0
    ensures FieldNodes(fs, keys, types, levels)
         == Nodes(fs[k], types, levels - 1) + FieldNodes(fs, keys - {k}, types, levels)
    decreases |keys|
  {
    assert levels > 0 && Unfolds(fs[k], types, levels - 1);
    var p :| p in keys && FieldNodes(fs, keys, types, levels)
                       == Nodes(fs[p], types, levels - 1) + FieldNodes(fs, keys - {p}, types, levels);
    if p != k {
      FieldNodesRemove(fs, keys - {p}, k, types, levels);
      FieldNodesRemove(fs, keys - {k}, p, types, levels);
      assert keys - {p} - {k} == keys - {k} - {p};
    }
  }

  /** More room changes neither finiteness nor the number of nodes. */
  lemma {:induction false} MoreLevels(t: DataType, types: Registry, levels: nat, more: nat)
    requires Unfolds(t, types, levels) && levels <= more
    ensures Unfolds(t, types, more) && Nodes(t, types, levels) == Nodes(t, types, more)
    decreases levels, 1, 0
  {
    match t
    case Named(n) => MoreLevels(types[n], types, levels - 1, more - 1);
    case Record(fs) =>
      forall k | k in fs ensures more > 0 && Unfolds(fs[k], types, more - 1) {
        MoreLevels(fs[k], types, levels - 1, more - 1);
      }
      MoreLevelsFields(fs, fs.Keys, types, levels, more);
    case List(item) => MoreLevels(item, types, levels - 1, more - 1);
    case _ =>
  }

  lemma {:induction false} MoreLevelsFields(fs: map<string, DataType>, keys: set<string>, types: Registry, levels: nat, more: nat)
    requires levels <= more && FieldsUnfold(fs, keys, types, levels) && FieldsUnfold(fs, keys, types, more)
    ensures FieldNodes(fs, keys, types, levels) == FieldNodes(fs, keys, types, more)
    decreases levels, 0, |keys|
  {
    if keys != {} {
      var k :| k in keys;
      FieldNodesRemove(fs, keys, k, types, levels);
      FieldNodesRemove(fs, keys, k, types, more);
      MoreLevels(fs[k], types, levels - 1, more - 1);
      MoreLevelsFields(fs, keys - {k}, types, levels, more);
    }
  }

  /** An expansion is at least as large as that of any name it mentions. */
  lemma {:induction false} MentionedIsSmaller(t: DataType, types: Registry, levels: nat, name: string)
    requires Unfolds(t, types, levels) && Mentions(t, types, levels, name)
    ensures Unfolds(Named(name), types, levels)
    ensures Nodes(Named(name), types, levels) <= Nodes(t, types, levels)
    decreases levels
  {
    match t
    case Named(n) =>
      if n != name {
        MentionedIsSmaller(types[n], types, levels - 1, name);
        MoreLevels(Named(name), types, levels - 1, levels);
      }
    case Record(fs) =>
      var k :| k in fs && Mentions(fs[k], types, levels - 1, name);
      MentionedIsSmaller(fs[k], types, levels - 1, name);
      MoreLevels(Named(name), types, levels - 1, levels);
      FieldNodesRemove(fs, fs.Keys, k, types, levels);
    case List(item) =>
      MentionedIsSmaller(item, types, levels - 1, name);
      MoreLevels(Named(name), types, levels - 1, levels);
  }

  /** A finite expansion is acyclic: a name never occurs inside its own definition. */
  lemma FiniteIsAcyclic(name: string, types: Registry, levels: nat)
    requires Unfolds(Named(name), types, levels)
    ensures !Mentions(types[name], types, levels - 1, name)
  {
    if Mentions(types[name], types, levels - 1, name) {
      MentionedIsSmaller(types[name], types, levels - 1, name);
      MoreLevels(Named(name), types, levels - 1, levels);
      assert false;
    }
  }

  class Walk {
    const types: Registry
    var visiting: set<string>
    var visited: nat
    var errors: nat

    constructor (types: Registry)
      ensures this.types == types && visiting == {} && visited == 0 && errors == 0
    {
      this.types := types;
      visiting, visited, errors := {}, 0, 0;
    }

    /** The node budget is exceeded only once it has been reported. */
    ghost predicate Valid()
      reads this
    {
      visited <= MAX_NODES + 1 && (visited == MAX_NODES + 1 ==> errors > 0)
    }

    /** What an error-free visit of `t` at `depth` needs. */
    ghost predicate Clean(t: DataType, depth: nat)
      reads this
    {
      && depth <= MAX_LEVELS && Unfolds(t, types, MAX_LEVELS - depth)
      && Avoids(t, types, MAX_LEVELS - depth, visiting)
      && visited + Nodes(t, types, MAX_LEVELS - depth) <= MAX_NODES
    }

    /** The same for the fields `keys` of a record at `depth`. */
    ghost predicate CleanFields(fs: map<string, DataType>, keys: set<string>, depth: nat)
      requires depth <= MAX_LEVELS
      reads this
    {
      && FieldsUnfold(fs, keys, types, MAX_LEVELS - depth)
      && (forall k | k in keys :: Avoids(fs[k], types, MAX_LEVELS - depth - 1, visiting))
      && visited + FieldNodes(fs, keys, types, MAX_LEVELS - depth) <= MAX_NODES
    }

    method Check(t: DataType, depth: nat)
      requires Valid() && depth <= MAX_LEVELS + 1
      modifies this
      ensures Valid() && visiting == old(visiting)
      ensures errors >= old(errors)
      ensures errors == 0 <==> old(errors) == 0 && old(Clean(t, depth))
      ensures errors == 0 ==> visited == old(visited) + Nodes(t, types, MAX_LEVELS - depth)
      decreases MAX_LEVELS + 1 - depth, 1, 0
    {
      if visited >= MAX_NODES {
        if visited == MAX_NODES {
          errors := errors + 1;
          visited := visited + 1;
        }
        return;
      }
      visited := visited + 1;
      if depth > MAX_LEVELS {
        errors := errors + 1;
        return;
      }
      match t
      case Named(name) =>
        if Blank(name) {
          errors := errors + 1;
          return;
        }
        if name in visiting {
          errors := errors + 1;
          assert Unfolds(t, types, MAX_LEVELS - depth) ==> Mentions(t, types, MAX_LEVELS - depth, name);
        } else {
          visiting := visiting + {name};
          if name in types {
            if Unfolds(t, types, MAX_LEVELS - depth) { FiniteIsAcyclic(name, types, MAX_LEVELS - depth); }
            Check(types[name], depth + 1);
          } else {
            errors := errors + 1;
          }
          visiting := visiting - {name};
          assert visiting == old(visiting);
        }
      case Record(fs) =>
        CheckFields(fs, depth);
      case List(item) =>
        Check(item, depth + 1);
      case Media(m) =>
        if Blank(m) { errors := errors + 1; }
      case _ =>
    }

    method CheckFields(fs: map<string, DataType>, depth: nat)
      requires Valid() && depth <= MAX_LEVELS
      modifies this
      ensures Valid() && visiting == old(visiting)
      ensures errors >= old(errors)
      ensures errors == 0 <==> old(errors) == 0 && old(CleanFields(fs, fs.Keys, depth))
      ensures errors == 0 ==> visited == old(visited) + FieldNodes(fs, fs.Keys, types, MAX_LEVELS - depth)
      decreases MAX_LEVELS + 1 - depth, 0, 0
    {
      var done: set<string> := {};
      while fs.Keys - done != {}
        invariant Valid() && visiting == old(visiting) && errors >= old(errors) && done <= fs.Keys
        invariant errors == 0 ==>
          old(errors) == 0 && FieldsUnfold(fs, done, types, MAX_LEVELS - depth)
          && (forall k | k in done :: Avoids(fs[k], types, MAX_LEVELS - depth - 1, visiting))
          && visited == old(visited) + FieldNodes(fs, done, types, MAX_LEVELS - depth)
        invariant old(errors) == 0 && errors != 0 ==> !old(CleanFields(fs, fs.Keys, depth))
        invariant errors == 0 ==> visited <= MAX_NODES
        decreases fs.Keys - done
      {
        var k :| k in fs.Keys - done;
        ghost var seen := done + {k};
        if old(CleanFields(fs, fs.Keys, depth)) && errors == 0 {
          FieldNodesRemove(fs, seen, k, types, MAX_LEVELS - depth);
          FieldNodesGrow(fs, seen, fs.Keys, types, MAX_LEVELS - depth);
          assert seen - {k} == done;
        }
        Check(fs[k], depth + 1);
        if errors == 0 {
          FieldNodesRemove(fs, seen, k, types, MAX_LEVELS - depth);
          assert seen - {k} == done;
        }
        done := done + {k};
        if visited > MAX_NODES { break; }
      }
      assert errors == 0 ==> done == fs.Keys;
    }
  }

  lemma {:induction false} FieldNodesGrow(fs: map<string, DataType>, some: set<string>, keys: set<string>, types: Registry, levels: nat)
    requires some <= keys && FieldsUnfold(fs, keys, types, levels)
    ensures FieldNodes(fs, some, types, levels) <= FieldNodes(fs, keys, types, levels)
    decreases |keys|
  {
    if keys - some == {} {
      assert some == keys;
    } else {
      var k :| k in keys - some;
      FieldNodesRemove(fs, keys, k, types, levels);
      FieldNodesGrow(fs, some, keys - {k}, types, levels);
    }
  }

  /** `validate_type` succeeds exactly on the types with a finite expansion of at most 64 levels and
      4096 nodes, whatever the order in which record fields are visited. */
  method ValidateType(t: DataType, types: Registry) returns (ok: bool)
    ensures ok <==> TypeOk(t, types)
  {
    var walk := new Walk(types);
    walk.Check(t, 0);
    ok := walk.errors == 0;
  }
}
