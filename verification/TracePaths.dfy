/** Paths identify occurrences: in no evaluation do two trace entries have the same path
    (rust/crates/zf-context/src/context.rs, `Evaluator::blocks`). */
module TracePaths {
  import opened Pointers
  import opened Views
  import opened Syntax
  import opened Evaluation
  import opened Blocks

  // ----- Places -----

  /** A path that goes through one position of a list goes through no other. */
  lemma OnePosition(path: string, j: nat, k: nat, p: string)
    requires At(path, j) <= p && At(path, k) <= p
    ensures j == k
  {
    var a, b := Decimal(j), Decimal(k);
    if |a| <= |b| { ShorterIsSame(path, a, b, p); } else { ShorterIsSame(path, b, a, p); }
    IndexRoundTrip(j);
    IndexRoundTrip(k);
  }

  lemma ShorterIsSame(path: string, a: string, b: string, p: string)
    requires |a| <= |b| && forall i | 0 <= i < |b| :: IsDigit(b[i])
    requires path + "[" + a + "]" <= p && path + "[" + b + "]" <= p
    ensures a == b
  {
    var x, y, n := path + "[" + a + "]", path + "[" + b + "]", |path| + 1;
    assert a == x[n..n + |a|] == p[n..n + |a|] && b[..|a|] == y[n..n + |a|] == p[n..n + |a|];
    assert x[n + |a|] == ']' == p[n + |a|];
    assert forall i | 0 <= i < |b| :: y[n + i] == b[i];
  }

  lemma PrefixTwice(a: string, b: string, c: string)
    requires a <= b && b <= c
    ensures a <= c
  {
  }

  // ----- Entries -----

  predicate DistinctPaths(ts: seq<Trace>) {
    forall i, j | 0 <= i < j < |ts| :: ts[i].path != ts[j].path
  }

  /** Every entry lies below `prefix`. */
  predicate AllBelow(ts: seq<Trace>, prefix: string) {
    forall k | 0 <= k < |ts| :: prefix <= ts[k].path
  }

  /** Every entry lies at one of the positions of `path` from `i` on. */
  ghost predicate AllFrom(ts: seq<Trace>, path: string, i: nat) {
    forall k | 0 <= k < |ts| :: exists j :: i <= j && At(path, j) <= ts[k].path
  }

  /** From `a` to `b` the trace grew by entries of distinct paths at positions of `path` from `i` on. */
  ghost predicate GrewFrom(a: Run, b: Run, path: string, i: nat) {
    a.trace <= b.trace && var more := b.trace[|a.trace|..]; DistinctPaths(more) && AllFrom(more, path, i)
  }

  /** From `a` to `b` the trace grew by entries of distinct paths below `prefix`. */
  predicate GrewBelow(a: Run, b: Run, prefix: string) {
    a.trace <= b.trace && var more := b.trace[|a.trace|..]; DistinctPaths(more) && AllBelow(more, prefix)
  }

  lemma GrewNothing(a: Run, b: Run, path: string, i: nat)
    requires b.trace == a.trace
    ensures GrewFrom(a, b, path, i) && GrewBelow(a, b, path)
  {
  }

  /** What lies at positions lies below the list. */
  lemma FromIsBelow(a: Run, b: Run, path: string, i: nat)
    requires GrewFrom(a, b, path, i)
    ensures GrewBelow(a, b, path)
  {
    var more := b.trace[|a.trace|..];
    forall k | 0 <= k < |more| ensures path <= more[k].path {
      var j :| i <= j && At(path, j) <= more[k].path;
      PrefixTwice(path, At(path, j), more[k].path);
    }
  }

  lemma BelowMore(a: Run, b: Run, prefix: string, shorter: string)
    requires GrewBelow(a, b, prefix) && shorter <= prefix
    ensures GrewBelow(a, b, shorter)
  {
    var more := b.trace[|a.trace|..];
    forall k | 0 <= k < |more| ensures shorter <= more[k].path { PrefixTwice(shorter, prefix, more[k].path); }
  }

  /** What lies at the position `i`, followed by what lies at later ones. */
  lemma GrewOn(a: Run, b: Run, c: Run, path: string, i: nat)
    requires GrewBelow(a, b, At(path, i)) && GrewFrom(b, c, path, i + 1)
    ensures GrewFrom(a, c, path, i)
  {
    var x, y, z := b.trace[|a.trace|..], c.trace[|b.trace|..], c.trace[|a.trace|..];
    assert z == x + y by { assert c.trace == b.trace + y && b.trace == a.trace + x; }
    forall k | 0 <= k < |z| ensures exists j :: i <= j && At(path, j) <= z[k].path {
      if k < |x| {
        assert At(path, i) <= z[k].path;
      } else {
        var j :| i + 1 <= j && At(path, j) <= y[k - |x|].path;
        assert At(path, j) <= z[k].path;
      }
    }
    forall k, l | 0 <= k < l < |z| ensures z[k].path != z[l].path {
      if k < |x| <= l {
        var j :| i + 1 <= j && At(path, j) <= y[l - |x|].path;
        if z[k].path == z[l].path { OnePosition(path, i, j, z[k].path); }
      }
    }
  }

  /** The children's entries, all strictly below the block, followed by its own. */
  lemma OwnEntry(a: Run, b: Run, path: string, entry: Trace)
    requires GrewBelow(a, b, path + ".") && entry.path == path
    ensures GrewBelow(a, b.(trace := b.trace + [entry]), path)
  {
    var c := b.(trace := b.trace + [entry]);
    var x, z := b.trace[|a.trace|..], c.trace[|a.trace|..];
    assert z == x + [entry];
    forall k | 0 <= k < |x| ensures path <= x[k].path && x[k].path != path { PrefixTwice(path, path + ".", x[k].path); }
  }

  // ----- The traversal -----

  lemma {:induction false} AllPaths(w: World, env: Env, its: seq<Iteration>, blocks: seq<Block>, i: nat, path: string, done: seq<Item>, run: Run)
    requires i <= |blocks|
    ensures GrewFrom(run, All(w, env, its, blocks, i, path, done, run).1, path, i)
    decreases Left(w, run.core), 1, |blocks| - i
  {
    var last := All(w, env, its, blocks, i, path, done, run).1;
    if i == |blocks| {
      GrewNothing(run, last, path, i);
    } else {
      var tick := Tick(w, run.core);
      var r := run.(core := tick.st);
      if tick.r.Ok? && |r.trace| < w.limits.maxItems {
        var b := One(w, env, its, blocks[i], At(path, i), r);
        OnePaths(w, env, its, blocks[i], At(path, i), r);
        AllPaths(w, env, its, blocks, i + 1, path, done + b.items, b.run);
        GrewOn(r, b.run, last, path, i);
      } else {
        GrewNothing(run, last, path, i);
      }
    }
  }

  lemma {:induction false} OnePaths(w: World, env: Env, its: seq<Iteration>, b: Block, path: string, run: Run)
    ensures GrewBelow(run, One(w, env, its, b, path, run).run, path)
    decreases Left(w, run.core), 3, 0
  {
    var (id, ids) := OccurrenceId(run.ids, b.id, path, its != []);
    var inner := run.(ids := ids, core := run.core.(used := {}));
    BodyPaths(w, env, its, b, id, path, inner);
    var body := Body(w, env, its, b, id, path, inner);
    var entry := Trace(id, b.id, path, body.run.core.used, its, ItemIds(body.items), body.outcome);
    OwnEntry(inner, body.run, path, entry);
    BelowMore(inner, body.run, path + ".", path);
  }

  lemma {:induction false} BodyPaths(w: World, env: Env, its: seq<Iteration>, b: Block, id: string, path: string, run: Run)
    ensures GrewBelow(run, Body(w, env, its, b, id, path, run).run, path + ".")
    decreases Left(w, run.core), 2, 1
  {
    var last := Body(w, env, its, b, id, path, run).run;
    match b
    case Group(_, _, items) =>
      var (ok, r) := CountOutput(w, run);
      if ok { ListPaths(w, env, its, items, path, ".items", r); } else { GrewNothing(run, last, path + ".", 0); }
    case Emit(_, _, _, _) =>
      EmitTrace(w, env, its, b, id, path, run);
      GrewNothing(run, last, path + ".", 0);
    case If(_, condition, yes, no) =>
      var o := Predicate(w, env, condition, run.core);
      var r := run.(core := o.st);
      if !o.r.Ok? {
        GrewNothing(run, last, path + ".", 0);
      } else if o.r.value {
        ListPaths(w, env, its, yes, path, ".then", r);
      } else {
        ListPaths(w, env, its, no, path, ".else", r);
      }
    case ForEach(_, _, _, _) => ForEachPaths(w, env, its, b, id, path, run);
  }

  lemma EmitTrace(w: World, env: Env, its: seq<Iteration>, b: Block, id: string, path: string, run: Run)
    requires b.Emit?
    ensures Body(w, env, its, b, id, path, run).run.trace == run.trace
  {
  }

  /** A list of blocks below a block. */
  lemma {:induction false} ListPaths(w: World, env: Env, its: seq<Iteration>, blocks: seq<Block>, path: string, name: string, run: Run)
    requires name != "" && name[0] == '.'
    ensures GrewBelow(run, All(w, env, its, blocks, 0, path + name, [], run).1, path + ".")
    decreases Left(w, run.core), 2, 0
  {
    var last := All(w, env, its, blocks, 0, path + name, [], run).1;
    AllPaths(w, env, its, blocks, 0, path + name, [], run);
    FromIsBelow(run, last, path + name, 0);
    assert path + "." <= path + name;
    BelowMore(run, last, path + name, path + ".");
  }

  lemma {:induction false} ForEachPaths(w: World, env: Env, its: seq<Iteration>, b: Block, id: string, path: string, run: Run)
    requires b.ForEach?
    ensures GrewBelow(run, Body(w, env, its, b, id, path, run).run, path + ".")
    decreases Left(w, run.core), 2, 0
  {
    var last := Body(w, env, its, b, id, path, run).run;
    var o := Expression(w, env, b.value, run.core);
    var r := run.(core := o.st);
    if o.r.Ok? && Count(w, o.r.value, o.st).r.Ok? {
      var n := Count(w, o.r.value, o.st).r.value;
      LoopPaths(w, env, its, b, o.r.value, n, 0, o.st.used, path, [], r);
      FromIsBelow(r, last, path + ".iterations", 0);
      assert path + "." <= path + ".iterations";
      BelowMore(r, last, path + ".iterations", path + ".");
    } else {
      GrewNothing(run, last, path + ".", 0);
    }
  }

  lemma {:induction false} LoopPaths(w: World, env: Env, its: seq<Iteration>, b: Block, source: View, n: nat, i: nat,
    sources: set<string>, path: string, done: seq<Item>, run: Run)
    requires b.ForEach? && i <= n
    ensures GrewFrom(run, Loop(w, env, its, b, source, n, i, sources, path, done, run).1, path + ".iterations", i)
    decreases Left(w, run.core), 1, n - i
  {
    var last := Loop(w, env, its, b, source, n, i, sources, path, done, run).1;
    var tick := Tick(w, run.core);
    var r := run.(core := tick.st);
    if i == n || !tick.r.Ok? || |r.trace| >= w.limits.maxItems {
      GrewNothing(run, last, path + ".iterations", i);
    } else if Index(source, i).None? {
      LoopPaths(w, env, its, b, source, n, i + 1, sources, path, done, r);
      GrewNothing(run, r, At(path + ".iterations", i), i);
      GrewOn(run, r, last, path + ".iterations", i);
    } else {
      var (xs, r1) := Turn(w, env, its, b, Index(source, i).value, i, sources, path, r);
      TurnPaths(w, env, its, b, Index(source, i).value, i, sources, path, r);
      LoopPaths(w, env, its, b, source, n, i + 1, sources, path, done + xs, r1);
      GrewOn(r, r1, last, path + ".iterations", i);
    }
  }

  lemma {:induction false} TurnPaths(w: World, env: Env, its: seq<Iteration>, b: Block, v: View, i: nat, sources: set<string>, path: string, run: Run)
    requires b.ForEach?
    ensures GrewBelow(run, Turn(w, env, its, b, v, i, sources, path, run).1, At(path + ".iterations", i))
    decreases Left(w, run.core), 2, 0
  {
    var last := Turn(w, env, its, b, v, i, sources, path, run).1;
    var inner := path + ".iterations[" + Decimal(i) + "].items";
    AllPaths(w, Bind(env, b.item, v, sources), its + [Iteration(b.id, i)], b.items, 0, inner, [], run);
    FromIsBelow(run, last, inner, 0);
    assert inner == At(path + ".iterations", i) + ".items";
    BelowMore(run, last, inner, At(path + ".iterations", i));
  }

  /** No two trace entries of an evaluation have the same path. */
  lemma PathsIdentifyOccurrences(w: World, program: seq<Block>)
    ensures DistinctPaths(Evaluation_(w, program).run.trace)
  {
    var ids := set i | 0 <= i < |BlockIds(program)| :: BlockIds(program)[i];
    var start := Run(EMPTY, map[], 0, 0, ids, []);
    AllPaths(w, Env(map[], map[]), [], program, 0, "program", [], start);
    var trace := Evaluation_(w, program).run.trace;
    assert trace[0..] == trace;
  }
}
