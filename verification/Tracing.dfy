/** What an evaluation says about itself: every need points at blocks that were evaluated, showed nothing
    and had asked for the missing resource, and every block's trace entry tells what became of it
    (rust/crates/zf-context/src/context.rs, `Evaluator::demand`, `blocks`). */
module Tracing {
  import opened Base
  import opened Pointers
  import opened Views
  import opened Syntax
  import opened Typing
  import opened Acceptance
  import opened Evaluation
  import opened Blocks
  import opened Meaning
  import opened OperationsSound
  import opened Soundness
  import opened Showing
  import opened SourcesSuffice

  // ----- Needs -----

  /** The block at `path` was evaluated, asked for `name` and showed nothing. */
  predicate Asked(trace: seq<Trace>, path: string, name: string) {
    exists k :: 0 <= k < |trace| && trace[k].path == path && name in trace[k].sources && trace[k].outputIds == []
  }

  /** Each need names at least one block, each block once, and only blocks that asked for it. */
  ghost predicate NeedsTraced(run: Run) {
    forall n | n in run.needs :: run.needs[n] != [] && Distinct(run.needs[n]) && forall p | p in run.needs[n] :: Asked(run.trace, p, n)
  }

  /** The same, but for a block that is still being evaluated and shows nothing. */
  ghost predicate NeedsKnown(run: Run, path: string, silent: bool) {
    forall n | n in run.needs ::
      && run.needs[n] != [] && Distinct(run.needs[n])
      && forall p | p in run.needs[n] :: Asked(run.trace, p, n) || (p == path && silent && n in run.core.used)
  }

  /** From `a` to `b` the trace grew; if nothing was reported, the needs are traced. */
  ghost predicate Follows(a: Run, b: Run) {
    !b.core.diagnosed && NeedsTraced(a) ==> NeedsTraced(b) && a.trace <= b.trace
  }

  lemma AskedLater(trace: seq<Trace>, more: seq<Trace>, path: string, name: string)
    requires Asked(trace, path, name) && trace <= more
    ensures Asked(more, path, name)
  {
    var k :| 0 <= k < |trace| && trace[k].path == path && name in trace[k].sources && trace[k].outputIds == [];
    assert more[k] == trace[k];
  }

  lemma FollowsTwice(w: World, a: Run, b: Run, c: Run)
    requires Follows(a, b) && Follows(b, c) && Grew(w, b, c)
    ensures Follows(a, c)
  {
  }

  /** A failed evaluation asks on behalf of its block. */
  lemma DemandKnown(run: Run, o: Out<()>, path: string)
    requires NeedsTraced(run) && (o.r.Missing? ==> o.r.name in o.st.used)
    ensures NeedsKnown(Demand(run.(core := o.st), o.r, path), path, true)
  {
    if o.r.Missing? {
      var name := o.r.name;
      var paths := if name in run.needs then run.needs[name] else [];
      var after := Demand(run.(core := o.st), o.r, path);
      assert after.needs[name] == if path in paths then paths else paths + [path];
      forall n | n in after.needs
        ensures after.needs[n] != [] && Distinct(after.needs[n])
          && forall p | p in after.needs[n] :: Asked(after.trace, p, n) || (p == path && n in after.core.used)
      {
        if n != name { assert n in run.needs && after.needs[n] == run.needs[n]; }
      }
    }
  }

  /** Recording the block settles what it asked for. */
  lemma RecordTraces(w: World, b: Block, id: string, path: string, its: seq<Iteration>, r: Result)
    requires NeedsKnown(r.run, path, r.items == []) && |r.run.trace| < w.limits.maxItems
    ensures NeedsTraced(Record_(w, b, id, path, its, r))
  {
    var after := Record_(w, b, id, path, its, r);
    forall n, p | n in after.needs && p in after.needs[n] ensures Asked(after.trace, p, n) {
      if Asked(r.run.trace, p, n) {
        AskedLater(r.run.trace, after.trace, p, n);
      } else {
        assert after.trace[|r.run.trace|].path == path;
      }
    }
  }

  /** A block's body leaves at most the block itself to be traced. */
  ghost predicate BodyFollows(a: Run, r: Result, path: string) {
    !r.run.core.diagnosed && NeedsTraced(a) ==> NeedsKnown(r.run, path, r.items == []) && a.trace <= r.run.trace
  }

  lemma {:induction false} AllFollow(w: World, env: Env, its: seq<Iteration>, blocks: seq<Block>, i: nat, path: string, done: seq<Item>, run: Run)
    requires i <= |blocks|
    ensures Follows(run, All(w, env, its, blocks, i, path, done, run).1)
    decreases Left(w, run.core), 1, |blocks| - i
  {
    if i < |blocks| {
      var tick := Tick(w, run.core);
      var r := run.(core := tick.st);
      if tick.r.Ok? && |r.trace| < w.limits.maxItems {
        var b := One(w, env, its, blocks[i], At(path, i), r);
        OneFollows(w, env, its, blocks[i], At(path, i), r);
        AllFollow(w, env, its, blocks, i + 1, path, done + b.items, b.run);
        FollowsTwice(w, r, b.run, All(w, env, its, blocks, i + 1, path, done + b.items, b.run).1);
      }
    }
  }

  lemma {:induction false} OneFollows(w: World, env: Env, its: seq<Iteration>, b: Block, path: string, run: Run)
    ensures Follows(run, One(w, env, its, b, path, run).run)
    decreases Left(w, run.core), 3, 0
  {
    var (id, ids) := OccurrenceId(run.ids, b.id, path, its != []);
    var inner := run.(ids := ids, core := run.core.(used := {}));
    BodyFollowed(w, env, its, b, id, path, inner);
    var body := Body(w, env, its, b, id, path, inner);
    if NeedsTraced(run) && !One(w, env, its, b, path, run).run.core.diagnosed { RecordTraces(w, b, id, path, its, body); }
  }

  lemma {:induction false} BodyFollowed(w: World, env: Env, its: seq<Iteration>, b: Block, id: string, path: string, run: Run)
    ensures BodyFollows(run, Body(w, env, its, b, id, path, run), path)
    decreases Left(w, run.core), 2, 1
  {
    match b
    case Group(_, _, items) =>
      var (ok, r) := CountOutput(w, run);
      if ok { AllFollow(w, env, its, items, 0, path + ".items", [], r); }
    case Emit(_, _, _, value) => EmitFollows(w, env, its, b, id, path, run);
    case If(_, _, _, _) => IfFollows(w, env, its, b, id, path, run);
    case ForEach(_, _, _, _) => ForEachFollows(w, env, its, b, id, path, run);
  }

  lemma EmitFollows(w: World, env: Env, its: seq<Iteration>, b: Block, id: string, path: string, run: Run)
    requires b.Emit?
    ensures BodyFollows(run, Body(w, env, its, b, id, path, run), path)
  {
    ExpressionKeeps(w, env, b.value, run.core);
    var o := Expression(w, env, b.value, run.core);
    if !o.r.Ok? && NeedsTraced(run) { DemandKnown(run, Out(Failure(o.r), o.st), path); }
  }

  lemma {:induction false} IfFollows(w: World, env: Env, its: seq<Iteration>, b: Block, id: string, path: string, run: Run)
    requires b.If?
    ensures BodyFollows(run, Body(w, env, its, b, id, path, run), path)
    decreases Left(w, run.core), 2, 0
  {
    PredicateKeeps(w, env, b.condition, run.core);
    var o := Predicate(w, env, b.condition, run.core);
    var r := run.(core := o.st);
    if o.r.Ok? {
      AllFollow(w, env, its, if o.r.value then b.yes else b.no, 0, path + (if o.r.value then ".then" else ".else"), [], r);
    } else if NeedsTraced(run) {
      DemandKnown(run, Out(Failure(o.r), o.st), path);
    }
  }

  lemma {:induction false} ForEachFollows(w: World, env: Env, its: seq<Iteration>, b: Block, id: string, path: string, run: Run)
    requires b.ForEach?
    ensures BodyFollows(run, Body(w, env, its, b, id, path, run), path)
    decreases Left(w, run.core), 2, 0
  {
    ExpressionKeeps(w, env, b.value, run.core);
    var o := Expression(w, env, b.value, run.core);
    var r := run.(core := o.st);
    if o.r.Ok? {
      var n := Count(w, o.r.value, o.st);
      if n.r.Ok? { LoopFollows(w, env, its, b, o.r.value, n.r.value, 0, o.st.used, path, [], r); }
    } else if NeedsTraced(run) {
      DemandKnown(run, Out(Failure(o.r), o.st), path);
    }
  }

  lemma {:induction false} LoopFollows(w: World, env: Env, its: seq<Iteration>, b: Block, source: View, n: nat, i: nat,
    sources: set<string>, path: string, done: seq<Item>, run: Run)
    requires b.ForEach? && i <= n
    ensures Follows(run, Loop(w, env, its, b, source, n, i, sources, path, done, run).1)
    decreases Left(w, run.core), 1, n - i
  {
    if i < n {
      var tick := Tick(w, run.core);
      var r := run.(core := tick.st);
      if tick.r.Ok? && |r.trace| < w.limits.maxItems {
        var x := Index(source, i);
        if x.None? {
          LoopFollows(w, env, its, b, source, n, i + 1, sources, path, done, r);
        } else {
          var (xs, r1) := Turn(w, env, its, b, x.value, i, sources, path, r);
          AllFollow(w, Bind(env, b.item, x.value, sources), its + [Iteration(b.id, i)], b.items, 0,
            path + ".iterations[" + Decimal(i) + "].items", [], r);
          LoopFollows(w, env, its, b, source, n, i + 1, sources, path, done + xs, r1);
          FollowsTwice(w, r, r1, Loop(w, env, its, b, source, n, i + 1, sources, path, done + xs, r1).1);
        }
      }
    }
  }

  /** Unless a report ended it early, every need of an evaluation names the blocks that asked for the
      missing resource, each once, and no other; those blocks showed nothing. */
  lemma NeedsAreTraced(w: World, program: seq<Block>)
    ensures var run := Evaluation_(w, program).run; !run.core.diagnosed ==> NeedsTraced(run)
  {
    var ids := set i | 0 <= i < |BlockIds(program)| :: BlockIds(program)[i];
    AllFollow(w, Env(map[], map[]), [], program, 0, "program", [], Run(EMPTY, map[], 0, 0, ids, []));
  }

  // ----- Trace entries -----

  /** The outcome that a block has in the trace: that of its condition, if it has one and it was decided. */
  ghost function OutcomeOf(b: Basis, calls: nat, env: Values, block: Block): Option<bool> {
    if block.If? && Truth(b, calls, env, block.condition).Ok? then Some(Truth(b, calls, env, block.condition).value) else None
  }

  /** The last entry after a block is its own: its place, the identifiers of what it shows, and for a
      conditional block which way its condition went. Earlier entries stay. */
  lemma LastEntryTells(w: World, env: Env, scope: Scope, its: seq<Iteration>, b: Block, path: string, run: Run, order: seq<Key>, calls: nat)
    requires Stage(w, env, scope, run, order, calls) && BlockOk(w.g, scope, b) && Within(BlockCalls(b), order)
    requires NeedsTraced(run) && !One(w, env, its, b, path, run).run.core.diagnosed
    ensures var r := One(w, env, its, b, path, run);
      && r.run.trace != [] && run.trace <= r.run.trace[..|r.run.trace| - 1]
      && var last := r.run.trace[|r.run.trace| - 1];
         && last.blockId == b.id && last.path == path && last.iterations == its && last.outputIds == ItemIds(r.items)
         && last.outcome == OutcomeOf(BasisOf(w), calls, DenoteMap(env.values), b)
         && forall x | x in r.items && x.Fragment? && b.Emit? :: x.id == last.id && x.sources == last.sources
  {
    var (id, ids) := OccurrenceId(run.ids, b.id, path, its != []);
    var inner := run.(ids := ids, core := run.core.(used := {}));
    BodyFollowed(w, env, its, b, id, path, inner);
    var body := Body(w, env, its, b, id, path, inner);
    var r := Record_(w, b, id, path, its, body);
    assert r.trace[..|r.trace| - 1] == body.run.trace;
    OutcomeTold(w, env, scope, its, b, id, path, inner, order, calls);
  }

  lemma OutcomeTold(w: World, env: Env, scope: Scope, its: seq<Iteration>, b: Block, id: string, path: string, run: Run, order: seq<Key>, calls: nat)
    requires Stage(w, env, scope, run, order, calls) && BlockOk(w.g, scope, b) && Within(BlockCalls(b), order)
    requires !Body(w, env, its, b, id, path, run).run.core.diagnosed
    ensures Body(w, env, its, b, id, path, run).outcome == OutcomeOf(BasisOf(w), calls, DenoteMap(env.values), b)
  {
    if b.If? { PredicateMeans(w, env, scope, false, b.condition, run.core, order, calls); }
  }
}
