/** Evaluation of blocks into prepared items, with needs, trace, identifiers and output budgets
    (rust/crates/zf-context/src/context.rs, `Evaluator::blocks`). */
module Blocks {
  import opened Base
  import opened Pointers
  import opened Views
  import opened Syntax
  import opened Evaluation

  datatype Item =
    | ItemGroup(id: string, title: string, items: seq<Item>)
    | Fragment(id: string, role: Role, format: Format, value: View, sources: set<string>)

  datatype Iteration = Iteration(blockId: string, index: nat)

  datatype Trace = Trace(
    id: string,
    blockId: string,
    path: string,
    sources: set<string>,
    iterations: seq<Iteration>,
    outputIds: seq<string>,
    outcome: Option<bool>)

  /** The evaluator's state: expression state, demands, and everything counted for the output. */
  datatype Run = Run(
    core: Core,
    needs: map<string, seq<string>>,
    outputBytes: nat,
    outputItems: nat,
    ids: set<string>,
    trace: seq<Trace>)

  /** Needs and reports are never withdrawn. */
  predicate Grew(w: World, a: Run, b: Run) {
    Later(w, a.core, b.core) && a.needs.Keys <= b.needs.Keys
  }

  function Report(run: Run): Run {
    run.(core := run.core.(diagnosed := true))
  }

  /** A missing resource becomes a need of the block at `path`; other failures have been reported. */
  function Demand(run: Run, failure: Access<()>, path: string): Run {
    if !failure.Missing? then run
    else
      var paths := if failure.name in run.needs then run.needs[failure.name] else [];
      run.(needs := run.needs[failure.name := if path in paths then paths else paths + [path]])
  }

  function Failure<T>(r: Access<T>): Access<()> {
    if r.Missing? then Missing(r.name) else Invalid
  }

  // ----- Identifiers -----

  function Longer(ids: set<string>, n: nat): set<string> {
    set x | x in ids && |x| >= n
  }

  lemma FewerLonger(ids: set<string>, id: string)
    requires id in ids
    ensures |Longer(ids, |id| + 1)| < |Longer(ids, |id|)|
  {
    var a, b := Longer(ids, |id| + 1), Longer(ids, |id|);
    assert a <= b - {id};
    SubsetSize(a, b - {id});
  }

  lemma {:induction false} SubsetSize(a: set<string>, b: set<string>)
    requires a <= b
    ensures |a| <= |b|
    decreases |a|
  {
    if a != {} {
      var x :| x in a;
      SubsetSize(a - {x}, b - {x});
    }
  }

  /** Appends underscores until the identifier is unused. */
  function Fresh(ids: set<string>, id: string): (r: string)
    ensures r !in ids && id <= r
    decreases |Longer(ids, |id|)|
  {
    if id in ids then
      FewerLonger(ids, id);
      Fresh(ids, id + "_")
    else id
  }

  /** Blocks outside every loop keep their authored identifier; occurrences inside get a new one. */
  function OccurrenceId(ids: set<string>, blockId: string, path: string, nested: bool): (string, set<string>) {
    if !nested then (blockId, ids)
    else
      var id := Fresh(ids, blockId + "@" + path);
      (id, ids + {id})
  }

  // ----- Blocks -----

  function At(path: string, index: nat): string {
    path + "[" + Decimal(index) + "]"
  }

  /** Counts one output item, or reports the item budget. */
  function CountOutput(w: World, run: Run): (bool, Run) {
    if run.outputItems >= w.limits.maxItems then (false, Report(run))
    else (true, run.(outputItems := run.outputItems + 1))
  }

  datatype Result = Result(items: seq<Item>, outcome: Option<bool>, run: Run)

  function ItemIds(items: seq<Item>): seq<string> {
    seq(|items|, i requires 0 <= i < |items| => items[i].id)
  }

  /** The fragment of an evaluated value, within the output budgets. */
  function Output(w: World, b: Block, id: string, v: View, run: Run): (r: Result)
    requires b.Emit?
    ensures Grew(w, run, r.run)
  {
    var bytes := MeasuredBytes(v, w.encode);
    var left := if run.outputBytes <= w.limits.maxBytes then w.limits.maxBytes - run.outputBytes else 0;
    if bytes > w.limits.maxBytes || bytes > left then Result([], None, Report(run))
    else
      var (ok, r) := CountOutput(w, run);
      if !ok then Result([], None, r)
      else Result([Fragment(id, b.role, b.format, v, r.core.used)], None, r.(outputBytes := r.outputBytes + bytes))
  }

  /** One block whose step, identifier and provenance scope are set up. */
  ghost function Body(w: World, env: Env, iterations: seq<Iteration>, b: Block, id: string, path: string, run: Run): (r: Result)
    ensures Grew(w, run, r.run)
    decreases Left(w, run.core), 2, 0
  {
    match b
    case Group(_, title, items) =>
      var (ok, r) := CountOutput(w, run);
      if !ok then Result([], None, r)
      else
        var (children, r1) := All(w, env, iterations, items, 0, path + ".items", [], r);
        Result([ItemGroup(id, title, children)], None, r1)
    case Emit(_, _, _, value) =>
      var o := Expression(w, env, value, run.core);
      var r := run.(core := o.st);
      if o.r.Ok? then Output(w, b, id, o.r.value, r) else Result([], None, Demand(r, Failure(o.r), path))
    case If(_, condition, yes, no) =>
      var o := Predicate(w, env, condition, run.core);
      var r := run.(core := o.st);
      if !o.r.Ok? then Result([], None, Demand(r, Failure(o.r), path))
      else
        var (items, r1) := All(w, env, iterations, if o.r.value then yes else no, 0,
          path + (if o.r.value then ".then" else ".else"), [], r);
        Result(items, Some(o.r.value), r1)
    case ForEach(_, value, item, items) =>
      var o := Expression(w, env, value, run.core);
      var r := run.(core := o.st);
      if !o.r.Ok? then Result([], None, Demand(r, Failure(o.r), path))
      else
        var n := Count(w, o.r.value, o.st);
        if !n.r.Ok? then Result([], None, run.(core := n.st))
        else
          var (out, r1) := Loop(w, env, iterations, b, o.r.value, n.r.value, 0, o.st.used, path, [], r);
          Result(out, None, r1)
  }

  /** One turn of a loop. */
  ghost function Turn(w: World, env: Env, iterations: seq<Iteration>, b: Block, v: View, i: nat,
    sources: set<string>, path: string, run: Run): (r: (seq<Item>, Run))
    requires b.ForEach?
    ensures Grew(w, run, r.1)
    decreases Left(w, run.core), 2, 0
  {
    All(w, Bind(env, b.item, v, sources), iterations + [Iteration(b.id, i)], b.items, 0,
      path + ".iterations[" + Decimal(i) + "].items", [], run)
  }

  ghost function Loop(w: World, env: Env, iterations: seq<Iteration>, b: Block, source: View, n: nat, i: nat,
    sources: set<string>, path: string, done: seq<Item>, run: Run): (r: (seq<Item>, Run))
    requires b.ForEach? && i <= n
    ensures Grew(w, run, r.1)
    decreases Left(w, run.core), 1, n - i
  {
    if i == n then (done, run)
    else
      var tick := Tick(w, run.core);
      var r := run.(core := tick.st);
      if !tick.r.Ok? || |r.trace| >= w.limits.maxItems then (done, Report(r))
      else
        var v := Index(source, i);
        if v.None? then Loop(w, env, iterations, b, source, n, i + 1, sources, path, done, r)
        else
          var (items, r1) := Turn(w, env, iterations, b, v.value, i, sources, path, r);
          Loop(w, env, iterations, b, source, n, i + 1, sources, path, done + items, r1)
  }

  /** What is recorded after a block. */
  function Record_(w: World, b: Block, id: string, path: string, iterations: seq<Iteration>, r: Result): Run {
    if |r.run.trace| < w.limits.maxItems then
      r.run.(trace := r.run.trace + [Trace(id, b.id, path, r.run.core.used, iterations, ItemIds(r.items), r.outcome)])
    else Report(r.run)
  }

  /** A list of blocks from position `i` on. */
  ghost function All(w: World, env: Env, iterations: seq<Iteration>, blocks: seq<Block>, i: nat, path: string,
    done: seq<Item>, run: Run): (r: (seq<Item>, Run))
    requires i <= |blocks|
    ensures Grew(w, run, r.1)
    decreases Left(w, run.core), 1, |blocks| - i
  {
    if i == |blocks| then (done, run)
    else
      var tick := Tick(w, run.core);
      var r := run.(core := tick.st);
      if !tick.r.Ok? then (done, r)
      else if |r.trace| >= w.limits.maxItems then (done, Report(r))
      else
        var b := One(w, env, iterations, blocks[i], At(path, i), r);
        All(w, env, iterations, blocks, i + 1, path, done + b.items, b.run)
  }

  /** One block: identifier, own provenance scope, evaluation, trace, provenance restored. */
  ghost function One(w: World, env: Env, iterations: seq<Iteration>, b: Block, path: string, run: Run): (r: Result)
    ensures Grew(w, run, r.run)
    decreases Left(w, run.core), 3, 0
  {
    var (id, ids) := OccurrenceId(run.ids, b.id, path, iterations != []);
    var before := run.core.used;
    var body := Body(w, env, iterations, b, id, path, run.(ids := ids, core := run.core.(used := {})));
    var r := Record_(w, b, id, path, iterations, body);
    Result(body.items, body.outcome, r.(core := r.core.(used := r.core.used + before)))
  }

  datatype Evaluated = Evaluated(items: seq<Item>, run: Run) {
    /** Nothing is missing and nothing was reported. */
    predicate Complete() { run.needs == map[] && !run.core.diagnosed }
  }

  const EMPTY := Core(0, 0, {}, {}, {}, false)

  /** The evaluation of an accepted program, with every authored identifier reserved. */
  ghost function Evaluation_(w: World, program: seq<Block>): Evaluated {
    var ids := set i | 0 <= i < |BlockIds(program)| :: BlockIds(program)[i];
    var (items, run) := All(w, Env(map[], map[]), [], program, 0, "program", [], Run(EMPTY, map[], 0, 0, ids, []));
    Evaluated(items, run)
  }
}
