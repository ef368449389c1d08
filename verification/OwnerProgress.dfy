/** Launch tasks always come to an end (rust/crates/zf-execution/src/service.rs, `launch`,
    `wait_idle`): once nothing launches the run any more, every interleaving is finite, and when it can
    go no further no task is left. */
module OwnerProgress {
  import opened Base
  import opened OwnerProtocol

  // ----- What is still to be done -----

  /** Tasks that may yet own the run and finish, apart from `o`. */
  function Ahead(s: State, o: Option<Task>): set<Task> {
    set u | u in s.tasks && u !in s.finished && o != Some(u)
  }

  /** An upper bound on the steps that `t` still takes: a retry needs another owner that finishes. */
  function Weight(s: State, t: Task): nat
    requires t in s.tasks
  {
    match s.tasks[t]
    case Looking => 6 * |Ahead(s, None)|
    case Sending(o) => 6 * |Ahead(s, Some(o))| + 3
    case Sent(o) => 6 * |Ahead(s, Some(o))| + 2
    case Refused(o) => 6 * |Ahead(s, Some(o))| + 1
    case Accepted(_) => 1
    case Executing => if t in s.open then 5 else 4
    case Persisted => if t in s.open then 4 else 3
    case Removed => 2
    case Finished => 1
    case Exited => 0
  }

  ghost function Total(s: State, ts: set<Task>): nat
    requires ts <= s.tasks.Keys
  {
    if ts == {} then 0
    else
      var t :| t in ts;
      Weight(s, t) + Total(s, ts - {t})
  }

  ghost function Potential(s: State): nat { Total(s, s.tasks.Keys) }

  lemma {:induction false} TotalSplit(s: State, ts: set<Task>, t: Task)
    requires ts <= s.tasks.Keys && t in ts
    ensures Total(s, ts) == Weight(s, t) + Total(s, ts - {t})
    decreases |ts|
  {
    var u :| u in ts && Total(s, ts) == Weight(s, u) + Total(s, ts - {u});
    if u != t {
      TotalSplit(s, ts - {u}, t);
      TotalSplit(s, ts - {t}, u);
      assert ts - {u} - {t} == ts - {t} - {u};
    }
  }

  lemma {:induction false} TotalFalls(s: State, r: State, ts: set<Task>)
    requires ts <= s.tasks.Keys && ts <= r.tasks.Keys && forall u | u in ts :: Weight(r, u) <= Weight(s, u)
    ensures Total(r, ts) <= Total(s, ts)
    decreases |ts|
  {
    if ts != {} {
      var u :| u in ts;
      TotalSplit(s, ts, u);
      TotalSplit(r, ts, u);
      TotalFalls(s, r, ts - {u});
    }
  }

  /** If no task has more to do and one has less, the whole has less. */
  lemma PotentialFalls(s: State, r: State, t: Task)
    requires r.tasks.Keys == s.tasks.Keys && t in s.tasks && Weight(r, t) < Weight(s, t)
    requires forall u | u in s.tasks && u != t :: Weight(r, u) <= Weight(s, u)
    ensures Potential(r) < Potential(s)
  {
    TotalSplit(s, s.tasks.Keys, t);
    TotalSplit(r, s.tasks.Keys, t);
    TotalFalls(s, r, s.tasks.Keys - {t});
  }

  // ----- Every step spends some of it -----

  lemma SubsetSize(a: set<Task>, b: set<Task>)
    requires a <= b
    ensures |a| <= |b|
  {
    assert b == a + (b - a);
  }

  /** What finishing does to the others: less is ahead of them. */
  lemma LessAhead(s: State, r: State, o: Option<Task>)
    requires r.tasks.Keys == s.tasks.Keys && s.finished <= r.finished
    ensures |Ahead(r, o)| <= |Ahead(s, o)|
  {
    SubsetSize(Ahead(r, o), Ahead(s, o));
  }

  lemma OthersSpend(s: State, r: State, u: Task)
    requires r.tasks.Keys == s.tasks.Keys && s.finished <= r.finished && u in s.tasks && r.tasks[u] == s.tasks[u]
    requires u in r.open ==> u in s.open
    ensures Weight(r, u) <= Weight(s, u)
  {
    match s.tasks[u]
    case Looking => LessAhead(s, r, None);
    case Sending(o) => LessAhead(s, r, Some(o));
    case Sent(o) => LessAhead(s, r, Some(o));
    case Refused(o) => LessAhead(s, r, Some(o));
    case _ =>
  }

  /** A task that finds an owner has one fewer to wait for afterwards. */
  lemma LookSpends(s: State, t: Task)
    requires Inv(s) && Next(s, Look(t)).Some?
    ensures Weight(Next(s, Look(t)).value, t) < Weight(s, t)
  {
    var r := Next(s, Look(t)).value;
    assert PhaseOk(s, t, Looking);
    if s.owner.Some? {
      var o := s.owner.value;
      assert PhaseOk(s, o, s.tasks[o]);
      assert Ahead(s, None) == Ahead(r, Some(o)) + {o} && o !in Ahead(r, Some(o));
    } else {
      assert t in Ahead(s, None);
    }
  }

  /** The one that refused has finished and is no longer ahead. */
  lemma RetrySpends(s: State, t: Task)
    requires Next(s, Retry(t)).Some?
    ensures Weight(Next(s, Retry(t)).value, t) < Weight(s, t)
  {
    var r, o := Next(s, Retry(t)).value, s.tasks[t].to;
    assert Ahead(r, None) == Ahead(s, Some(o));
  }

  lemma SameAhead(s: State, r: State, o: Option<Task>)
    requires r.tasks.Keys == s.tasks.Keys && s.finished == r.finished
    ensures Ahead(r, o) == Ahead(s, o)
  {
  }

  /** Closing a channel moves what was sent through it one step on. */
  lemma CloseSpends(s: State, o: Task, u: Task)
    requires Inv(s) && Next(s, Close(o)).Some? && u in s.tasks
    ensures var r := Next(s, Close(o)).value; if u == o then Weight(r, u) < Weight(s, u) else Weight(r, u) <= Weight(s, u)
  {
    var r := Next(s, Close(o)).value;
    if s.tasks[u] == Sent(o) { SameAhead(s, r, Some(o)); } else { if u != o { OthersSpend(s, r, u); } }
  }

  /** A request goes from sending to sent to refused or accepted. */
  lemma RequestSpends(s: State, r: State, t: Task)
    requires t in s.tasks && r.tasks.Keys == s.tasks.Keys && r.finished == s.finished
    requires s.tasks[t].Sending? || s.tasks[t].Sent?
    requires var o := s.tasks[t].to;
      r.tasks[t] == Refused(o) || r.tasks[t] == Accepted(o) || (s.tasks[t].Sending? && r.tasks[t] == Sent(o))
    ensures Weight(r, t) < Weight(s, t)
  {
    SameAhead(s, r, Some(s.tasks[t].to));
  }

  /** The steps after the retry loop need nothing of the others. */
  lemma EndingSpends(s: State, step: Step)
    requires Next(s, step).Some? && (step.Persist? || step.Remove? || step.Signal? || step.Leave?)
    ensures var r, t := Next(s, step).value, step.t; t in s.tasks && r.tasks.Keys == s.tasks.Keys && Weight(r, t) < Weight(s, t)
  {
  }

  lemma MoverSpends(s: State, step: Step)
    requires Inv(s) && Next(s, step).Some? && !step.Launch?
    ensures var r, t := Next(s, step).value, step.t; t in s.tasks && r.tasks.Keys == s.tasks.Keys && Weight(r, t) < Weight(s, t)
  {
    var r, t := Next(s, step).value, step.t;
    assert PhaseOk(s, t, s.tasks[t]);
    match step
    case Look(_) => LookSpends(s, t);
    case Retry(_) => RetrySpends(s, t);
    case Close(_) => CloseSpends(s, t, t);
    case Send(_) => RequestSpends(s, r, t);
    case Accept(_) => RequestSpends(s, r, t);
    case Drop(_) => RequestSpends(s, r, t);
    case _ => EndingSpends(s, step);
  }

  /** Every step but a launch leaves less to be done. */
  lemma EveryStepSpends(s: State, step: Step)
    requires Inv(s) && Next(s, step).Some? && !step.Launch?
    ensures Potential(Next(s, step).value) < Potential(s)
  {
    var r, t := Next(s, step).value, step.t;
    MoverSpends(s, step);
    forall u | u in s.tasks && u != t ensures Weight(r, u) <= Weight(s, u) {
      if step.Close? { CloseSpends(s, t, u); } else { OthersSpend(s, r, u); }
    }
    PotentialFalls(s, r, t);
  }

  // ----- Every launch comes to an end -----

  predicate NoLaunch(steps: seq<Step>) { forall i | 0 <= i < |steps| :: !steps[i].Launch? }

  /** Without new launches no interleaving is longer than what the present tasks can still do. */
  lemma {:induction false} InterleavingsEnd(steps: seq<Step>, more: seq<Step>)
    requires After(steps + more).Some? && NoLaunch(more)
    ensures After(steps).Some? && |more| + Potential(After(steps + more).value) <= Potential(After(steps).value)
    decreases |more|
  {
    if more == [] {
      assert steps + more == steps;
    } else {
      var n := |more| - 1;
      var all := steps + more;
      assert all[..|all| - 1] == steps + more[..n] && all[|all| - 1] == more[n];
      InterleavingsEnd(steps, more[..n]);
      AlwaysInv(steps + more[..n]);
      EveryStepSpends(After(steps + more[..n]).value, more[n]);
    }
  }

  /** Once nothing launches the run any more, every interleaving ends, within a bound known beforehand;
      and where nothing but a launch can happen, every task has exited, each launch has been accepted
      or executed, and `wait_idle` returns. */
  lemma EveryLaunchEnds(steps: seq<Step>, more: seq<Step>)
    requires After(steps + more).Some? && NoLaunch(more)
    ensures After(steps).Some? && |more| <= Potential(After(steps).value)
    ensures var s := After(steps + more).value;
      (forall step: Step :: Next(s, step).Some? ==> step.Launch?)
        ==> s.count == 0 && forall t | t in s.tasks :: s.tasks[t] == Exited && (t in s.handed <==> !Ran(s.log, t))
  {
    InterleavingsEnd(steps, more);
    var all := steps + more;
    var s := After(all).value;
    if forall step: Step :: Next(s, step).Some? ==> step.Launch? {
      forall t | t in s.tasks ensures s.tasks[t] == Exited && (t in s.handed <==> !Ran(s.log, t)) {
        if s.tasks[t] != Exited { var step := NeverStuck(all, t); }
        EveryLaunchCounts(all, t);
      }
      IdleMeansNoTask(all);
    }
  }
}
