/** Ownership of one run's execution (rust/crates/zf-execution/src/service.rs, `launch`, `LaunchLease`,
    `wait_idle` and the hand-over inside `execute`): any number of launch tasks race for the owners'
    table, hand their resume to a live owner, or wait for it to finish and try again. */
module OwnerProtocol {
  import opened Base

  type Task = nat

  /** Where a launch task is. `to` is the owner whose channel it holds. */
  datatype Phase =
    | Looking                   // at the top of the retry loop
    | Sending(to: Task)         // read an owner from the table, its lock already released
    | Sent(to: Task)            // request in the owner's channel, waiting for acknowledgement
    | Accepted(to: Task)        // acknowledged
    | Refused(to: Task)         // not acknowledged: waits until that owner has finished
    | Executing                 // in the table, running the graph
    | Persisted                 // last observation committed
    | Removed                   // channel dropped, out of the table, completion not yet signalled
    | Finished                  // completion signalled, lease not yet dropped
    | Exited

  datatype Mark = Started(task: Task) | Ended(task: Task)

  /** `owner` is the run's entry in the owners' table, `open` the owners whose channel still has a
      receiver, `finished` those that signalled completion, `count` the run's entry in the table of
      launches (0 when absent). `log` records executions. */
  datatype State = State(
    tasks: map<Task, Phase>,
    owner: Option<Task>,
    open: set<Task>,
    finished: set<Task>,
    count: nat,
    handed: map<Task, Task>,
    log: seq<Mark>)

  datatype Step =
    | Launch(t: Task)
    | Look(t: Task)
    | Send(t: Task)
    | Accept(t: Task)
    | Drop(t: Task)
    | Close(t: Task)
    | Persist(t: Task)
    | Remove(t: Task)
    | Signal(t: Task)
    | Retry(t: Task)
    | Leave(t: Task)

  function At(s: State, t: Task): Option<Phase> {
    if t in s.tasks then Some(s.tasks[t]) else None
  }

  function Moved(s: State, t: Task, p: Phase): State {
    s.(tasks := s.tasks[t := p])
  }

  /** Closing a channel drops every request in it, and with each the promise of an acknowledgement. */
  function Closed(s: State, o: Task): State {
    s.(open := s.open - {o},
       tasks := map t | t in s.tasks :: if s.tasks[t] == Sent(o) then Refused(o) else s.tasks[t])
  }

  function Next(s: State, step: Step): Option<State> {
    var t := step.t;
    var p := At(s, t);
    match step
    case Launch(_) => if p.Some? then None else Some(Moved(s, t, Looking).(count := s.count + 1))
    case Look(_) =>
      if p != Some(Looking) then None
      else if s.owner.Some? then Some(Moved(s, t, Sending(s.owner.value)))
      else Some(Moved(s, t, Executing).(owner := Some(t), open := s.open + {t}, log := s.log + [Started(t)]))
    case Send(_) =>
      if p.None? || !p.value.Sending? then None
      else if p.value.to in s.open then Some(Moved(s, t, Sent(p.value.to)))
      else Some(Moved(s, t, Refused(p.value.to)))
    case Accept(_) =>
      if p.None? || !p.value.Sent? || At(s, p.value.to) != Some(Executing) then None
      else Some(Moved(s, t, Accepted(p.value.to)).(handed := s.handed[t := p.value.to]))
    case Drop(_) => if p.None? || !p.value.Sent? then None else Some(Moved(s, t, Refused(p.value.to)))
    case Close(_) => if p.None? || !Owns(p.value) || t !in s.open then None else Some(Closed(s, t))
    case Persist(_) =>
      if p != Some(Executing) then None
      else Some(Moved(s, t, Persisted).(log := s.log + [Ended(t)]))
    case Remove(_) => if p != Some(Persisted) || t in s.open then None else Some(Moved(s, t, Removed).(owner := None))
    case Signal(_) => if p != Some(Removed) then None else Some(Moved(s, t, Finished).(finished := s.finished + {t}))
    case Retry(_) =>
      if p.None? || !p.value.Refused? || p.value.to !in s.finished then None else Some(Moved(s, t, Looking))
    case Leave(_) =>
      if p.None? || !(p.value.Accepted? || p.value.Finished?) || s.count == 0 then None
      else Some(Moved(s, t, Exited).(count := s.count - 1))
  }

  const START := State(map[], None, {}, {}, 0, map[], [])

  // ----- The invariant -----

  function Live(s: State): set<Task> {
    set t | t in s.tasks && s.tasks[t] != Exited
  }

  predicate Owns(p: Phase) { p == Executing || p == Persisted }

  /** Owners past and present. */
  predicate Owned(s: State, o: Task) {
    o in s.tasks && (Owns(s.tasks[o]) || s.tasks[o] == Removed || o in s.finished)
  }

  /** The tasks of the log's executions. */
  predicate Ran(log: seq<Mark>, t: Task) {
    Started(t) in log
  }

  /** The execution that the log has started and not ended. */
  function Unfinished(log: seq<Mark>): Option<Task> {
    if log == [] || log[|log| - 1].Ended? then None else Some(log[|log| - 1].task)
  }

  /** Executions follow one another: nothing starts before the last start has been ended. */
  predicate Sequential(log: seq<Mark>) {
    log == [] ||
    var n := |log| - 1;
    Sequential(log[..n]) && Unfinished(log[..n]) == if log[n].Started? then None else Some(log[n].task)
  }

  predicate PhaseOk(s: State, t: Task, p: Phase) {
    match p
    case Looking => t !in s.handed && !Ran(s.log, t)
    case Sending(o) => t !in s.handed && !Ran(s.log, t) && Owned(s, o)
    case Sent(o) => t !in s.handed && !Ran(s.log, t) && o in s.open
    case Refused(o) => t !in s.handed && !Ran(s.log, t) && Owned(s, o)
    case Accepted(o) => t in s.handed && s.handed[t] == o && !Ran(s.log, t)
    case Executing => t !in s.handed && s.owner == Some(t) && Ran(s.log, t)
    case Persisted => t !in s.handed && s.owner == Some(t) && Ran(s.log, t)
    case Removed => t !in s.handed && Ran(s.log, t) && t !in s.open
    case Finished => t !in s.handed && Ran(s.log, t) && t !in s.open && t in s.finished
    case Exited => (t in s.handed <==> !Ran(s.log, t)) && (t in s.finished <==> Ran(s.log, t))
  }

  /** The log ends with an unfinished execution exactly while a task executes. */
  predicate LogOk(s: State) {
    Sequential(s.log) && Unfinished(s.log) == Executor(s)
  }

  function Executor(s: State): Option<Task> {
    if s.owner.Some? && At(s, s.owner.value) == Some(Executing) then s.owner else None
  }

  ghost predicate Linked(s: State) {
    && (s.owner.Some? ==> s.owner.value in s.tasks && Owns(s.tasks[s.owner.value]))
    && (forall o | o in s.open :: o in s.tasks && Owns(s.tasks[o]))
    && (forall t | t in s.handed :: t in s.tasks && Ran(s.log, s.handed[t]))
    && (forall t | Ran(s.log, t) :: t in s.tasks)
    && (forall t | t in s.finished :: t in s.tasks && (s.tasks[t] == Finished || s.tasks[t] == Exited))
  }

  predicate Phases(s: State) {
    forall t | t in s.tasks :: PhaseOk(s, t, s.tasks[t])
  }

  ghost predicate Inv(s: State) {
    Phases(s) && Linked(s) && LogOk(s) && s.count == |Live(s)|
  }

  /** What a task's phase depends on has not changed for it. */
  ghost predicate Undisturbed(s: State, r: State, u: Task) {
    && u in s.tasks && u in r.tasks && s.tasks[u] == r.tasks[u]
    && (u in s.handed <==> u in r.handed) && (u in s.handed ==> s.handed[u] == r.handed[u])
    && (Ran(s.log, u) <==> Ran(r.log, u)) && (u in s.finished <==> u in r.finished)
    && (u in r.open ==> u in s.open) && (Owns(s.tasks[u]) ==> r.owner == s.owner)
    && (s.tasks[u].Sent? && s.tasks[u].to in s.open ==> s.tasks[u].to in r.open)
    && ((s.tasks[u].Sending? || s.tasks[u].Refused?) && Owned(s, s.tasks[u].to) ==> Owned(r, s.tasks[u].to))
  }

  lemma PhaseStays(s: State, r: State, u: Task)
    requires Undisturbed(s, r, u) && PhaseOk(s, u, s.tasks[u])
    ensures PhaseOk(r, u, r.tasks[u])
  {
  }

  // ----- Every step keeps the invariant -----

  lemma LaunchKeeps(s: State, t: Task)
    requires Inv(s) && Next(s, Launch(t)).Some?
    ensures Inv(Next(s, Launch(t)).value)
  {
    var r := Next(s, Launch(t)).value;
    assert Live(r) == Live(s) + {t};
    assert Phases(r) by {
      forall u | u in r.tasks && u != t ensures PhaseOk(r, u, r.tasks[u]) { PhaseStays(s, r, u); }
      assert PhaseOk(r, t, Looking);
    }
    assert Linked(r) && LogOk(r);
  }

  /** A task that stays alive, with table, channels and log as they were. */
  lemma MoveKeeps(s: State, t: Task, p: Phase)
    requires Inv(s) && t in s.tasks && !Owns(s.tasks[t]) && s.tasks[t] !in {Removed, Finished, Exited}
    requires !Owns(p) && p !in {Removed, Finished, Exited} && PhaseOk(s, t, p)
    ensures Inv(Moved(s, t, p))
  {
    var r := Moved(s, t, p);
    assert Live(r) == Live(s);
    forall u | u in r.tasks ensures PhaseOk(r, u, r.tasks[u]) { assert PhaseOk(s, u, r.tasks[u]); }
  }

  lemma StartKeeps(s: State, t: Task)
    requires Inv(s) && At(s, t) == Some(Looking) && s.owner.None?
    ensures Inv(Next(s, Look(t)).value)
  {
    var r := Next(s, Look(t)).value;
    assert Live(r) == Live(s);
    assert PhaseOk(s, t, Looking);
    LogGrows(s.log, Started(t));
    LogExtends(s.log, Started(t));
    StartPhases(s, r, t);
    StartLinked(s, r, t);
    assert LogOk(r);
  }

  lemma StartPhases(s: State, r: State, t: Task)
    requires Phases(s) && Linked(s) && At(s, t) == Some(Looking) && s.owner.None?
    requires r == Next(s, Look(t)).value && forall u :: Ran(r.log, u) <==> Ran(s.log, u) || u == t
    ensures Phases(r)
  {
    forall u | u in r.tasks ensures PhaseOk(r, u, r.tasks[u]) {
      assert PhaseOk(s, u, s.tasks[u]);
      if u != t { PhaseStays(s, r, u); }
    }
  }

  lemma StartLinked(s: State, r: State, t: Task)
    requires Linked(s) && At(s, t) == Some(Looking) && s.owner.None?
    requires r == Next(s, Look(t)).value && forall u :: Ran(r.log, u) <==> Ran(s.log, u) || u == t
    ensures Linked(r)
  {
  }

  lemma LogGrows(log: seq<Mark>, m: Mark)
    ensures forall t :: Ran(log + [m], t) <==> Ran(log, t) || m == Started(t)
  {
  }

  lemma LogExtends(log: seq<Mark>, m: Mark)
    requires Sequential(log) && Unfinished(log) == if m.Started? then None else Some(m.task)
    ensures Sequential(log + [m]) && Unfinished(log + [m]) == if m.Started? then Some(m.task) else None
  {
    assert (log + [m])[..|log|] == log;
  }

  lemma AcceptKeeps(s: State, t: Task)
    requires Inv(s) && Next(s, Accept(t)).Some?
    ensures Inv(Next(s, Accept(t)).value)
  {
    var r := Next(s, Accept(t)).value;
    assert Live(r) == Live(s);
    forall u | u in r.tasks && u != t ensures PhaseOk(r, u, r.tasks[u]) { PhaseStays(s, r, u); }
    assert PhaseOk(s, s.tasks[t].to, Executing);
  }

  lemma CloseKeeps(s: State, o: Task)
    requires Inv(s) && Next(s, Close(o)).Some?
    ensures Inv(Next(s, Close(o)).value)
  {
    var r := Next(s, Close(o)).value;
    assert r.tasks.Keys == s.tasks.Keys;
    assert Live(r) == Live(s);
    forall u | u in r.tasks ensures PhaseOk(r, u, r.tasks[u]) { assert PhaseOk(s, u, s.tasks[u]); }
  }

  lemma PersistKeeps(s: State, t: Task)
    requires Inv(s) && Next(s, Persist(t)).Some?
    ensures Inv(Next(s, Persist(t)).value)
  {
    var r := Next(s, Persist(t)).value;
    assert Live(r) == Live(s);
    assert PhaseOk(s, t, Executing);
    LogGrows(s.log, Ended(t));
    LogExtends(s.log, Ended(t));
    assert Phases(r) by {
      forall u | u in r.tasks && u != t ensures PhaseOk(r, u, r.tasks[u]) { PhaseStays(s, r, u); }
    }
  }

  lemma RemoveKeeps(s: State, t: Task)
    requires Inv(s) && Next(s, Remove(t)).Some?
    ensures Inv(Next(s, Remove(t)).value)
  {
    var r := Next(s, Remove(t)).value;
    assert Live(r) == Live(s);
    assert PhaseOk(s, t, Persisted);
    assert Phases(r) by {
      forall u | u in r.tasks && u != t ensures PhaseOk(r, u, r.tasks[u]) { PhaseStays(s, r, u); }
    }
  }

  lemma LiveDrops(s: State, r: State, t: Task)
    requires t in s.tasks && s.tasks[t] != Exited && r.tasks == s.tasks[t := Exited]
    ensures |Live(s)| == |Live(r)| + 1
  {
    assert Live(r) == Live(s) - {t} && t in Live(s);
  }

  /** A step of a task after it has left the table. */
  lemma LateStepKeeps(s: State, r: State, t: Task, p: Phase)
    requires Phases(s) && t in s.tasks && r.tasks == s.tasks[t := p] && !Owns(s.tasks[t])
    requires r.owner == s.owner && r.open == s.open && r.handed == s.handed && r.log == s.log
    requires s.finished <= r.finished <= s.finished + {t} && PhaseOk(r, t, p)
    requires s.tasks[t] == Removed ==> p == Finished && t in r.finished
    ensures Phases(r)
  {
    forall u | u in r.tasks ensures PhaseOk(r, u, r.tasks[u]) {
      if u != t { assert PhaseOk(s, u, s.tasks[u]); }
    }
  }

  lemma SignalKeeps(s: State, t: Task)
    requires Inv(s) && Next(s, Signal(t)).Some?
    ensures Inv(Next(s, Signal(t)).value)
  {
    var r := Next(s, Signal(t)).value;
    assert PhaseOk(s, t, Removed);
    assert Live(r) == Live(s);
    LateStepKeeps(s, r, t, Finished);
    assert Linked(r) && LogOk(r);
  }

  lemma LeaveKeeps(s: State, t: Task)
    requires Inv(s) && Next(s, Leave(t)).Some?
    ensures Inv(Next(s, Leave(t)).value)
  {
    var r := Next(s, Leave(t)).value;
    assert PhaseOk(s, t, s.tasks[t]);
    LiveDrops(s, r, t);
    LateStepKeeps(s, r, t, Exited);
    assert Linked(r) && LogOk(r);
  }

  lemma NextKeeps(s: State, step: Step)
    requires Inv(s) && Next(s, step).Some?
    ensures Inv(Next(s, step).value)
  {
    var t := step.t;
    if t in s.tasks { assert PhaseOk(s, t, s.tasks[t]); }
    match step
    case Launch(_) => LaunchKeeps(s, t);
    case Look(_) => if s.owner.None? { StartKeeps(s, t); } else { MoveKeeps(s, t, Sending(s.owner.value)); }
    case Send(_) => MoveKeeps(s, t, Next(s, step).value.tasks[t]);
    case Accept(_) => AcceptKeeps(s, t);
    case Drop(_) => MoveKeeps(s, t, Refused(s.tasks[t].to));
    case Close(_) => CloseKeeps(s, t);
    case Persist(_) => PersistKeeps(s, t);
    case Remove(_) => RemoveKeeps(s, t);
    case Signal(_) => SignalKeeps(s, t);
    case Retry(_) => MoveKeeps(s, t, Looking);
    case Leave(_) => LeaveKeeps(s, t);
  }

  function After(steps: seq<Step>): Option<State> {
    if steps == [] then Some(START)
    else
      var n := |steps| - 1;
      var before := After(steps[..n]);
      if before.None? then None else Next(before.value, steps[n])
  }

  lemma {:induction false} AlwaysInv(steps: seq<Step>)
    requires After(steps).Some?
    ensures Inv(After(steps).value)
  {
    if steps == [] {
      assert Live(START) == {};
    } else {
      var n := |steps| - 1;
      AlwaysInv(steps[..n]);
      NextKeeps(After(steps[..n]).value, steps[n]);
    }
  }

  // ----- What every interleaving guarantees -----

  /** At most one task executes the run at any time, and only while the table says so. */
  lemma OneOwner(steps: seq<Step>, a: Task, b: Task)
    requires After(steps).Some?
    ensures var s := After(steps).value;
      && (At(s, a) == Some(Executing) ==> s.owner == Some(a))
      && (At(s, a) == Some(Executing) && At(s, b) == Some(Executing) ==> a == b)
  {
    AlwaysInv(steps);
    var s := After(steps).value;
    if a in s.tasks { assert PhaseOk(s, a, s.tasks[a]); }
    if b in s.tasks { assert PhaseOk(s, b, s.tasks[b]); }
  }

  /** Executions never overlap: a successor starts only after its predecessor's execution and final
      persistence are over, and the next start in the log is its own. */
  lemma SuccessorAfterPredecessor(steps: seq<Step>, t: Task)
    requires After(steps).Some? && Next(After(steps).value, Look(t)).Some?
    ensures var s := After(steps).value;
      Sequential(s.log)
      && (s.owner.None? ==>
            Unfinished(s.log).None?
            && Next(s, Look(t)).value.log == s.log + [Started(t)]
            && forall u | u in s.tasks :: !Owns(s.tasks[u]))
  {
    AlwaysInv(steps);
    var s := After(steps).value;
    if s.owner.None? {
      forall u | u in s.tasks ensures !Owns(s.tasks[u]) { assert PhaseOk(s, u, s.tasks[u]); }
    }
  }

  /** Every launch that is over was either accepted by one owner or executed the run itself, never
      both and never neither; whoever accepted it was executing. */
  lemma EveryLaunchCounts(steps: seq<Step>, t: Task)
    requires After(steps).Some? && At(After(steps).value, t) == Some(Exited)
    ensures var s := After(steps).value;
      && (t in s.handed <==> !Ran(s.log, t))
      && (t in s.handed ==> Ran(s.log, s.handed[t]) && s.handed[t] != t)
  {
    AlwaysInv(steps);
    assert PhaseOk(After(steps).value, t, Exited);
  }

  /** A hand-over happens only while the accepting owner executes, and is never changed. */
  lemma HandOverIsFinal(steps: seq<Step>, step: Step, t: Task)
    requires After(steps).Some? && Next(After(steps).value, step).Some?
    ensures var s, r := After(steps).value, Next(After(steps).value, step).value;
      && (t in s.handed ==> t in r.handed && r.handed[t] == s.handed[t])
      && (t in r.handed && t !in s.handed ==> s.owner == Some(r.handed[t]) && At(s, r.handed[t]) == Some(Executing))
  {
    AlwaysInv(steps);
    var s := After(steps).value;
    if step.t in s.tasks { assert PhaseOk(s, step.t, s.tasks[step.t]); }
    if step.Accept? { assert PhaseOk(s, s.tasks[step.t].to, Executing); }
  }

  /** What `wait_idle` sees: the run is absent from the table of launches exactly when no launch task
      of the run is alive. */
  lemma IdleMeansNoTask(steps: seq<Step>)
    requires After(steps).Some?
    ensures var s := After(steps).value; s.count == 0 <==> forall t | t in s.tasks :: s.tasks[t] == Exited
  {
    AlwaysInv(steps);
    var s := After(steps).value;
    if forall t | t in s.tasks :: s.tasks[t] == Exited {
      assert Live(s) == {};
    }
    if s.count == 0 {
      forall t | t in s.tasks ensures s.tasks[t] == Exited {
        assert t !in Live(s);
      }
    }
  }

  /** No interleaving gets stuck: as long as a task is alive, some task can move. */
  lemma NeverStuck(steps: seq<Step>, t: Task) returns (step: Step)
    requires After(steps).Some? && At(After(steps).value, t).Some? && At(After(steps).value, t) != Some(Exited)
    ensures !step.Launch? && Next(After(steps).value, step).Some?
  {
    AlwaysInv(steps);
    var s := After(steps).value;
    var p := s.tasks[t];
    assert PhaseOk(s, t, p);
    assert t in Live(s);
    match p
    case Looking => step := Look(t);
    case Sending(_) => step := Send(t);
    case Sent(o) => step := Drop(t);
    case Accepted(_) => step := Leave(t);
    case Finished => step := Leave(t);
    case Refused(o) =>
      if o in s.finished {
        step := Retry(t);
      } else {
        OwnerMoves(s, o);
        step := Ready(s, o);
      }
    case _ =>
      OwnerMoves(s, t);
      step := Ready(s, t);
  }

  lemma OwnerMoves(s: State, o: Task)
    requires Inv(s) && Owned(s, o) && o !in s.finished
    ensures !Ready(s, o).Launch? && Next(s, Ready(s, o)).Some?
  {
    assert PhaseOk(s, o, s.tasks[o]);
    assert o in Live(s);
  }

  /** What an owner that has not signalled completion can do next. */
  function Ready(s: State, o: Task): Step {
    if At(s, o) == Some(Executing) then Persist(o)
    else if At(s, o) == Some(Persisted) then (if o in s.open then Close(o) else Remove(o))
    else Signal(o)
  }
}
