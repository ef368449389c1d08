/** What launches can do (rust/crates/zf-execution/src/service.rs, `launch`): be handed over to an owner
    that listens, execute a run that nobody owns, and look again after a refusal. */
module HandOvers {
  import opened Base
  import opened OwnerProtocol

  /** One more step. */
  lemma StepOn(steps: seq<Step>, step: Step)
    requires After(steps).Some?
    ensures After(steps + [step]) == Next(After(steps).value, step)
  {
    assert (steps + [step])[..|steps|] == steps;
  }

  /** Two more, and a third. */
  lemma ThreeOn(steps: seq<Step>, a: Step, b: Step, c: Step)
    requires After(steps).Some? && Next(After(steps).value, a).Some? && Next(Next(After(steps).value, a).value, b).Some?
    ensures After(steps + [a, b, c]) == Next(Next(Next(After(steps).value, a).value, b).value, c)
  {
    StepOn(steps, a);
    StepOn(steps + [a], b);
    StepOn(steps + [a] + [b], c);
    assert steps + [a, b, c] == steps + [a] + [b] + [c];
  }

  /** The owner takes the request. */
  lemma Takes(s: State, t: Task, o: Task)
    requires At(s, t) == Some(Looking) && s.owner == Some(o) && At(s, o) == Some(Executing) && o in s.open && t != o && s.count > 0
    ensures Next(s, Look(t)).Some? && Next(Next(s, Look(t)).value, Send(t)).Some?
    ensures Next(Next(Next(s, Look(t)).value, Send(t)).value, Accept(t)).Some?
    ensures var r := Next(Next(Next(s, Look(t)).value, Send(t)).value, Accept(t)).value;
      && r == s.(tasks := s.tasks[t := Accepted(o)], handed := s.handed[t := o])
      && Next(r, Leave(t)) == Some(r.(tasks := s.tasks[t := Exited], count := s.count - 1))
  {
    assert s.tasks[t := Sending(o)][t := Sent(o)][t := Accepted(o)] == s.tasks[t := Accepted(o)];
    assert s.tasks[t := Accepted(o)][t := Exited] == s.tasks[t := Exited];
  }

  /** A launch that looks while an owner executes and listens can be handed over: four steps of its own
      end it, accepted by that owner, without another execution. */
  lemma HandOverHappens(steps: seq<Step>, t: Task, o: Task) returns (more: seq<Step>)
    requires After(steps).Some? && At(After(steps).value, t) == Some(Looking)
    requires var s := After(steps).value; s.owner == Some(o) && At(s, o) == Some(Executing) && o in s.open
    ensures more == [Look(t), Send(t), Accept(t)] + [Leave(t)] && After(steps + more).Some?
    ensures var s, r := After(steps).value, After(steps + more).value;
      && At(r, t) == Some(Exited) && r.handed == s.handed[t := o] && r.log == s.log && r.count + 1 == s.count
      && forall u | u in s.tasks && u != t :: At(r, u) == At(s, u)
  {
    AlwaysInv(steps);
    var s := After(steps).value;
    assert t in Live(s) && t != o;
    more := [Look(t), Send(t), Accept(t)] + [Leave(t)];
    Takes(s, t, o);
    ThreeOn(steps, Look(t), Send(t), Accept(t));
    StepOn(steps + [Look(t), Send(t), Accept(t)], Leave(t));
    assert steps + more == steps + [Look(t), Send(t), Accept(t)] + [Leave(t)];
  }

  /** From the top of the loop to the last commit. */
  lemma Executes(s: State, t: Task)
    requires Inv(s) && At(s, t) == Some(Looking) && s.owner.None?
    ensures Next(s, Look(t)).Some? && Next(Next(s, Look(t)).value, Close(t)).Some?
    ensures Next(Next(Next(s, Look(t)).value, Close(t)).value, Persist(t)).Some?
    ensures var r := Next(Next(Next(s, Look(t)).value, Close(t)).value, Persist(t)).value;
      && At(r, t) == Some(Persisted) && t !in r.open && r.log == s.log + [Started(t), Ended(t)]
      && r.count == s.count && r.handed == s.handed
  {
    assert s.log + [Started(t)] + [Ended(t)] == s.log + [Started(t), Ended(t)];
  }

  /** From there out of the tables. */
  lemma Retires(s: State, t: Task)
    requires At(s, t) == Some(Persisted) && t !in s.open && s.count > 0
    ensures Next(s, Remove(t)).Some? && Next(Next(s, Remove(t)).value, Signal(t)).Some?
    ensures Next(Next(Next(s, Remove(t)).value, Signal(t)).value, Leave(t)).Some?
    ensures var r := Next(Next(Next(s, Remove(t)).value, Signal(t)).value, Leave(t)).value;
      && At(r, t) == Some(Exited) && r.owner.None? && t in r.finished && r.handed == s.handed && r.log == s.log && r.count + 1 == s.count
  {
  }

  /** A launch that looks while nobody owns the run executes it, and six steps of its own end it and
      leave the table free. */
  lemma FreeRunIsExecuted(steps: seq<Step>, t: Task) returns (more: seq<Step>)
    requires After(steps).Some? && At(After(steps).value, t) == Some(Looking) && After(steps).value.owner.None?
    ensures more == [Look(t), Close(t), Persist(t)] + [Remove(t), Signal(t), Leave(t)] && After(steps + more).Some?
    ensures var s, r := After(steps).value, After(steps + more).value;
      && At(r, t) == Some(Exited) && r.owner.None? && t in r.finished && t !in r.handed
      && r.log == s.log + [Started(t), Ended(t)] && r.count + 1 == s.count
  {
    AlwaysInv(steps);
    var s := After(steps).value;
    assert t in Live(s) && PhaseOk(s, t, Looking);
    var first, last := [Look(t), Close(t), Persist(t)], [Remove(t), Signal(t), Leave(t)];
    more := first + last;
    Executes(s, t);
    ThreeOn(steps, Look(t), Close(t), Persist(t));
    Retires(After(steps + first).value, t);
    ThreeOn(steps + first, Remove(t), Signal(t), Leave(t));
    assert steps + more == steps + first + last;
  }

  /** A refused launch looks again exactly once the owner that refused it has finished. */
  lemma RefusedLooksAgain(steps: seq<Step>, t: Task, o: Task)
    requires After(steps).Some? && At(After(steps).value, t) == Some(Refused(o))
    ensures After(steps + [Retry(t)]).Some? <==> At(After(steps).value, o) == Some(Finished) || (At(After(steps).value, o) == Some(Exited) && Ran(After(steps).value.log, o))
    ensures After(steps + [Retry(t)]).Some? ==> At(After(steps + [Retry(t)]).value, t) == Some(Looking)
  {
    AlwaysInv(steps);
    var s := After(steps).value;
    assert PhaseOk(s, t, Refused(o));
    assert PhaseOk(s, o, s.tasks[o]);
    StepOn(steps, Retry(t));
  }
}
