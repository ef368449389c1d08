/** Open waits stay visible (rust/crates/zf-execution/src/sessions.rs, `persist_event`): the merge hides
    a wait only when it has been answered. The launches of a run are tied to the claims that made them
    (rust/crates/zf-execution/src/commands.rs and service.rs). */
module OpenWaits {
  import opened Base
  import opened RunDocument
  import opened RunProtocol

  /** The executor is paused at a wait that has not been claimed. */
  predicate Asking(s: State, x: Exec) {
    x.mode == Suspended && x.view.wait.Some? && x.view.wait.value.id !in s.answered
  }

  /** The executor can open waits, or holds one open. */
  predicate Engaged(s: State, x: Exec) { Live(x) || Asking(s, x) }

  /** Document and executor agree on where the run stands: no launch is under way, and an executor that
      is still there is at its end or at the wait that the document shows. A caller has this once
      `wait_idle` has returned and nothing has been launched since. */
  predicate AtRest(s: State) {
    s.launches == {} && (s.exec.Some? ==>
      var x := s.exec.value; !Live(x) && (x.mode == Suspended ==> SameWait(s.doc, x.view)))
  }

  /** A stopped run is resumed only when it is at rest. */
  predicate Calm(s: State, step: Step) {
    step.Do? && step.command.Resume? ==> AtRest(s)
  }

  /** Between a claim and its launch nobody is engaged; while a wait is shown nothing is launched and
      nobody goes on; whoever is engaged acts for the document's claim. */
  ghost predicate Orderly(s: State) {
    && (forall l | l in s.launches :: l == s.doc.claim)
    && (s.launches != {} && s.exec.Some? ==> !Engaged(s, s.exec.value))
    && (s.doc.status == Waiting ==> AtRest(s))
    && (s.exec.Some? && Engaged(s, s.exec.value) ==> s.exec.value.claim == s.doc.claim)
  }

  lemma InitIsOrderly(s: State)
    requires Init(s)
    ensures Orderly(s)
  {
  }

  // ----- Every calm step keeps the order -----

  /** A claim from rest: its launch is the only one, and an executor's wait has been answered by it. */
  lemma ClaimOrderly(s: State, doc: Doc, claim: string)
    requires Inv(s) && Orderly(s) && AtRest(s) && claim !in s.claims && ClaimShape(s.doc, doc, claim)
    ensures Orderly(Written(s, doc, claim))
  {
    var t := Written(s, doc, claim);
    assert t.launches == {Some(claim)};
    if s.exec.Some? && s.exec.value.mode == Suspended {
      assert s.exec.value.view.wait.value.id in t.answered;
    }
  }

  lemma EditOrderly(s: State, doc: Doc)
    requires Orderly(s) && EditShape(s.doc, doc)
    ensures Orderly(s.(doc := doc))
  {
  }

  lemma DoOrderly(rules: Rules, s: State, command: Command, claim: string)
    requires Inv(s) && Orderly(s) && Calm(s, Do(command, claim)) && Next(rules, s, Do(command, claim)).Some?
    ensures Orderly(Next(rules, s, Do(command, claim)).value)
  {
    CommandShape(rules, s.doc, command, claim);
    var doc := Commanded(rules, s.doc, command, claim).value;
    if doc.claim == Some(claim) {
      ClaimsFromWaits(rules, s.doc, command, claim);
      ClaimOrderly(s, doc, claim);
    } else {
      EditOrderly(s, doc);
    }
  }

  /** Only a resume claims a run that shows no wait. */
  lemma ClaimsFromWaits(rules: Rules, doc: Doc, command: Command, claim: string)
    requires Commanded(rules, doc, command, claim).Some? && doc.claim != Some(claim)
    requires Commanded(rules, doc, command, claim).value.claim == Some(claim)
    ensures command.Resume? || doc.status == Waiting
  {
  }

  lemma WakeOrderly(rules: Rules, s: State, claim: string)
    requires Inv(s) && Orderly(s) && Next(rules, s, Wake(claim)).Some?
    ensures Orderly(Next(rules, s, Wake(claim)).value)
  {
    var t := s.(exec := Some(s.exec.value.(waking := false)));
    assert Inv(t) || NeedsWake(s.doc);
    if NeedsWake(s.doc) {
      var doc := Claimed(s.doc, map[], claim);
      assert ClaimShape(s.doc, doc, claim) && AtRest(s);
      ClaimOrderly(s, doc, claim);
    }
  }

  /** A flush that shows a wait shows the executor's own, and then nothing has been launched. */
  lemma FlushOrderly(s: State, x: Exec)
    requires Inv(s) && Orderly(s) && s.exec == Some(x) && x.mode != Resuming && x.mode != Broken
    ensures Orderly(s.(doc := Merged(s.doc, x.view.(claim := x.claim)), exec := Some(x.(waking := true))))
  {
    var doc := Merged(s.doc, x.view.(claim := x.claim));
    if doc.status == Waiting {
      assert x.view.status == Waiting && !Superseded(s.doc, x.view.(claim := x.claim));
      assert x.mode == Suspended && Asking(s, x);
    }
  }

  lemma ExecOrderly(s: State, x: Exec, step: Step)
    requires Inv(s) && Orderly(s) && s.exec == Some(x) && ExecStep(s, x, step).Some?
    ensures Orderly(ExecStep(s, x, step).value)
  {
    match step
    case Flush => FlushOrderly(s, x);
    case Batch => ObservedKeeps(s.doc, x.pending);
    case _ =>
  }

  lemma NextOrderly(rules: Rules, s: State, step: Step)
    requires Inv(s) && Orderly(s) && Calm(s, step) && Next(rules, s, step).Some?
    ensures Orderly(Next(rules, s, step).value)
  {
    match step
    case Do(command, claim) => DoOrderly(rules, s, command, claim);
    case Begin(_) =>
    case Wake(claim) => WakeOrderly(rules, s, claim);
    case _ => ExecOrderly(s, s.exec.value, step);
  }

  // ----- Over whole runs -----

  /** Every resume of the run is made at rest. */
  predicate CalmRun(rules: Rules, s: State, steps: seq<Step>) {
    steps == [] ||
    var n := |steps| - 1;
    CalmRun(rules, s, steps[..n]) && After(rules, s, steps[..n]).Some? && Calm(After(rules, s, steps[..n]).value, steps[n])
  }

  lemma {:induction false} AlwaysOrderly(rules: Rules, s: State, steps: seq<Step>)
    requires Init(s) && After(rules, s, steps).Some? && CalmRun(rules, s, steps)
    ensures Orderly(After(rules, s, steps).value)
  {
    if steps == [] {
      InitIsOrderly(s);
    } else {
      var n := |steps| - 1;
      AlwaysOrderly(rules, s, steps[..n]);
      AlwaysInv(rules, s, steps[..n]);
      NextOrderly(rules, After(rules, s, steps[..n]).value, steps[n]);
    }
  }

  /** The merge shows the executor's wait unless a claim made for its checkpoint has taken it over; an
      abort then stops it. */
  lemma FlushShowsWait(latest: Doc, run: Doc)
    requires run.status == Waiting && run.wait.Some?
    ensures var after := Merged(latest, run);
      && (after.wait == run.wait <==> !Superseded(latest, run))
      && (!Superseded(latest, run) ==> after.status == if latest.abortRequested then Stopped else Waiting)
  {
  }

  /** Over every interleaving, whenever it is resumed: a flush hides the executor's wait exactly when the
      document carries a later claim made for the view's checkpoint. A claimed wait is always hidden so;
      a wait that nobody has claimed is hidden if and only if that guard holds, and otherwise shown, or
      stopped by an abort. */
  lemma HiddenIffSuperseded(rules: Rules, s: State, steps: seq<Step>)
    requires Init(s) && After(rules, s, steps).Some?
    requires var t := After(rules, s, steps).value; t.exec.Some? && t.exec.value.view.status == Waiting && Next(rules, t, Flush).Some?
    ensures var t := After(rules, s, steps).value;
      var x, after := t.exec.value, Next(rules, t, Flush).value.doc;
      var superseded := Superseded(t.doc, x.view.(claim := x.claim));
      && x.view.wait.Some? && (x.view.wait.value.id in t.answered ==> superseded)
      && (after.wait.None? <==> superseded) && (after.wait == x.view.wait <==> !superseded)
      && after.status == if superseded then Running else if t.doc.abortRequested then Stopped else Waiting
  {
    AlwaysInv(rules, s, steps);
    var t := After(rules, s, steps).value;
    FlushShowsWait(t.doc, t.exec.value.view.(claim := t.exec.value.claim));
  }

  /** A wait that nobody has claimed is shown by every flush, unless the run was aborted; and one that
      has been claimed never is. */
  lemma OpenWaitsAreShown(rules: Rules, s: State, steps: seq<Step>)
    requires Init(s) && After(rules, s, steps).Some? && CalmRun(rules, s, steps)
    requires var t := After(rules, s, steps).value; t.exec.Some? && t.exec.value.view.status == Waiting && Next(rules, t, Flush).Some?
    ensures var t := After(rules, s, steps).value;
      var wait, after := t.exec.value.view.wait, Next(rules, t, Flush).value.doc;
      && wait.Some?
      && (if wait.value.id in t.answered then after.status == Running && after.wait.None?
          else after.wait == wait && after.status == if t.doc.abortRequested then Stopped else Waiting)
  {
    AlwaysInv(rules, s, steps);
    AlwaysOrderly(rules, s, steps);
    var t := After(rules, s, steps).value;
    var x := t.exec.value;
    if x.view.wait.value.id !in t.answered {
      assert Asking(t, x);
      FlushShowsWait(t.doc, x.view.(claim := x.claim));
    }
  }

  /** While a wait is shown, no launch of the run is under way and its executor, if any, is not going on:
      whoever answers it is the next to run. */
  lemma ShownMeansAtRest(rules: Rules, s: State, steps: seq<Step>)
    requires Init(s) && After(rules, s, steps).Some? && CalmRun(rules, s, steps)
    ensures var t := After(rules, s, steps).value; t.doc.status == Waiting ==> AtRest(t)
  {
    AlwaysOrderly(rules, s, steps);
  }

  // ----- Why a resume must be made at rest -----

  const PLAIN := Rules((d: Doc, t: string) => Some(t), (d: Doc, p: string, v: Json) => true, (d: Doc) => true)

  function Question(id: string): Wait { Wait(id, InputWait, Some("ask"), false, false) }

  const COMMITTED := OwnCheckpoint("c", [])
  const ANSWER: Input := map["answer:ask" := Obj(map["__zedflowAnswerId" := Str("first"), "value" := Str("yes")])]

  // The document: at its start, with a checkpoint, asking, answered, aborted, stopped, resumed.
  const NEW := Doc(Running, None, None, None, [], [], [], map[], 0, false, None, None, None, true, false)
  const SAVED := NEW.(checkpoint := Some("c"))
  const ASKING := SAVED.(status := Waiting, wait := Some(Question("first")))
  const ANSWERED := Claimed(ASKING.(messages := [Entry("first", true, "yes")]), ANSWER, "A")
  const ABORTED := ANSWERED.(abortRequested := true)
  const STOPPED := ABORTED.(status := Stopped, wait := Some(Question("first")))
  const RESUMED := Claimed(STOPPED, ANSWER, "B")

  function With(s: State, x: Exec): State { s.(exec := Some(x)) }

  const BEGUN := State(NEW, None, {}, {}, {}, {None})
  const S1 := With(BEGUN.(launches := {}), Exec(NEW, None, [], Resuming, false))
  const S2 := With(S1, Exec(SAVED, None, [COMMITTED], Resuming, false))
  const S3 := With(S2.(issued := {"first"}), Exec(ASKING, None, [COMMITTED], Suspended, false))
  const S4 := With(S3.(doc := SAVED), Exec(ASKING, None, [], Suspended, false))
  const S5 := With(S4.(doc := ASKING), Exec(ASKING, None, [], Suspended, true))
  const S6 := S5.(doc := ANSWERED, launches := {Some("A")}, claims := {"A"}, answered := {"first"})
  const S7 := S6.(doc := ABORTED)
  const S8 := With(S7, Exec(ASKING.(status := Stopped), None, [], Over, true))
  const S9 := S8.(doc := STOPPED)
  const S10 := With(S9, Exec(ASKING.(status := Stopped), None, [], Over, false))
  const S11 := S10.(exec := None)
  const S12 := S11.(doc := RESUMED, launches := {Some("A"), Some("B")}, claims := {"A", "B"})
  const S13 := With(S12.(launches := {Some("B")}), Exec(RESUMED, Some("A"), [], Resuming, false))
  const S14 := With(S13.(issued := {"first", "second"}),
    Exec(RESUMED.(status := Waiting, wait := Some(Question("second"))), Some("A"), [], Suspended, false))

  /** The step leads from one state to the other. */
  ghost predicate Leads(s: State, step: Step, t: State) { Next(PLAIN, s, step) == Some(t) }

  /** The steps so far lead from the beginning to the state. */
  ghost predicate Arrived(steps: seq<Step>, t: State) { After(PLAIN, BEGUN, steps) == Some(t) }

  lemma OneMore(steps: seq<Step>, s: State, step: Step, t: State) returns (more: seq<Step>)
    requires Arrived(steps, s) && Leads(s, step, t)
    ensures more == steps + [step] && Arrived(more, t)
  {
    more := steps + [step];
    assert more[..|more| - 1] == steps && more[|more| - 1] == step;
  }

  lemma Asks()
    ensures Leads(BEGUN, Begin(None), S1) && Leads(S1, Observe(COMMITTED), S2)
    ensures Leads(S2, Pause(Question("first"), false), S3)
  {
    assert BEGUN.launches - {None} == {} && [] + [COMMITTED] == [COMMITTED] && Joined([], []) == [];
    assert S2.issued + {"first"} == {"first"};
  }

  lemma Saves()
    ensures Leads(S3, Batch, S4)
  {
    assert [COMMITTED][..0] == [];
    assert ObservedAll(NEW, []) == NEW;
  }

  lemma Shows()
    ensures Leads(S4, Flush, S5)
  {
    assert Deliver([], []) == [];
  }

  lemma IsAnswered()
    ensures Leads(S5, Do(Answer("first", Str("yes")), "A"), S6)
  {
    assert "yes"[0] == 'y' && !IsSpace('y');
    assert Acceptable(Question("first"), Str("yes"));
    assert Channel(ASKING, "ask") == "answer:ask";
    assert ASKING.messages + [Entry("first", true, "yes")] == [Entry("first", true, "yes")];
    assert S5.launches + {Some("A")} == {Some("A")} && S5.claims + {"A"} == {"A"} && WaitIds(ASKING) == {"first"};
    assert S5.answered + {"first"} == {"first"};
  }

  lemma IsAborted()
    ensures Leads(S6, Do(Cancel, "x"), S7) && Leads(S7, Fail(Stopped), S8)
  {
  }

  lemma Stops()
    ensures Leads(S8, Flush, S9)
  {
    assert Deliver([], []) == [];
  }

  lemma Ends()
    ensures Leads(S9, Wake("y"), S10) && Leads(S10, End, S11)
  {
  }

  lemma IsResumed()
    ensures Leads(S11, Do(Resume(None), "B"), S12)
  {
    assert S11.launches + {Some("B")} == {Some("A"), Some("B")} && S11.claims + {"B"} == {"A", "B"};
    assert S11.answered + WaitIds(STOPPED) == {"first"};
  }

  lemma AsksAgain()
    ensures Leads(S12, Begin(Some("A")), S13) && Leads(S13, Pause(Question("second"), false), S14)
  {
    assert {Some("A"), Some("B")} - {Some("A")} == {Some("B")} && S13.issued + {"second"} == {"first", "second"};
  }

  lemma Hides()
    ensures Next(PLAIN, S14, Flush).Some?
    ensures var after := Next(PLAIN, S14, Flush).value.doc; after.status == Running && after.wait.None?
  {
  }

  lemma FirstHalf() returns (steps: seq<Step>)
    ensures Arrived(steps, S7)
  {
    Asks();
    Saves();
    Shows();
    IsAnswered();
    IsAborted();
    assert Arrived([], BEGUN);
    steps := OneMore([], BEGUN, Begin(None), S1);
    steps := OneMore(steps, S1, Observe(COMMITTED), S2);
    steps := OneMore(steps, S2, Pause(Question("first"), false), S3);
    steps := OneMore(steps, S3, Batch, S4);
    steps := OneMore(steps, S4, Flush, S5);
    steps := OneMore(steps, S5, Do(Answer("first", Str("yes")), "A"), S6);
    steps := OneMore(steps, S6, Do(Cancel, "x"), S7);
  }

  lemma SecondHalf(before: seq<Step>) returns (steps: seq<Step>)
    requires Arrived(before, S7)
    ensures Arrived(steps, S14)
  {
    IsAborted();
    Stops();
    Ends();
    IsResumed();
    AsksAgain();
    steps := OneMore(before, S7, Fail(Stopped), S8);
    steps := OneMore(steps, S8, Flush, S9);
    steps := OneMore(steps, S9, Wake("y"), S10);
    steps := OneMore(steps, S10, End, S11);
    steps := OneMore(steps, S11, Do(Resume(None), "B"), S12);
    steps := OneMore(steps, S12, Begin(Some("A")), S13);
    steps := OneMore(steps, S13, Pause(Question("second"), false), S14);
  }

  /** Resumed too early, a run can hide a question that nobody has answered: the launch of an earlier
      answer begins after the later claim, asks at the same checkpoint, and its wait counts as
      superseded. That a graph asks again without having committed a checkpoint in between is a freedom
      of the abstract engine. */
  lemma EarlyResumeHidesAWait() returns (steps: seq<Step>)
    ensures Init(BEGUN) && After(PLAIN, BEGUN, steps) == Some(S14)
    ensures S14.exec.Some? && S14.exec.value.view.status == Waiting && S14.exec.value.view.wait == Some(Question("second"))
    ensures "second" !in S14.answered && !S14.doc.abortRequested && Next(PLAIN, S14, Flush).Some?
    ensures var after := Next(PLAIN, S14, Flush).value.doc; after.status == Running && after.wait.None?
  {
    var before := FirstHalf();
    steps := SecondHalf(before);
    Hides();
  }
}
