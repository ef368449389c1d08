/** Every interleaving of public commands with the executor of a run: what the executor holds may be
    stale at any time, and only the merge of RunDocument.dfy protects the document
    (rust/crates/zf-execution/src/sessions.rs, commands.rs and service.rs). The graph engine is an
    abstract source of events. It is assumed that a graph has committed a checkpoint when it pauses
    and commits none while paused, and that a resumed one reports some event before its executor
    flushes again. */
module RunProtocol {
  import opened Base
  import opened RunDocument

  /** A committed checkpoint, of the run itself or of one of its children. */
  datatype Event = OwnCheckpoint(checkpoint: string, consumed: seq<string>) | ChildCheckpoint(consumed: seq<string>)

  function Joined(a: seq<string>, b: seq<string>): seq<string> {
    if b == [] then a
    else
      var n := |b| - 1;
      var before := Joined(a, b[..n]);
      if b[n] in before then before else before + [b[n]]
  }

  function Observed(doc: Doc, e: Event): Doc {
    match e
    case OwnCheckpoint(id, consumed) => doc.(checkpoint := Some(id), consumed := Joined(doc.consumed, consumed))
    case ChildCheckpoint(consumed) => doc.(consumed := Joined(doc.consumed, consumed))
  }

  function ObservedAll(doc: Doc, events: seq<Event>): Doc {
    if events == [] then doc else Observed(ObservedAll(doc, events[..|events| - 1]), events[|events| - 1])
  }

  /** What the executor's graph is doing: begun or resumed without an event so far, going on, paused at
      a wait, at its end, or given up after an error that is still to be recorded. */
  datatype Mode = Resuming | Going | Suspended | Over | Broken

  /** The one executor of a run: its view, the claim it acts for, observations not yet persisted, and
      whether it owes a wake-up check. */
  datatype Exec = Exec(view: Doc, claim: Option<string>, pending: seq<Event>, mode: Mode, waking: bool)

  /** `issued`, `answered` and `claims` record identities: waits ever opened, waits ever claimed, and
      claims ever made. `launches` holds the launches that have neither become an executor nor been
      accepted by one: each claim makes one, and the first start has none. */
  datatype State = State(doc: Doc, exec: Option<Exec>, issued: set<string>, answered: set<string>, claims: set<string>,
    launches: set<Option<string>>)

  datatype Command =
    | Answer(waitId: string, value: Json)
    | SelectModel(path: string, selection: Json, revision: nat)
    | Queue(id: string, kind: string, text: string)
    | RemoveMessage(id: string)
    | Cancel
    | Resume(steering: Option<(string, string)>)

  datatype Step =
    | Do(command: Command, claim: string)
    | Begin(owner: Option<string>)
    | Observe(event: Event)
    | Batch
    | Pause(wait: Wait, stopped: bool)
    | Accept(by_: string)
    | Continue
    | Finish
    | Fail(status: Status)
    | Flush
    | Wake(claim: string)
    | Break(status: Status)
    | Drop
    | End

  function Commanded(rules: Rules, doc: Doc, command: Command, claim: string): Option<Doc> {
    match command
    case Answer(waitId, value) => Answered(rules, doc, waitId, value, claim)
    case SelectModel(path, selection, revision) => SelectedModel(rules, doc, path, selection, revision, claim)
    case Queue(id, kind, text) => Queued(rules, doc, id, kind, text, claim)
    case RemoveMessage(id) => Withdrawn(doc, id)
    case Cancel => Some(Aborted(doc))
    case Resume(steering) =>
      if steering.Some? && Find(doc.queue, steering.value.0).Some? then None else Resumed(rules, doc, steering, claim)
  }

  function WaitIds(doc: Doc): set<string> {
    if doc.wait.Some? then {doc.wait.value.id} else {}
  }

  /** The document is replaced by `doc`; if that claims a continuation, its wait has been answered. */
  function Written(s: State, doc: Doc, claim: string): State {
    if doc.claim == Some(claim)
    then s.(doc := doc, claims := s.claims + {claim}, answered := s.answered + WaitIds(s.doc),
      launches := s.launches + {Some(claim)})
    else s.(doc := doc)
  }

  /** The graph may go on: it is not paused or over, or it has just been resumed. */
  predicate Live(x: Exec) { x.mode == Going || x.mode == Resuming }

  function ExecStep(s: State, x: Exec, step: Step): Option<State> {
    match step
    case Observe(e) =>
      if x.mode == Broken || (e.OwnCheckpoint? && !Live(x)) then None
      else Some(s.(exec := Some(x.(view := Observed(x.view, e), pending := x.pending + [e]))))
    case Batch => Some(s.(doc := ObservedAll(s.doc, x.pending), exec := Some(x.(pending := []))))
    case Pause(wait, stopped) =>
      if wait.id in s.issued || !Live(x) || x.view.checkpoint.None? then None
      else
        var view := x.view.(status := if stopped then Stopped else Waiting, wait := Some(wait));
        Some(s.(issued := s.issued + {wait.id}, exec := Some(x.(view := view, mode := Suspended))))
    case Accept(by_) =>
      if Some(by_) !in s.launches || x.mode != Suspended then None
      else Some(s.(exec := Some(x.(claim := Some(by_), mode := Resuming)), launches := s.launches - {Some(by_)}))
    case Continue =>
      if !Live(x) then None
      else Some(s.(exec := Some(x.(view := x.view.(status := Running, wait := None), mode := Going))))
    case Finish =>
      if !Live(x) then None
      else Some(s.(exec := Some(x.(view := x.view.(status := Completed, wait := None), mode := Over))))
    case Fail(status) =>
      if x.mode == Broken || (status != Failed && status != Stopped && status != Interrupted) then None
      else Some(s.(exec := Some(x.(view := x.view.(status := status), mode := Over))))
    case Flush =>
      if x.pending != [] || x.mode == Resuming || x.mode == Broken then None
      else Some(s.(doc := Merged(s.doc, x.view.(claim := x.claim)), exec := Some(x.(waking := true))))
    // An error outside the graph: the document is read, and later merged with the failure.
    case Break(status) =>
      if status != Failed && status != Interrupted then None
      else Some(s.(exec := Some(x.(view := s.doc.(status := status), claim := s.doc.claim, pending := [], mode := Broken))))
    case Drop =>
      if x.mode != Broken then None else Some(s.(doc := Merged(s.doc, x.view.(claim := x.claim)), exec := None))
    case End => if x.waking || Live(x) || x.mode == Broken then None else Some(s.(exec := None))
    case _ => None
  }

  function Next(rules: Rules, s: State, step: Step): Option<State> {
    match step
    case Do(command, claim) =>
      if claim in s.claims then None
      else
        var doc := Commanded(rules, s.doc, command, claim);
        if doc.None? then None else Some(Written(s, doc.value, claim))
    case Begin(owner) =>
      if s.exec.Some? || owner !in s.launches then None
      else Some(s.(exec := Some(Exec(s.doc, owner, [], Resuming, false)), launches := s.launches - {owner}))
    case Wake(claim) =>
      if s.exec.None? || !s.exec.value.waking || claim in s.claims then None
      else
        var t := s.(exec := Some(s.exec.value.(waking := false)));
        if !NeedsWake(s.doc) then Some(t)
        else
          var doc := Claim(rules, s.doc, map[], claim);
          if doc.None? then None else Some(Written(t, doc.value, claim))
    case _ => if s.exec.None? then None else ExecStep(s, s.exec.value, step)
  }

  // ----- The invariant -----

  predicate HasOwn(events: seq<Event>) {
    exists i | 0 <= i < |events| :: events[i].OwnCheckpoint?
  }

  /** An answered wait that the executor still shows as open will be recognised as superseded. */
  predicate Guarded(s: State, x: Exec) {
    x.view.status == Waiting ==>
      && x.view.wait.Some? && x.view.checkpoint.Some?
      && (x.view.wait.value.id in s.answered && x.mode != Resuming ==> Superseded(s.doc, x.view.(claim := x.claim)))
  }

  predicate SameWait(a: Doc, b: Doc) {
    a.wait.Some? && b.wait.Some? && a.wait.value.id == b.wait.value.id
  }

  /** While document and executor show the same open wait, they agree on its checkpoint. */
  predicate Aligned(s: State, x: Exec) {
    x.view.status == Waiting && SameWait(s.doc, x.view) && x.mode != Resuming ==>
      !HasOwn(x.pending) && s.doc.checkpoint == x.view.checkpoint
  }

  predicate Held(s: State, x: Exec) {
    WaitIds(x.view) <= s.issued && (x.claim.Some? ==> x.claim.value in s.claims)
  }

  predicate Recorded(s: State) {
    && s.answered <= s.issued && WaitIds(s.doc) <= s.issued
    && (s.doc.claim.Some? ==> s.doc.claim.value in s.claims)
    && (s.exec.Some? ==> Held(s, s.exec.value) && ModeOk(s.exec.value))
    && (forall l | l in s.launches && l.Some? :: l.value in s.claims)
  }

  /** The view shows a wait while the graph is paused, or before the first event of a resumed one. */
  predicate ModeOk(x: Exec) {
    && (x.mode == Going || x.mode == Over || x.mode == Broken ==> x.view.status != Waiting)
    && (x.mode == Suspended ==> x.view.wait.Some?)
  }

  predicate DistinctIds(queue: seq<Message>) {
    forall i, j | 0 <= i < j < |queue| :: queue[i].id != queue[j].id
  }

  predicate Inv(s: State) {
    && Recorded(s)
    && (s.doc.status == Waiting ==> s.doc.wait.Some? && s.doc.wait.value.id !in s.answered && s.doc.checkpoint.Some?)
    && (s.doc.abortRequested ==> s.doc.status != Waiting)
    && (s.exec.Some? ==> Guarded(s, s.exec.value) && Aligned(s, s.exec.value))
    && (NeedsWake(s.doc) ==> s.exec.Some? && s.exec.value.waking)
    && DistinctIds(s.doc.queue)
  }

  predicate Init(s: State) {
    && s.exec.None? && s.issued == {} && s.answered == {} && s.claims == {} && s.launches == {None}
    && s.doc.status == Running && s.doc.wait.None? && s.doc.queue == [] && !s.doc.abortRequested
    && s.doc.claim.None? && s.doc.resumeInput.None? && s.doc.resumeCheckpoint.None?
  }

  // ----- Commands -----

  /** A claim: the continuation of a suspended run, at its checkpoint, under a new identity. */
  predicate ClaimShape(doc: Doc, after: Doc, claim: string) {
    && doc.status != Running && after.status == Running && after.wait.None? && after.claim == Some(claim)
    && !after.abortRequested && after.checkpoint == doc.checkpoint && doc.checkpoint.Some?
    && after.resumeCheckpoint == doc.checkpoint && after.resumeInput.Some?
    && (doc.status == Waiting ==> doc.wait.Some?)
  }

  /** Any other command: suspension, checkpoint and claim stay; an abort may stop a wait. */
  predicate EditShape(doc: Doc, after: Doc) {
    && after.wait == doc.wait && after.checkpoint == doc.checkpoint && after.claim == doc.claim
    && after.resumeCheckpoint == doc.resumeCheckpoint && after.resumeInput == doc.resumeInput
    && (after.status == doc.status || (doc.status == Waiting && after.status == Stopped && after.abortRequested))
    && (after.abortRequested == doc.abortRequested || (after.abortRequested && after.status != Waiting))
    && (NeedsWake(after) ==> NeedsWake(doc))
  }

  predicate QueueKept(a: seq<Message>, b: seq<Message>) {
    |a| <= |b| && forall i | 0 <= i < |a| :: Progressed(a[i], b[i])
  }

  ghost predicate Shaped(doc: Doc, after: Doc, claim: string) {
    && (if after.claim == Some(claim) then ClaimShape(doc, after, claim) else EditShape(doc, after))
    && QueueKept(doc.queue, after.queue) && DistinctIds(after.queue)
  }

  lemma ClaimShaped(rules: Rules, doc: Doc, mid: Doc, input: Input, claim: string)
    requires Claim(rules, mid, input, claim).Some? && doc.status != Running && (doc.status == Waiting ==> doc.wait.Some?)
    requires mid.checkpoint == doc.checkpoint && mid.queue == doc.queue && DistinctIds(doc.queue)
    ensures Shaped(doc, Claim(rules, mid, input, claim).value, claim)
  {
  }

  lemma AnswerShape(rules: Rules, doc: Doc, waitId: string, value: Json, claim: string)
    requires Answered(rules, doc, waitId, value, claim).Some? && doc.claim != Some(claim) && DistinctIds(doc.queue)
    ensures Shaped(doc, Answered(rules, doc, waitId, value, claim).value, claim)
  {
    var wait, path := doc.wait.value, doc.wait.value.path.value;
    if wait.kind == ModelWait {
      ClaimShaped(rules, doc, Bound(doc, path, value), map[], claim);
    } else {
      var sent := if value.Str? then Str(rules.expand(doc, value.s).value) else value;
      var shown := if value.Str? then value.s else if value.Bool? && value.b then "true" else "false";
      ClaimShaped(rules, doc, doc.(messages := doc.messages + [Entry(waitId, true, shown)]),
        map[Channel(doc, path) := Obj(map["__zedflowAnswerId" := Str(waitId), "value" := sent])], claim);
    }
  }

  lemma SelectShape(rules: Rules, doc: Doc, path: string, selection: Json, revision: nat, claim: string)
    requires SelectedModel(rules, doc, path, selection, revision, claim).Some? && doc.claim != Some(claim) && DistinctIds(doc.queue)
    ensures Shaped(doc, SelectedModel(rules, doc, path, selection, revision, claim).value, claim)
  {
    var after := Bound(doc, path, selection);
    if SelectedModel(rules, doc, path, selection, revision, claim).value.claim == Some(claim) {
      ClaimShaped(rules, doc, after, map[], claim);
    }
  }

  lemma Appended(queue: seq<Message>, m: Message)
    requires DistinctIds(queue) && Find(queue, m.id).None?
    ensures QueueKept(queue, queue + [m]) && DistinctIds(queue + [m])
  {
  }

  lemma AppendShape(rules: Rules, doc: Doc, m: Message, claim: string)
    requires doc.claim != Some(claim) && DistinctIds(doc.queue) && Find(doc.queue, m.id).None?
    ensures var after := doc.(queue := doc.queue + [m]);
      if AtInbox(doc) then Claim(rules, after, map[], claim).Some? ==> Shaped(doc, Claim(rules, after, map[], claim).value, claim)
      else Shaped(doc, after, claim)
  {
    Appended(doc.queue, m);
  }

  lemma QueueShape(rules: Rules, doc: Doc, id: string, kind: string, text: string, claim: string)
    requires Queued(rules, doc, id, kind, text, claim).Some? && doc.claim != Some(claim) && DistinctIds(doc.queue)
    ensures Shaped(doc, Queued(rules, doc, id, kind, text, claim).value, claim)
  {
    var expanded := rules.expand(doc, text);
    if Find(doc.queue, id).None? && expanded.Some? {
      AppendShape(rules, doc, Message(id, kind, expanded.value, text, Pending), claim);
    }
  }

  lemma ResumeShape(rules: Rules, doc: Doc, steering: Option<(string, string)>, claim: string)
    requires Resumed(rules, doc, steering, claim).Some? && doc.claim != Some(claim) && DistinctIds(doc.queue)
    requires steering.Some? ==> Find(doc.queue, steering.value.0).None?
    ensures Shaped(doc, Resumed(rules, doc, steering, claim).value, claim)
  {
    if steering.Some? {
      var expanded := rules.expand(doc, steering.value.1);
      if expanded.Some? {
        Appended(doc.queue, Message(steering.value.0, "steering", expanded.value, steering.value.1, Pending));
      }
    }
  }

  lemma CommandShape(rules: Rules, doc: Doc, command: Command, claim: string)
    requires Commanded(rules, doc, command, claim).Some? && doc.claim != Some(claim) && DistinctIds(doc.queue)
    ensures Shaped(doc, Commanded(rules, doc, command, claim).value, claim)
  {
    match command
    case Answer(waitId, value) => AnswerShape(rules, doc, waitId, value, claim);
    case SelectModel(path, selection, revision) => SelectShape(rules, doc, path, selection, revision, claim);
    case Queue(id, kind, text) => QueueShape(rules, doc, id, kind, text, claim);
    case Resume(steering) => ResumeShape(rules, doc, steering, claim);
    case _ =>
  }

  // ----- Every step keeps the invariant -----

  lemma WrittenKeeps(s: State, doc: Doc, claim: string)
    requires Inv(s) && claim !in s.claims && Shaped(s.doc, doc, claim)
    ensures Inv(Written(s, doc, claim))
  {
    var t := Written(s, doc, claim);
    if s.exec.Some? && doc.claim == Some(claim) {
      var x := s.exec.value;
      if x.view.status == Waiting && x.view.wait.value.id in t.answered && x.mode != Resuming {
        assert x.view.wait.value.id !in s.answered;
        assert s.doc.wait.Some? && s.doc.wait.value.id == x.view.wait.value.id;
      }
    }
  }

  lemma {:induction false} ObservedKeeps(doc: Doc, events: seq<Event>)
    ensures var after := ObservedAll(doc, events);
      after == doc.(checkpoint := after.checkpoint, consumed := after.consumed)
      && (!HasOwn(events) ==> after.checkpoint == doc.checkpoint)
      && (doc.checkpoint.Some? ==> after.checkpoint.Some?)
  {
    if events != [] {
      var n := |events| - 1;
      ObservedKeeps(doc, events[..n]);
      assert events[n] in events;
      if !HasOwn(events) { assert forall i | 0 <= i < n :: events[..n][i] == events[i]; }
    }
  }

  /** What a merge makes of the fields that the invariant speaks of. */
  predicate MergeShape(latest: Doc, run: Doc, after: Doc) {
    && after.claim == latest.claim && after.checkpoint == run.checkpoint && after.abortRequested == latest.abortRequested
    && (if Superseded(latest, run) then after.status == Running && after.wait.None?
        else after.wait == run.wait && after.status == if run.status == Waiting && latest.abortRequested then Stopped else run.status)
    && (latest.resumeCheckpoint == run.checkpoint ==> after.resumeCheckpoint == latest.resumeCheckpoint)
  }

  lemma MergeShaped(latest: Doc, run: Doc)
    ensures MergeShape(latest, run, Merged(latest, run))
  {
  }

  lemma MergeKeepsIds(latest: Doc, run: Doc)
    requires DistinctIds(latest.queue)
    ensures DistinctIds(Merged(latest, run).queue)
  {
    var after := Merged(latest, run).queue;
    assert |after| == |latest.queue| && forall i | 0 <= i < |after| :: after[i].id == latest.queue[i].id;
  }

  lemma FlushKeepsAs(s: State, x: Exec, after: Doc)
    requires Inv(s) && s.exec == Some(x) && x.pending == [] && x.mode != Resuming && x.mode != Broken
    requires MergeShape(s.doc, x.view.(claim := x.claim), after) && DistinctIds(after.queue)
    ensures Inv(s.(doc := after, exec := Some(x.(waking := true))))
  {
    assert x.view.status == Waiting && x.view.wait.value.id in s.answered ==> after.status == Running && after.wait.None?;
  }

  lemma FlushKeeps(s: State, x: Exec)
    requires Inv(s) && s.exec == Some(x) && x.pending == [] && x.mode != Resuming && x.mode != Broken
    ensures Inv(s.(doc := Merged(s.doc, x.view.(claim := x.claim)), exec := Some(x.(waking := true))))
  {
    MergeShaped(s.doc, x.view.(claim := x.claim));
    MergeKeepsIds(s.doc, x.view.(claim := x.claim));
    FlushKeepsAs(s, x, Merged(s.doc, x.view.(claim := x.claim)));
  }

  lemma BatchKeeps(s: State, x: Exec)
    requires Inv(s) && s.exec == Some(x)
    ensures Inv(s.(doc := ObservedAll(s.doc, x.pending), exec := Some(x.(pending := []))))
  {
    ObservedKeeps(s.doc, x.pending);
  }

  lemma ExecKeeps(s: State, x: Exec, step: Step)
    requires Inv(s) && s.exec == Some(x) && ExecStep(s, x, step).Some?
    ensures Inv(ExecStep(s, x, step).value)
  {
    match step
    case Flush => FlushKeeps(s, x);
    case Batch => BatchKeeps(s, x);
    case Observe(e) => ObserveKeeps(s, x, e);
    case Drop => DropKeeps(s, x);
    case Pause(_, _) => PauseKeeps(s, x, step);
    case Accept(_) => AcceptKeeps(s, x, step);
    case Break(_) => BreakKeeps(s, x, step);
    case _ => OutcomeKeeps(s, x, step);
  }

  lemma PauseKeeps(s: State, x: Exec, step: Step)
    requires Inv(s) && s.exec == Some(x) && step.Pause? && ExecStep(s, x, step).Some?
    ensures Inv(ExecStep(s, x, step).value)
  {
  }

  lemma AcceptKeeps(s: State, x: Exec, step: Step)
    requires Inv(s) && s.exec == Some(x) && step.Accept? && ExecStep(s, x, step).Some?
    ensures Inv(ExecStep(s, x, step).value)
  {
  }

  lemma BreakKeeps(s: State, x: Exec, step: Step)
    requires Inv(s) && s.exec == Some(x) && step.Break? && ExecStep(s, x, step).Some?
    ensures Inv(ExecStep(s, x, step).value)
  {
  }

  /** How the graph goes on or ends. */
  lemma OutcomeKeeps(s: State, x: Exec, step: Step)
    requires Inv(s) && s.exec == Some(x) && (step.Continue? || step.Finish? || step.Fail? || step.End?)
    requires ExecStep(s, x, step).Some?
    ensures Inv(ExecStep(s, x, step).value)
  {
  }

  lemma ObserveKeeps(s: State, x: Exec, e: Event)
    requires Inv(s) && s.exec == Some(x) && (e.OwnCheckpoint? ==> Live(x))
    ensures Inv(s.(exec := Some(x.(view := Observed(x.view, e), pending := x.pending + [e]))))
  {
    var more := x.pending + [e];
    if e.ChildCheckpoint? && !HasOwn(x.pending) {
      assert !HasOwn(more);
    }
  }

  lemma DropKeeps(s: State, x: Exec)
    requires Inv(s) && s.exec == Some(x) && x.mode == Broken
    ensures Inv(s.(doc := Merged(s.doc, x.view.(claim := x.claim)), exec := None))
  {
    var after := Merged(s.doc, x.view.(claim := x.claim));
    assert DistinctIds(after.queue) && after.status != Waiting;
  }

  /** Whatever happens, in whatever order, the invariant survives. */
  lemma NextKeeps(rules: Rules, s: State, step: Step)
    requires Inv(s) && Next(rules, s, step).Some?
    ensures Inv(Next(rules, s, step).value)
  {
    match step
    case Do(command, claim) =>
      CommandShape(rules, s.doc, command, claim);
      WrittenKeeps(s, Commanded(rules, s.doc, command, claim).value, claim);
    case Begin(_) =>
    case Wake(claim) => WakeKeeps(rules, s, claim);
    case _ => ExecKeeps(s, s.exec.value, step);
  }

  lemma WakeKeeps(rules: Rules, s: State, claim: string)
    requires Inv(s) && Next(rules, s, Wake(claim)).Some?
    ensures Inv(Next(rules, s, Wake(claim)).value)
  {
    if NeedsWake(s.doc) {
      var doc := Claimed(s.doc, map[], claim);
      assert Shaped(s.doc, doc, claim);
      WrittenKeeps(s, doc, claim);
    }
  }

  /** The state after a sequence of steps, all of which must be possible. */
  function After(rules: Rules, s: State, steps: seq<Step>): Option<State> {
    if steps == [] then Some(s)
    else
      var n := |steps| - 1;
      var before := After(rules, s, steps[..n]);
      if before.None? then None else Next(rules, before.value, steps[n])
  }

  /** The invariant holds of every reachable state. */
  lemma {:induction false} AlwaysInv(rules: Rules, s: State, steps: seq<Step>)
    requires (Init(s) || Inv(s)) && After(rules, s, steps).Some?
    ensures Inv(After(rules, s, steps).value)
  {
    if steps != [] {
      var n := |steps| - 1;
      AlwaysInv(rules, s, steps[..n]);
      NextKeeps(rules, After(rules, s, steps[..n]).value, steps[n]);
    }
  }

  // ----- Safety of whole runs -----

  /** The open wait that a step claims, if any. */
  function Claims(rules: Rules, s: State, step: Step): Option<string> {
    if (step.Do? || step.Wake?) && s.doc.status == Waiting && s.doc.wait.Some? && Next(rules, s, step).Some?
      && Next(rules, s, step).value.doc.claim == Some(step.claim) && s.doc.claim != Some(step.claim)
    then Some(s.doc.wait.value.id) else None
  }

  lemma NextRemembers(rules: Rules, s: State, step: Step)
    requires Next(rules, s, step).Some?
    ensures var t := Next(rules, s, step).value;
      && s.answered <= t.answered && s.claims <= t.claims
      && (Claims(rules, s, step).Some? ==> Claims(rules, s, step).value in t.answered)
  {
  }

  predicate Remembers(s: State, t: State) { s.answered <= t.answered && s.claims <= t.claims }

  lemma RemembersMore(rules: Rules, s: State, steps: seq<Step>, first: State)
    requires steps != [] && After(rules, s, steps).Some?
    requires var before := After(rules, s, steps[..|steps| - 1]); before.Some? && Remembers(first, before.value)
    ensures Remembers(first, After(rules, s, steps).value)
  {
    NextRemembers(rules, After(rules, s, steps[..|steps| - 1]).value, steps[|steps| - 1]);
  }

  predicate Reached(rules: Rules, s: State, steps: seq<Step>, k: nat, last: State)
    requires k <= |steps|
  {
    var mid := After(rules, s, steps[..k]);
    mid.Some? && Remembers(mid.value, last)
  }

  lemma {:induction false} AfterSplit(rules: Rules, s: State, steps: seq<Step>, k: nat)
    requires k <= |steps| && After(rules, s, steps).Some?
    ensures Reached(rules, s, steps, k, After(rules, s, steps).value)
    decreases |steps|
  {
    if k == |steps| {
      assert steps[..k] == steps;
    } else {
      var n := |steps| - 1;
      assert steps[..n][..k] == steps[..k];
      AfterSplit(rules, s, steps[..n], k);
      RemembersMore(rules, s, steps, After(rules, s, steps[..k]).value);
    }
  }

  /** A wait is claimed at most once: no answer, selection, message or wake-up ever claims a wait that
      an earlier one claimed, however commands and flushes interleave. */
  lemma ClaimedAtMostOnce(rules: Rules, s: State, steps: seq<Step>, i: nat, j: nat)
    requires Init(s) && i < j < |steps| && After(rules, s, steps).Some?
    ensures var a, b := After(rules, s, steps[..i]), After(rules, s, steps[..j]);
      a.Some? && b.Some?
      && (var c, d := Claims(rules, a.value, steps[i]), Claims(rules, b.value, steps[j]);
          c.Some? && d.Some? ==> c != d)
  {
    AfterSplit(rules, s, steps, i);
    AfterSplit(rules, s, steps, i + 1);
    AfterSplit(rules, s, steps, j);
    var a, next, b := After(rules, s, steps[..i]).value, After(rules, s, steps[..i + 1]).value, After(rules, s, steps[..j]).value;
    assert steps[..i + 1][..i] == steps[..i];
    NextRemembers(rules, a, steps[i]);
    AfterSplit(rules, s, steps[..j], i + 1);
    assert steps[..j][..i + 1] == steps[..i + 1];
    AlwaysInv(rules, s, steps[..j]);
  }

  lemma StepKeepsQueue(rules: Rules, s: State, step: Step)
    requires Inv(s) && Next(rules, s, step).Some?
    ensures QueueKept(s.doc.queue, Next(rules, s, step).value.doc.queue)
  {
    match step
    case Do(command, claim) => CommandShape(rules, s.doc, command, claim);
    case Batch => ObservedKeeps(s.doc, s.exec.value.pending);
    case _ =>
  }

  lemma KeptTwice(a: seq<Message>, b: seq<Message>, c: seq<Message>)
    requires QueueKept(a, b) && QueueKept(b, c)
    ensures QueueKept(a, c)
  {
    forall i | 0 <= i < |a| ensures Progressed(a[i], c[i]) { assert Progressed(a[i], b[i]) && Progressed(b[i], c[i]); }
  }

  lemma QueueStep(rules: Rules, first: seq<Message>, before: State, step: Step)
    requires Inv(before) && Next(rules, before, step).Some? && QueueKept(first, before.doc.queue)
    ensures QueueKept(first, Next(rules, before, step).value.doc.queue)
  {
    StepKeepsQueue(rules, before, step);
    KeptTwice(first, before.doc.queue, Next(rules, before, step).value.doc.queue);
  }

  lemma QueueGoesOn(rules: Rules, s: State, steps: seq<Step>, first: seq<Message>)
    requires steps != [] && After(rules, s, steps).Some?
    requires var before := After(rules, s, steps[..|steps| - 1]); before.Some? && Inv(before.value) && QueueKept(first, before.value.doc.queue)
    ensures QueueKept(first, After(rules, s, steps).value.doc.queue)
  {
    QueueStep(rules, first, After(rules, s, steps[..|steps| - 1]).value, steps[|steps| - 1]);
  }

  /** The state after `k` steps is reached, and the queue has only progressed since. */
  predicate Progresses(rules: Rules, s: State, steps: seq<Step>, k: nat, last: State)
    requires k <= |steps|
  {
    var mid := After(rules, s, steps[..k]);
    mid.Some? && QueueKept(mid.value.doc.queue, last.doc.queue)
  }

  lemma KeptSelf(q: seq<Message>)
    ensures QueueKept(q, q)
  {
  }

  /** No queued message is ever lost, altered or brought back: over any run the queue only grows, and
      each message only moves once, from pending to consumed or to cancelled. */
  lemma {:induction false} QueueOnlyProgresses(rules: Rules, s: State, steps: seq<Step>, k: nat)
    requires Init(s) && After(rules, s, steps).Some? && k <= |steps|
    ensures Progresses(rules, s, steps, k, After(rules, s, steps).value)
    decreases |steps|
  {
    if k == |steps| {
      assert steps[..k] == steps;
      KeptSelf(After(rules, s, steps).value.doc.queue);
    } else {
      var n := |steps| - 1;
      assert steps[..n][..k] == steps[..k];
      QueueOnlyProgresses(rules, s, steps[..n], k);
      AlwaysInv(rules, s, steps[..n]);
      QueueGoesOn(rules, s, steps, After(rules, s, steps[..k]).value.doc.queue);
    }
  }

  /** Either the model selections are untouched, or one more is made under the next revision. */
  predicate Selects(a: Doc, b: Doc) {
    || (b.modelRevision == a.modelRevision && b.modelBindings == a.modelBindings)
    || (b.modelRevision == a.modelRevision + 1
        && exists path | path in b.modelBindings :: b.modelBindings == a.modelBindings[path := b.modelBindings[path]])
  }

  lemma BoundSelects(doc: Doc, path: string, selection: Json, after: Doc)
    requires after.modelBindings == Bound(doc, path, selection).modelBindings && after.modelRevision == doc.modelRevision + 1
    ensures Selects(doc, after)
  {
    assert path in after.modelBindings && after.modelBindings == doc.modelBindings[path := after.modelBindings[path]];
  }

  lemma {:induction false} ObservedSelects(doc: Doc, events: seq<Event>)
    ensures ObservedAll(doc, events).modelBindings == doc.modelBindings && ObservedAll(doc, events).modelRevision == doc.modelRevision
  {
    if events != [] { ObservedSelects(doc, events[..|events| - 1]); }
  }

  lemma AnswerSelects(rules: Rules, doc: Doc, waitId: string, value: Json, claim: string)
    requires Answered(rules, doc, waitId, value, claim).Some?
    ensures Selects(doc, Answered(rules, doc, waitId, value, claim).value)
  {
    if doc.wait.value.kind == ModelWait {
      BoundSelects(doc, doc.wait.value.path.value, value, Answered(rules, doc, waitId, value, claim).value);
    }
  }

  lemma ModelSelects(rules: Rules, doc: Doc, path: string, selection: Json, revision: nat, claim: string)
    requires SelectedModel(rules, doc, path, selection, revision, claim).Some?
    ensures Selects(doc, SelectedModel(rules, doc, path, selection, revision, claim).value)
  {
    BoundSelects(doc, path, selection, SelectedModel(rules, doc, path, selection, revision, claim).value);
  }

  lemma CommandSelects(rules: Rules, doc: Doc, command: Command, claim: string)
    requires Commanded(rules, doc, command, claim).Some?
    ensures Selects(doc, Commanded(rules, doc, command, claim).value)
  {
    match command
    case Answer(waitId, value) => AnswerSelects(rules, doc, waitId, value, claim);
    case SelectModel(path, selection, revision) => ModelSelects(rules, doc, path, selection, revision, claim);
    case _ =>
  }

  lemma StepSelects(rules: Rules, s: State, step: Step)
    requires Next(rules, s, step).Some?
    ensures Selects(s.doc, Next(rules, s, step).value.doc)
    ensures !step.Do? ==> Next(rules, s, step).value.doc.modelRevision == s.doc.modelRevision
  {
    match step
    case Do(command, claim) => CommandSelects(rules, s.doc, command, claim);
    case Batch => ObservedSelects(s.doc, s.exec.value.pending);
    case _ =>
  }

  /** The revision has not gone back, and if it is the same the selections are the same. */
  predicate Newer(a: Doc, b: Doc) {
    a.modelRevision <= b.modelRevision && (a.modelRevision == b.modelRevision ==> a.modelBindings == b.modelBindings)
  }

  lemma NewerYet(a: Doc, b: Doc, c: Doc)
    requires Newer(a, b) && Selects(b, c)
    ensures Newer(a, c)
  {
  }

  lemma NewerGoesOn(rules: Rules, s: State, steps: seq<Step>, first: Doc)
    requires steps != [] && After(rules, s, steps).Some?
    requires var before := After(rules, s, steps[..|steps| - 1]); before.Some? && Newer(first, before.value.doc)
    ensures Newer(first, After(rules, s, steps).value.doc)
  {
    var before := After(rules, s, steps[..|steps| - 1]).value;
    StepSelects(rules, before, steps[|steps| - 1]);
    NewerYet(first, before.doc, After(rules, s, steps).value.doc);
  }

  /** The state after `k` steps is reached, and its selections have not been lost since. */
  predicate Selected(rules: Rules, s: State, steps: seq<Step>, k: nat, last: State)
    requires k <= |steps|
  {
    var mid := After(rules, s, steps[..k]);
    mid.Some? && Newer(mid.value.doc, last.doc)
  }

  /** No model selection is lost to a flush: over any run the revision only grows, and as long as it is
      the same the selections are the same. */
  lemma {:induction false} SelectionsFollowRevision(rules: Rules, s: State, steps: seq<Step>, k: nat)
    requires After(rules, s, steps).Some? && k <= |steps|
    ensures Selected(rules, s, steps, k, After(rules, s, steps).value)
    decreases |steps|
  {
    if k == |steps| {
      assert steps[..k] == steps;
    } else {
      var n := |steps| - 1;
      assert steps[..n][..k] == steps[..k];
      SelectionsFollowRevision(rules, s, steps[..n], k);
      NewerGoesOn(rules, s, steps, After(rules, s, steps[..k]).value.doc);
    }
  }

  /** Only commands make selections: whatever the executor does, they stay as they are. */
  lemma {:induction false} ExecutorSelectsNothing(rules: Rules, s: State, steps: seq<Step>)
    requires After(rules, s, steps).Some? && forall i | 0 <= i < |steps| :: !steps[i].Do?
    ensures var t := After(rules, s, steps).value;
      t.doc.modelRevision == s.doc.modelRevision && t.doc.modelBindings == s.doc.modelBindings
  {
    if steps != [] {
      var n := |steps| - 1;
      ExecutorSelectsNothing(rules, s, steps[..n]);
      StepSelects(rules, After(rules, s, steps[..n]).value, steps[n]);
    }
  }

  /** The command payload of a claim made at checkpoint `c` is still there. */
  predicate Carries(doc: Doc, input: Input, c: string) {
    doc.resumeInput == Some(input) && doc.resumeCheckpoint == Some(c)
  }

  predicate Moved(doc: Doc, c: string) { doc.checkpoint.Some? && doc.checkpoint != Some(c) }

  /** A claim that answers no wait is a resume, and passes on what the last claim left. */
  lemma ResumeKeepsPayload(rules: Rules, doc: Doc, command: Command, claim: string, input: Input, c: string)
    requires Commanded(rules, doc, command, claim).Some? && doc.claim != Some(claim) && doc.status != Waiting
    requires Commanded(rules, doc, command, claim).value.claim == Some(claim) && Carries(doc, input, c)
    ensures var after := Commanded(rules, doc, command, claim).value; Carries(after, input, c) || Moved(after, c)
  {
  }

  lemma StepKeepsPayload(rules: Rules, s: State, step: Step, input: Input, c: string)
    requires Inv(s) && Next(rules, s, step).Some? && Carries(s.doc, input, c) && Claims(rules, s, step).None?
    ensures var t := Next(rules, s, step).value; Carries(t.doc, input, c) || Moved(t.doc, c)
  {
    match step
    case Do(command, claim) =>
      CommandShape(rules, s.doc, command, claim);
      if Commanded(rules, s.doc, command, claim).value.claim == Some(claim) {
        ResumeKeepsPayload(rules, s.doc, command, claim, input, c);
      }
    case Batch => ObservedKeeps(s.doc, s.exec.value.pending);
    case _ =>
  }

  /** No step of the run claims an open wait. */
  predicate NoWaitClaimed(rules: Rules, s: State, steps: seq<Step>) {
    steps == [] ||
    var n := |steps| - 1;
    NoWaitClaimed(rules, s, steps[..n]) && After(rules, s, steps[..n]).Some?
    && Claims(rules, After(rules, s, steps[..n]).value, steps[n]).None?
  }

  /** The payload of a claim stays in the document until the run's checkpoint has moved on, through any
      number of flushes, failures, aborts and resumes: only the claim of a new wait replaces it. */
  lemma {:induction false} PayloadSurvives(rules: Rules, s: State, steps: seq<Step>, input: Input, c: string)
    requires Inv(s) && Carries(s.doc, input, c) && After(rules, s, steps).Some? && NoWaitClaimed(rules, s, steps)
    ensures Carries(After(rules, s, steps).value.doc, input, c)
      || exists k | 0 <= k <= |steps| ::
           After(rules, s, steps[..k]).Some? && Moved(After(rules, s, steps[..k]).value.doc, c)
  {
    if steps != [] {
      var n := |steps| - 1;
      PayloadSurvives(rules, s, steps[..n], input, c);
      var last := After(rules, s, steps[..n]).value;
      if Carries(last.doc, input, c) {
        AlwaysInv(rules, s, steps[..n]);
        StepKeepsPayload(rules, last, steps[n], input, c);
        assert steps[..|steps|] == steps;
      } else {
        var k :| 0 <= k <= n && After(rules, s, steps[..n][..k]).Some? && Moved(After(rules, s, steps[..n][..k]).value.doc, c);
        assert steps[..n][..k] == steps[..k];
      }
    }
  }

  lemma StepKeepsAbort(rules: Rules, s: State, step: Step)
    requires Inv(s) && Next(rules, s, step).Some? && s.doc.abortRequested
    ensures var t := Next(rules, s, step).value; t.claims != s.claims || t.doc.abortRequested
  {
    match step
    case Do(command, claim) => CommandShape(rules, s.doc, command, claim);
    case Batch => ObservedKeeps(s.doc, s.exec.value.pending);
    case _ =>
  }

  /** An accepted abort beats every racing wait: until something claims the run again, it is never
      shown as waiting. */
  lemma {:induction false} AbortBeatsWaits(rules: Rules, s: State, steps: seq<Step>)
    requires Inv(s) && s.doc.abortRequested && After(rules, s, steps).Some?
    requires After(rules, s, steps).value.claims == s.claims
    ensures var t := After(rules, s, steps).value; t.doc.abortRequested && t.doc.status != Waiting
  {
    AlwaysInv(rules, s, steps);
    if steps != [] {
      var n := |steps| - 1;
      AfterSplit(rules, s, steps, n);
      AfterSplit(rules, s, steps[..n], 0);
      assert steps[..n][..0] == [];
      AbortBeatsWaits(rules, s, steps[..n]);
      AlwaysInv(rules, s, steps[..n]);
      StepKeepsAbort(rules, After(rules, s, steps[..n]).value, steps[n]);
    }
  }

  /** No wake-up is lost: whenever no executor owes its check, an inbox wait has no unseen message. */
  lemma NoLostWakeUp(rules: Rules, s: State, steps: seq<Step>)
    requires Init(s) && After(rules, s, steps).Some?
    ensures var t := After(rules, s, steps).value;
      t.exec.None? || !t.exec.value.waking ==> !NeedsWake(t.doc)
  {
    AlwaysInv(rules, s, steps);
  }
}
