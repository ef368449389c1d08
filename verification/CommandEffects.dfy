/** What each public command does to a run, stated on the run alone: when it is accepted, what it
    changes, and that everything else stays (rust/crates/zf-execution/src/commands.rs). And what a flush
    makes of transcript, queue and the fields of commands (rust/crates/zf-execution/src/sessions.rs). */
module CommandEffects {
  import opened Base
  import opened RunDocument
  import opened RunProtocol

  /** The run goes on from its checkpoint under the claim, with that input and nothing else changed
      but what `after` changes. */
  predicate Continues(s: State, t: State, after: Doc, input: Input, claim: string) {
    && s.doc.checkpoint.Some?
    && t == s.(
         doc := after.(status := Running, wait := None, error := None, abortRequested := false,
           resumeInput := Some(input), resumeCheckpoint := s.doc.checkpoint, claim := Some(claim)),
         claims := s.claims + {claim}, launches := s.launches + {Some(claim)},
         answered := s.answered + if s.doc.wait.Some? then {s.doc.wait.value.id} else {})
  }

  /** The run can be continued with these changes. */
  predicate Ready(rules: Rules, s: State, after: Doc) {
    s.doc.checkpoint.Some? && rules.resumable(after)
  }

  // ----- Answers -----

  /** The root graph's channels are local even where its nodes are observed under qualified paths. */
  predicate LocalTo(doc: Doc, path: string, local: string) {
    if doc.routed then path == "root/" + local || (path == local && !("root/" <= path)) else path == local
  }

  /** The value is the answer itself: a truth value, or a text in which skills are expanded. */
  predicate Delivers(rules: Rules, doc: Doc, answer: Json, value: Json) {
    match answer
    case Bool(b) => value == Bool(b)
    case Str(text) => rules.expand(doc, text).Some? && value == Str(rules.expand(doc, text).value)
    case _ => false
  }

  /** How an answer reads in the transcript. */
  predicate ReadsAs(answer: Json, text: string) {
    answer == Str(text) || (answer == Bool(true) && text == "true") || (answer == Bool(false) && text == "false")
  }

  /** The graph receives the answer on the channel of the node that asks, with the identity of its wait. */
  ghost predicate Receives(rules: Rules, doc: Doc, input: Input, waitId: string, path: string, answer: Json) {
    exists local: string, value: Json ::
      LocalTo(doc, path, local) && Delivers(rules, doc, answer, value) && input == Sends(waitId, local, value)
  }

  function Sends(waitId: string, local: string, value: Json): Input {
    map["answer:" + local := Obj(map["__zedflowAnswerId" := Str(waitId), "value" := value])]
  }

  /** The wait is open, and is a question that takes such an answer. */
  predicate Asks(rules: Rules, doc: Doc, waitId: string, answer: Json) {
    && doc.status == Waiting && doc.wait.Some? && doc.wait.value.id == waitId && doc.wait.value.path.Some?
    && (doc.wait.value.kind == InputWait || doc.wait.value.kind == InboxWait)
    && (if doc.wait.value.confirmation then answer.Bool?
        else answer.Str? && !Blank(answer.s) && rules.expand(doc, answer.s).Some?)
  }

  /** What the transcript gains. */
  ghost predicate Shown(a: Doc, b: Doc, waitId: string, answer: Json) {
    exists text: string :: ReadsAs(answer, text) && b == a.(messages := a.messages + [Entry(waitId, true, text)])
  }

  /** An answer to a question is delivered as it was given. */
  lemma AnswerIsDelivered(rules: Rules, s: State, waitId: string, answer: Json, claim: string, t: State)
    requires Next(rules, s, Do(Answer(waitId, answer), claim)) == Some(t) && s.doc.claim != Some(claim)
    requires s.doc.wait.Some? && s.doc.wait.value.kind != ModelWait
    ensures Asks(rules, s.doc, waitId, answer)
    ensures exists after: Doc, input: Input ::
      && Shown(s.doc, after, waitId, answer)
      && Receives(rules, s.doc, input, waitId, s.doc.wait.value.path.value, answer)
      && Continues(s, t, after, input, claim)
  {
    var path := s.doc.wait.value.path.value;
    var local := if s.doc.routed && "root/" <= path then path[5..] else path;
    assert s.doc.routed && "root/" <= path ==> path == "root/" + local;
    var text := if answer.Str? then answer.s else if answer == Bool(true) then "true" else "false";
    var value := if answer.Str? then Str(rules.expand(s.doc, answer.s).value) else answer;
    var after := s.doc.(messages := s.doc.messages + [Entry(waitId, true, text)]);
    assert ReadsAs(answer, text) && Shown(s.doc, after, waitId, answer);
    assert LocalTo(s.doc, path, local) && Delivers(rules, s.doc, answer, value);
    var input := Sends(waitId, local, value);
    assert Receives(rules, s.doc, input, waitId, path, answer);
    assert Continues(s, t, after, input, claim);
  }

  /** An answer is accepted exactly if its wait is open and takes it, and the run can go on. */
  lemma AnswerIsAccepted(rules: Rules, s: State, waitId: string, answer: Json, claim: string, after: Doc)
    requires s.doc.wait.Some? && s.doc.wait.value.kind != ModelWait && claim !in s.claims
    requires Asks(rules, s.doc, waitId, answer) ==> Shown(s.doc, after, waitId, answer)
    ensures Next(rules, s, Do(Answer(waitId, answer), claim)).Some? <==> Asks(rules, s.doc, waitId, answer) && Ready(rules, s, after)
  {
  }

  /** Until the run's checkpoint has moved on or another wait is claimed, through every flush, failure,
      abort and resume, the graph is given the answer as it was given. */
  lemma AnswerIsHeld(rules: Rules, s: State, waitId: string, answer: Json, claim: string, steps: seq<Step>)
    requires Inv(s) && s.doc.wait.Some? && s.doc.wait.value.kind != ModelWait
    requires Next(rules, s, Do(Answer(waitId, answer), claim)).Some?
    requires var t := Next(rules, s, Do(Answer(waitId, answer), claim)).value;
      After(rules, t, steps).Some? && NoWaitClaimed(rules, t, steps)
    ensures s.doc.wait.value.path.Some? && s.doc.checkpoint.Some?
    ensures var t, c := Next(rules, s, Do(Answer(waitId, answer), claim)).value, s.doc.checkpoint.value;
      var last := After(rules, t, steps).value.doc;
      || (last.resumeInput.Some? && last.resumeCheckpoint == Some(c)
          && Receives(rules, s.doc, last.resumeInput.value, waitId, s.doc.wait.value.path.value, answer))
      || exists k | 0 <= k <= |steps| :: After(rules, t, steps[..k]).Some? && Moved(After(rules, t, steps[..k]).value.doc, c)
  {
    var t, c := Next(rules, s, Do(Answer(waitId, answer), claim)).value, s.doc.checkpoint.value;
    assert s.doc.claim != Some(claim);
    AnswerIsDelivered(rules, s, waitId, answer, claim, t);
    var after: Doc, input: Input :| Shown(s.doc, after, waitId, answer)
      && Receives(rules, s.doc, input, waitId, s.doc.wait.value.path.value, answer) && Continues(s, t, after, input, claim);
    NextKeeps(rules, s, Do(Answer(waitId, answer), claim));
    PayloadSurvives(rules, t, steps, input, c);
  }

  // ----- Model selections -----

  function Binds(doc: Doc, path: string, selection: Json): Doc {
    doc.(modelBindings := doc.modelBindings[path := selection], modelRevision := doc.modelRevision + 1)
  }

  /** The run waits for the model of that node. */
  predicate AsksForModel(doc: Doc, path: string) {
    doc.status == Waiting && doc.wait.Some? && doc.wait.value.kind == ModelWait && doc.wait.value.path == Some(path)
  }

  /** A selection is made exactly at the expected revision and for a node that takes it; it continues the
      run if and only if the run waits for it. */
  lemma SelectionIsBound(rules: Rules, s: State, path: string, selection: Json, revision: nat, claim: string)
    requires claim !in s.claims && s.doc.claim != Some(claim)
    ensures var next, after := Next(rules, s, Do(SelectModel(path, selection, revision), claim)), Binds(s.doc, path, selection);
      var ok := s.doc.modelRevision == revision && rules.bindingOk(s.doc, path, selection);
      && (next.Some? <==> ok && (AsksForModel(s.doc, path) ==> Ready(rules, s, after)))
      && (next.Some? && AsksForModel(s.doc, path) ==> Continues(s, next.value, after, map[], claim))
      && (next.Some? && !AsksForModel(s.doc, path) ==> next.value == s.(doc := after))
  {
  }

  /** Choosing a model by answering its wait is the same as selecting it. */
  lemma ModelAnswerSelects(rules: Rules, s: State, waitId: string, selection: Json, claim: string)
    requires claim !in s.claims && s.doc.claim != Some(claim) && s.doc.wait.Some? && s.doc.wait.value.kind == ModelWait
    requires s.doc.status == Waiting && s.doc.wait.value.id == waitId && s.doc.wait.value.path.Some?
    ensures Next(rules, s, Do(Answer(waitId, selection), claim))
      == Next(rules, s, Do(SelectModel(s.doc.wait.value.path.value, selection, s.doc.modelRevision), claim))
  {
  }

  // ----- Messages -----

  predicate Sendable(doc: Doc, id: string, kind: string, text: string) {
    && !Blank(id) && Utf8Len(id) <= 200 && kind in {"steering", "followup"} && !Blank(text)
    && doc.status != Completed && doc.status != Failed && doc.inboxes
  }

  /** The run waits at a node that receives messages. */
  predicate Listens(doc: Doc) {
    doc.status == Waiting && doc.wait.Some? && doc.wait.value.inbox && doc.wait.value.kind != ModelWait
  }

  predicate Holds_(queue: seq<Message>, id: string) {
    exists i | 0 <= i < |queue| :: queue[i].id == id
  }

  function Sent(rules: Rules, doc: Doc, id: string, kind: string, text: string): Doc
    requires rules.expand(doc, text).Some?
  {
    doc.(queue := doc.queue + [Message(id, kind, rules.expand(doc, text).value, text, Pending)])
  }

  /** A new message goes to the end of the queue, to be delivered with its skills expanded and shown as
      it was written; it continues the run if and only if the run listens. */
  lemma MessageIsQueued(rules: Rules, s: State, id: string, kind: string, text: string, claim: string)
    requires claim !in s.claims && s.doc.claim != Some(claim) && !Holds_(s.doc.queue, id)
    ensures var next := Next(rules, s, Do(Queue(id, kind, text), claim));
      var ok := Sendable(s.doc, id, kind, text) && rules.expand(s.doc, text).Some?;
      && (next.Some? <==> ok && (Listens(s.doc) ==> Ready(rules, s, Sent(rules, s.doc, id, kind, text))))
      && (next.Some? && Listens(s.doc) ==> Continues(s, next.value, Sent(rules, s.doc, id, kind, text), map[], claim))
      && (next.Some? && !Listens(s.doc) ==> next.value == s.(doc := Sent(rules, s.doc, id, kind, text)))
  {
  }

  /** A message under a known identity is accepted exactly if it is the same one, and changes nothing. */
  lemma MessageIsQueuedOnce(rules: Rules, s: State, id: string, kind: string, text: string, claim: string, i: nat)
    requires Inv(s) && claim !in s.claims && i < |s.doc.queue| && s.doc.queue[i].id == id
    ensures var next, m := Next(rules, s, Do(Queue(id, kind, text), claim)), s.doc.queue[i];
      && (next.Some? <==> Sendable(s.doc, id, kind, text) && m.kind == kind && m.original == text)
      && (next.Some? ==> next.value == s)
  {
    var at := Find(s.doc.queue, id);
    assert at.value == i;
    assert s.doc.claim != Some(claim);
  }

  /** Only a message that has not been consumed can be withdrawn, and only it changes. */
  lemma MessageIsWithdrawn(rules: Rules, s: State, id: string, claim: string)
    requires Inv(s) && claim !in s.claims
    ensures var next := Next(rules, s, Do(RemoveMessage(id), claim));
      && (next.Some? <==> exists i | 0 <= i < |s.doc.queue| :: s.doc.queue[i].id == id && s.doc.queue[i].status == Pending)
      && (next.Some? ==>
            var queue := next.value.doc.queue;
            && next.value == s.(doc := s.doc.(queue := queue)) && |queue| == |s.doc.queue|
            && forall i | 0 <= i < |queue| ::
                 queue[i] == if s.doc.queue[i].id == id then s.doc.queue[i].(status := Cancelled) else s.doc.queue[i])
  {
    var at := Find(s.doc.queue, id);
    assert s.doc.claim != Some(claim);
    if at.Some? {
      forall i | 0 <= i < |s.doc.queue| && s.doc.queue[i].id == id ensures i == at.value { }
    }
  }

  // ----- Aborting and resuming -----

  /** An abort marks a running run and stops a waiting one; nothing else is changed, and it cannot fail. */
  lemma AbortIsRecorded(rules: Rules, s: State, claim: string)
    requires claim !in s.claims && s.doc.claim != Some(claim)
    ensures var next := Next(rules, s, Do(Cancel, claim));
      next == Some(s.(doc :=
        if s.doc.status == Running then s.doc.(abortRequested := true)
        else if s.doc.status == Waiting then s.doc.(abortRequested := true, status := Stopped)
        else s.doc))
  {
  }

  predicate Halted_(doc: Doc) { doc.status in {Stopped, Interrupted, Paused} }

  /** The changes that a resume makes: a steering message under a new identity, if one is given. */
  function Steered(rules: Rules, doc: Doc, steering: Option<(string, string)>): Option<Doc> {
    if steering.None? || Blank(steering.value.1) then Some(doc)
    else if rules.expand(doc, steering.value.1).None? then None
    else Some(Sent(rules, doc, steering.value.0, "steering", steering.value.1))
  }

  /** A halted run resumes with what its last claim had for the graph, or with nothing. */
  lemma ResumeContinues(rules: Rules, s: State, steering: Option<(string, string)>, claim: string)
    requires claim !in s.claims && s.doc.claim != Some(claim)
    requires steering.Some? ==> !Holds_(s.doc.queue, steering.value.0)
    ensures var next, after := Next(rules, s, Do(Resume(steering), claim)), Steered(rules, s.doc, steering);
      && (next.Some? <==> Halted_(s.doc) && after.Some? && Ready(rules, s, after.value))
      && (next.Some? ==>
            Continues(s, next.value, after.value, if s.doc.resumeInput.Some? then s.doc.resumeInput.value else map[], claim))
  {
  }

  /** The check after a flush continues the run exactly if it listens and a message has not been seen. */
  lemma WakeContinues(rules: Rules, s: State, claim: string)
    requires claim !in s.claims && s.doc.claim != Some(claim) && s.exec.Some? && s.exec.value.waking
    ensures var next, rest := Next(rules, s, Wake(claim)), s.(exec := Some(s.exec.value.(waking := false)));
      var unseen := Listens(s.doc) && s.doc.checkpoint.Some? && exists i | 0 <= i < |s.doc.queue| :: s.doc.queue[i].status == Pending;
      && (next.Some? <==> (unseen ==> Ready(rules, s, s.doc)))
      && (next.Some? && unseen ==> Continues(rest, next.value, s.doc, map[], claim))
      && (next.Some? && !unseen ==> next.value == rest)
  {
  }

  // ----- What a flush makes of the document -----

  /** The status is the executor's unless it shows a wait that has been overtaken or aborted; what
      commands own is kept, but for the payload of a claim once the checkpoint has moved on. */
  lemma FlushFields(latest: Doc, run: Doc)
    ensures var after := Merged(latest, run);
      var overtaken := run.status == Waiting && latest.status == Running && latest.wait.None? && latest.claim != run.claim
        && latest.resumeCheckpoint.Some? && latest.resumeCheckpoint == run.checkpoint;
      var moved := latest.resumeCheckpoint.Some? && run.checkpoint.Some? && run.checkpoint != latest.resumeCheckpoint;
      && after == run.(
           status := if overtaken then Running else if run.status == Waiting && latest.abortRequested then Stopped else run.status,
           wait := if overtaken then None else run.wait, error := if overtaken then latest.error else run.error,
           modelBindings := latest.modelBindings, modelRevision := latest.modelRevision,
           abortRequested := latest.abortRequested, claim := latest.claim,
           resumeInput := if moved then None else latest.resumeInput,
           resumeCheckpoint := if moved then None else latest.resumeCheckpoint,
           queue := after.queue, messages := after.messages)
      && |after.queue| == |latest.queue|
      && forall i | 0 <= i < |after.queue| :: var m := latest.queue[i];
           after.queue[i] == if m.status == Pending && m.id in run.consumed then m.(status := Consumed) else m
  {
  }

  /** `xs` are the elements of `ys` at the ascending positions `at`. */
  predicate Picked(xs: seq<Entry>, ys: seq<Entry>, at: seq<nat>) {
    && |at| == |xs| && (forall i | 0 <= i < |at| :: at[i] < |ys| && xs[i] == ys[at[i]])
    && forall i, j | 0 <= i < j < |at| :: at[i] < at[j]
  }

  lemma PickedMore(xs: seq<Entry>, ys: seq<Entry>, at: seq<nat>, y: Entry)
    requires Picked(xs, ys, at)
    ensures Picked(xs, ys + [y], at) && Picked(xs + [y], ys + [y], at + [|ys|])
  {
  }

  /** `xs` are the entries of `more` that are not in `messages`, once each and in order. */
  predicate News(messages: seq<Entry>, more: seq<Entry>, xs: seq<Entry>, at: seq<nat>) {
    && Picked(xs, more, at) && (forall m | m in more :: m in messages + xs)
    && (forall i | 0 <= i < |xs| :: xs[i] !in messages) && forall i, j | 0 <= i < j < |xs| :: xs[i] != xs[j]
  }

  lemma NewsSame(messages: seq<Entry>, more: seq<Entry>, xs: seq<Entry>, at: seq<nat>, y: Entry)
    requires News(messages, more, xs, at) && y in messages + xs
    ensures News(messages, more + [y], xs, at)
  {
    PickedMore(xs, more, at, y);
  }

  lemma NewsMore(messages: seq<Entry>, more: seq<Entry>, xs: seq<Entry>, at: seq<nat>, y: Entry)
    requires News(messages, more, xs, at) && y !in messages + xs
    ensures News(messages, more + [y], xs + [y], at + [|more|])
  {
    PickedMore(xs, more, at, y);
    assert messages + (xs + [y]) == messages + xs + [y];
    forall i | 0 <= i < |xs| ensures xs[i] != y { assert (messages + xs)[|messages| + i] == xs[i]; }
  }

  /** The executor's new entries. */
  lemma {:induction false} NewEntries(messages: seq<Entry>, more: seq<Entry>) returns (xs: seq<Entry>, at: seq<nat>)
    ensures RunDocument.Appended(messages, more) == messages + xs && News(messages, more, xs, at)
  {
    if more == [] {
      xs, at := [], [];
      assert messages + xs == messages;
    } else {
      var n := |more| - 1;
      xs, at := NewEntries(messages, more[..n]);
      assert more == more[..n] + [more[n]];
      if more[n] in messages + xs {
        NewsSame(messages, more[..n], xs, at, more[n]);
      } else {
        NewsMore(messages, more[..n], xs, at, more[n]);
        assert messages + (xs + [more[n]]) == messages + xs + [more[n]];
        xs, at := xs + [more[n]], at + [n];
      }
    }
  }

  function Written_(queue: seq<Message>): seq<Entry> {
    seq(|queue|, i requires 0 <= i < |queue| => Entry(queue[i].id, true, queue[i].original))
  }

  predicate Due(m: Message, consumed: seq<string>) { m.status == Pending && m.id in consumed }

  /** `xs` are the messages of the queue that are due and not shown yet, once each and in order. */
  predicate Deliveries(messages: seq<Entry>, queue: seq<Message>, consumed: seq<string>, xs: seq<Entry>, at: seq<nat>) {
    && Picked(xs, Written_(queue), at) && (forall i | 0 <= i < |at| :: Due(queue[at[i]], consumed))
    && (forall m | m in queue && Due(m, consumed) :: Named(messages + xs, m.id))
    && (forall i | 0 <= i < |xs| :: !Named(messages + xs[..i], xs[i].id))
  }

  lemma DeliveriesSame(messages: seq<Entry>, queue: seq<Message>, consumed: seq<string>, xs: seq<Entry>, at: seq<nat>, m: Message)
    requires Deliveries(messages, queue, consumed, xs, at) && (Due(m, consumed) ==> Named(messages + xs, m.id))
    ensures Deliveries(messages, queue + [m], consumed, xs, at)
  {
    WrittenMore(queue, m);
    PickedMore(xs, Written_(queue), at, Entry(m.id, true, m.original));
  }

  lemma WrittenMore(queue: seq<Message>, m: Message)
    ensures Written_(queue + [m]) == Written_(queue) + [Entry(m.id, true, m.original)]
  {
  }

  lemma DeliveriesMore(messages: seq<Entry>, queue: seq<Message>, consumed: seq<string>, xs: seq<Entry>, at: seq<nat>, m: Message)
    requires Deliveries(messages, queue, consumed, xs, at) && Due(m, consumed) && !Named(messages + xs, m.id)
    ensures Deliveries(messages, queue + [m], consumed, xs + [Entry(m.id, true, m.original)], at + [|queue|])
  {
    var y := Entry(m.id, true, m.original);
    WrittenMore(queue, m);
    PickedMore(xs, Written_(queue), at, y);
    var all := messages + (xs + [y]);
    assert all == messages + xs + [y] && all[|all| - 1] == y;
    StillNamed(messages + xs, all);
    forall i | 0 <= i < |xs + [y]| ensures !Named(messages + (xs + [y])[..i], (xs + [y])[i].id) {
      assert (xs + [y])[..i] == if i < |xs| then xs[..i] else xs;
    }
  }

  /** The messages just consumed whose identity is not shown yet, as they were written. */
  lemma {:induction false} NewDeliveries(messages: seq<Entry>, queue: seq<Message>, consumed: seq<string>)
    returns (xs: seq<Entry>, at: seq<nat>)
    ensures WithDelivered(messages, queue, consumed) == messages + xs && Deliveries(messages, queue, consumed, xs, at)
  {
    if queue == [] {
      xs, at := [], [];
      assert messages + xs == messages;
    } else {
      var n := |queue| - 1;
      var m := queue[n];
      xs, at := NewDeliveries(messages, queue[..n], consumed);
      assert queue == queue[..n] + [m];
      if Due(m, consumed) && !Named(messages + xs, m.id) {
        DeliveriesMore(messages, queue[..n], consumed, xs, at, m);
        assert messages + (xs + [Entry(m.id, true, m.original)]) == messages + xs + [Entry(m.id, true, m.original)];
        xs, at := xs + [Entry(m.id, true, m.original)], at + [n];
      } else {
        DeliveriesSame(messages, queue[..n], consumed, xs, at, m);
      }
    }
  }

  lemma StillNamed(a: seq<Entry>, b: seq<Entry>)
    requires a <= b
    ensures forall id :: Named(a, id) ==> Named(b, id)
  {
    forall id | Named(a, id) ensures Named(b, id) {
      var i :| 0 <= i < |a| && a[i].id == id;
      assert b[i].id == id;
    }
  }

  /** The transcript after a flush: what was shown, then the executor's new entries in their order, then
      the messages just consumed in theirs, each once and as it was written. */
  lemma FlushTranscript(latest: Doc, run: Doc) returns (xs: seq<Entry>, at: seq<nat>, ys: seq<Entry>, of: seq<nat>)
    ensures Merged(latest, run).messages == latest.messages + xs + ys
    ensures News(latest.messages, run.messages, xs, at)
    ensures Deliveries(latest.messages + xs, latest.queue, run.consumed, ys, of)
  {
    xs, at := NewEntries(latest.messages, run.messages);
    ys, of := NewDeliveries(latest.messages + xs, latest.queue, run.consumed);
  }
}
