/** The durable run document: how public commands edit it and how an executor's flush is merged into
    it (rust/crates/zf-execution/src/sessions.rs and commands.rs). Every operation runs under the
    writer lock, so each is one atomic step. */
module RunDocument {
  import opened Base

  datatype Status = Running | Waiting | Stopped | Interrupted | Paused | Completed | Failed

  datatype WaitKind = InputWait | InboxWait | ModelWait | OtherWait

  /** An open wait; `inbox` says that its node receives queued messages, `confirmation` that it
      expects a boolean. */
  datatype Wait = Wait(id: string, kind: WaitKind, path: Option<string>, inbox: bool, confirmation: bool)

  datatype MessageStatus = Pending | Consumed | Cancelled

  datatype Message = Message(id: string, kind: string, text: string, original: string, status: MessageStatus)

  /** An entry of the visible transcript. */
  datatype Entry = Entry(id: string, user: bool, text: string)

  /** What a resumed graph receives, by channel. */
  type Input = map<string, Json>

  datatype Doc = Doc(
    status: Status,
    wait: Option<Wait>,
    checkpoint: Option<string>,
    error: Option<string>,
    consumed: seq<string>,
    messages: seq<Entry>,
    // Owned by commands.
    queue: seq<Message>,
    modelBindings: map<string, Json>,
    modelRevision: nat,
    abortRequested: bool,
    resumeInput: Option<Input>,
    resumeCheckpoint: Option<string>,
    claim: Option<string>,
    // Fixed by the composition: whether the flow has an inbox, and whether it runs behind routes.
    inboxes: bool,
    routed: bool)

  // ----- Flush -----

  /** The run's wait was answered while its executor still held it open. */
  predicate Superseded(latest: Doc, run: Doc) {
    && run.status == Waiting && latest.status == Running && latest.claim != run.claim
    && latest.wait.None? && latest.resumeCheckpoint.Some? && latest.resumeCheckpoint == run.checkpoint
  }

  function Deliver(queue: seq<Message>, consumed: seq<string>): (r: seq<Message>)
    ensures |r| == |queue|
  {
    seq(|queue|, i requires 0 <= i < |queue| =>
      if queue[i].status == Pending && queue[i].id in consumed then queue[i].(status := Consumed) else queue[i])
  }

  predicate Named(messages: seq<Entry>, id: string) {
    exists i | 0 <= i < |messages| :: messages[i].id == id
  }

  /** The transcript with the executor's new entries. */
  function Appended(messages: seq<Entry>, more: seq<Entry>): seq<Entry> {
    if more == [] then messages
    else
      var n := |more| - 1;
      var before := Appended(messages, more[..n]);
      if more[n] in before then before else before + [more[n]]
  }

  /** The transcript with the messages just delivered from the queue. */
  function WithDelivered(messages: seq<Entry>, queue: seq<Message>, consumed: seq<string>): seq<Entry> {
    if queue == [] then messages
    else
      var n := |queue| - 1;
      var before, m := WithDelivered(messages, queue[..n], consumed), queue[n];
      if m.status == Pending && m.id in consumed && !Named(before, m.id)
      then before + [Entry(m.id, true, m.original)] else before
  }

  /** Status, wait and error after the two races: an answer that supersedes the wait, an abort that
      stops it. */
  function Settled(latest: Doc, run: Doc): Doc {
    Cleared(Halted(Owned(latest, Overtaken(latest, run))))
  }

  function Overtaken(latest: Doc, run: Doc): Doc {
    if Superseded(latest, run) then run.(status := Running, wait := None, error := latest.error) else run
  }

  /** The fields that belong to commands are those of the latest document. */
  function Owned(latest: Doc, run: Doc): Doc {
    run.(queue := latest.queue, modelBindings := latest.modelBindings, modelRevision := latest.modelRevision,
      abortRequested := latest.abortRequested, resumeInput := latest.resumeInput,
      resumeCheckpoint := latest.resumeCheckpoint, claim := latest.claim)
  }

  function Halted(doc: Doc): Doc {
    if doc.abortRequested && doc.status == Waiting then doc.(status := Stopped) else doc
  }

  /** Once the checkpoint has moved on, the command payload is no longer needed. */
  function Cleared(doc: Doc): Doc {
    if doc.resumeCheckpoint.Some? && doc.checkpoint.Some? && doc.checkpoint != doc.resumeCheckpoint
    then doc.(resumeInput := None, resumeCheckpoint := None) else doc
  }

  function Merged(latest: Doc, run: Doc): Doc {
    Settled(latest, run).(
      queue := Deliver(latest.queue, run.consumed),
      messages := WithDelivered(Appended(latest.messages, run.messages), latest.queue, run.consumed))
  }

  // ----- Commands -----

  /** What commands ask of code outside this model: expansion of skills in a text, validity of a
      model binding, and whether an archived run may resume. */
  datatype Rules = Rules(
    expand: (Doc, string) -> Option<string>,
    bindingOk: (Doc, string, Json) -> bool,
    resumable: Doc -> bool)

  predicate Claimable(rules: Rules, doc: Doc) {
    rules.resumable(doc) && doc.checkpoint.Some?
  }

  /** Claims the continuation at the current checkpoint under a new claim identity. */
  function Claimed(doc: Doc, input: Input, claim: string): Doc {
    doc.(status := Running, wait := None, error := None, abortRequested := false,
      resumeInput := Some(input), resumeCheckpoint := doc.checkpoint, claim := Some(claim))
  }

  function Claim(rules: Rules, doc: Doc, input: Input, claim: string): Option<Doc> {
    if Claimable(rules, doc) then Some(Claimed(doc, input, claim)) else None
  }

  function Bound(doc: Doc, path: string, selection: Json): Doc {
    doc.(modelBindings := doc.modelBindings[path := selection], modelRevision := doc.modelRevision + 1)
  }

  predicate Acceptable(wait: Wait, value: Json) {
    if wait.confirmation then value.Bool? else value.Str? && !Blank(value.s)
  }

  /** Observation paths are qualified; the root graph's own channels are not. */
  function Channel(doc: Doc, path: string): string {
    "answer:" + (if doc.routed && "root/" <= path then path[5..] else path)
  }

  function Answered(rules: Rules, doc: Doc, waitId: string, value: Json, claim: string): Option<Doc> {
    if doc.status != Waiting || doc.wait.None? || doc.wait.value.id != waitId || doc.wait.value.path.None? then None
    else
      var wait, path := doc.wait.value, doc.wait.value.path.value;
      if wait.kind == ModelWait then
        if rules.bindingOk(doc, path, value) then Claim(rules, Bound(doc, path, value), map[], claim) else None
      else if wait.kind == OtherWait || !Acceptable(wait, value) then None
      else
        var text := if value.Str? then rules.expand(doc, value.s) else Some("");
        if text.None? then None
        else
          var sent := if value.Str? then Str(text.value) else value;
          var shown := if value.Str? then value.s else if value.Bool? && value.b then "true" else "false";
          var input := map[Channel(doc, path) := Obj(map["__zedflowAnswerId" := Str(waitId), "value" := sent])];
          Claim(rules, doc.(messages := doc.messages + [Entry(waitId, true, shown)]), input, claim)
  }

  function SelectedModel(rules: Rules, doc: Doc, path: string, selection: Json, revision: nat, claim: string): Option<Doc> {
    if doc.modelRevision != revision || !rules.bindingOk(doc, path, selection) then None
    else
      var after := Bound(doc, path, selection);
      if doc.status == Waiting && doc.wait.Some? && doc.wait.value.kind == ModelWait && doc.wait.value.path == Some(path)
      then Claim(rules, after, map[], claim) else Some(after)
  }

  /** A wait of a node that receives messages, unless it is for choosing a model. */
  predicate AtInbox(doc: Doc) {
    doc.status == Waiting && doc.wait.Some? && doc.wait.value.kind != ModelWait && doc.wait.value.inbox
  }

  function Find(queue: seq<Message>, id: string): (r: Option<nat>)
    ensures r.Some? ==> r.value < |queue| && queue[r.value].id == id
    ensures r.None? ==> forall i | 0 <= i < |queue| :: queue[i].id != id
  {
    if queue == [] then None
    else if queue[0].id == id then Some(0)
    else
      var r := Find(queue[1..], id);
      if r.None? then None else Some(r.value + 1)
  }

  function Queued(rules: Rules, doc: Doc, id: string, kind: string, text: string, claim: string): Option<Doc> {
    if Blank(id) || Utf8Len(id) > 200 || (kind != "steering" && kind != "followup") || Blank(text) then None
    else if doc.status == Completed || doc.status == Failed || !doc.inboxes then None
    else
      var existing := Find(doc.queue, id);
      if existing.Some? then
        var m := doc.queue[existing.value];
        if m.kind == kind && m.original == text then Some(doc) else None
      else
        var expanded := rules.expand(doc, text);
        if expanded.None? then None
        else
          var after := doc.(queue := doc.queue + [Message(id, kind, expanded.value, text, Pending)]);
          if AtInbox(doc) then Claim(rules, after, map[], claim) else Some(after)
  }

  function Withdrawn(doc: Doc, id: string): Option<Doc> {
    var at := Find(doc.queue, id);
    if at.None? || doc.queue[at.value].status != Pending then None
    else Some(doc.(queue := doc.queue[at.value := doc.queue[at.value].(status := Cancelled)]))
  }

  function Aborted(doc: Doc): Doc {
    if doc.status != Running && doc.status != Waiting then doc
    else doc.(abortRequested := true, status := if doc.status == Waiting then Stopped else doc.status)
  }

  function Resumed(rules: Rules, doc: Doc, steering: Option<(string, string)>, claim: string): Option<Doc> {
    if doc.status != Stopped && doc.status != Interrupted && doc.status != Paused then None
    else
      var input := if doc.resumeInput.Some? then doc.resumeInput.value else map[];
      if steering.None? || Blank(steering.value.1) then Claim(rules, doc, input, claim)
      else
        var (id, text) := steering.value;
        var expanded := rules.expand(doc, text);
        if expanded.None? then None
        else Claim(rules, doc.(queue := doc.queue + [Message(id, "steering", expanded.value, text, Pending)]), input, claim)
  }

  predicate HasPending(queue: seq<Message>) {
    exists i | 0 <= i < |queue| :: queue[i].status == Pending
  }

  /** A message arrived that the open inbox wait has not seen. */
  predicate NeedsWake(doc: Doc) {
    AtInbox(doc) && HasPending(doc.queue) && doc.checkpoint.Some?
  }

  // ----- The store -----

  class RunStore {
    var latest: Doc
    const rules: Rules

    constructor (doc: Doc, rules: Rules)
      ensures latest == doc && this.rules == rules
    {
      latest, this.rules := doc, rules;
    }

    /** Merges an executor's view of the run into the document. */
    method PersistEvent(run: Doc)
      modifies this
      ensures latest == Merged(old(latest), run)
    {
      var merged := Settle(run);
      var messages := AppendNew(latest.messages, run.messages);
      var queue;
      queue, messages := DeliverQueue(latest.queue, run.consumed, messages);
      latest := merged.(queue := queue, messages := messages);
    }

    /** Everything but the queue and the transcript. */
    method Settle(run: Doc) returns (merged: Doc)
      ensures merged == Settled(latest, run)
    {
      merged := run;
      if run.status == Waiting && latest.status == Running && latest.claim != run.claim
        && latest.wait.None? && latest.resumeCheckpoint.Some? && latest.resumeCheckpoint == run.checkpoint
      {
        merged := merged.(status := latest.status, wait := None, error := latest.error);
      }
      merged := merged.(queue := latest.queue, modelBindings := latest.modelBindings, modelRevision := latest.modelRevision,
        abortRequested := latest.abortRequested, resumeInput := latest.resumeInput,
        resumeCheckpoint := latest.resumeCheckpoint, claim := latest.claim);
      if merged.abortRequested && merged.status == Waiting { merged := merged.(status := Stopped); }
      if merged.resumeCheckpoint.Some? && merged.checkpoint.Some? && merged.checkpoint != merged.resumeCheckpoint {
        merged := merged.(resumeInput := None, resumeCheckpoint := None);
      }
    }

    method AppendNew(messages: seq<Entry>, more: seq<Entry>) returns (all: seq<Entry>)
      ensures all == Appended(messages, more)
    {
      all := messages;
      var i := 0;
      while i < |more|
        invariant i <= |more| && all == Appended(messages, more[..i])
      {
        assert more[..i + 1][..i] == more[..i];
        if more[i] !in all { all := all + [more[i]]; }
        i := i + 1;
      }
      assert more[..i] == more;
    }

    method DeliverQueue(before: seq<Message>, consumed: seq<string>, messages: seq<Entry>) returns (queue: seq<Message>, all: seq<Entry>)
      ensures queue == Deliver(before, consumed) && all == WithDelivered(messages, before, consumed)
    {
      queue, all := before, messages;
      var i := 0;
      while i < |before|
        invariant i <= |before| && |queue| == |before|
        invariant forall k | 0 <= k < i :: queue[k] == Deliver(before, consumed)[k]
        invariant forall k | i <= k < |before| :: queue[k] == before[k]
        invariant all == WithDelivered(messages, before[..i], consumed)
      {
        assert before[..i + 1][..i] == before[..i];
        var m := before[i];
        if m.status == Pending && m.id in consumed {
          queue := queue[i := m.(status := Consumed)];
          if !Named(all, m.id) { all := all + [Entry(m.id, true, m.original)]; }
        }
        i := i + 1;
      }
      assert before[..i] == before;
    }

    /** The durable claim of a continuation; the document is untouched if it is refused. */
    method ClaimResume(run: Doc, input: Input, claim: string) returns (ok: bool)
      modifies this
      ensures var r := Claim(rules, run, input, claim);
        (ok <==> r.Some?) && latest == if ok then r.value else old(latest)
    {
      ok := rules.resumable(run) && run.checkpoint.Some?;
      if ok {
        latest := run.(resumeInput := Some(input), resumeCheckpoint := run.checkpoint, status := Running, wait := None,
          error := None, abortRequested := false, claim := Some(claim));
      }
    }

    method Cancel()
      modifies this
      ensures latest == Aborted(old(latest))
    {
      if latest.status != Running && latest.status != Waiting { return; }
      latest := latest.(abortRequested := true);
      if latest.status == Waiting { latest := latest.(status := Stopped); }
    }

    /** The first message of that identity, if any. */
    method Lookup(id: string) returns (at: Option<nat>)
      ensures at == Find(latest.queue, id)
    {
      var i := 0;
      assert latest.queue[0..] == latest.queue;
      while i < |latest.queue|
        invariant i <= |latest.queue|
        invariant Find(latest.queue, id) ==
          var r := Find(latest.queue[i..], id); if r.Some? then Some(r.value + i) else None
      {
        if latest.queue[i].id == id { return Some(i); }
        assert latest.queue[i..][1..] == latest.queue[i + 1..];
        i := i + 1;
      }
      at := None;
    }

    method RemoveMessage(id: string) returns (ok: bool)
      modifies this
      ensures var r := Withdrawn(old(latest), id);
        (ok <==> r.Some?) && latest == if ok then r.value else old(latest)
    {
      var at := Lookup(id);
      if at.None? || latest.queue[at.value].status != Pending { return false; }
      latest := latest.(queue := latest.queue[at.value := latest.queue[at.value].(status := Cancelled)]);
      ok := true;
    }

    method Queue(id: string, kind: string, text: string, claim: string) returns (ok: bool)
      modifies this
      ensures var r := Queued(rules, old(latest), id, kind, text, claim);
        (ok <==> r.Some?) && latest == if ok then r.value else old(latest)
    {
      if Blank(id) || Utf8Len(id) > 200 || (kind != "steering" && kind != "followup") || Blank(text) { return false; }
      if latest.status == Completed || latest.status == Failed || !latest.inboxes { return false; }
      var at := Lookup(id);
      if at.Some? { return latest.queue[at.value].kind == kind && latest.queue[at.value].original == text; }
      var expanded := rules.expand(latest, text);
      if expanded.None? { return false; }
      var run := latest.(queue := latest.queue + [Message(id, kind, expanded.value, text, Pending)]);
      if AtInbox(latest) {
        ok := ClaimResume(run, map[], claim);
      } else {
        latest := run;
        ok := true;
      }
    }

    /** After a wait became visible: claims it at once if an unseen message is in the queue. */
    method WakeQueuedInput(claim: string) returns (ok: bool)
      modifies this
      ensures var r := if NeedsWake(old(latest)) then Claim(rules, old(latest), map[], claim) else Some(old(latest));
        (ok <==> r.Some?) && latest == if ok then r.value else old(latest)
    {
      ok := true;
      if NeedsWake(latest) { ok := ClaimResume(latest, map[], claim); }
    }
  }

  // ----- What a flush keeps -----

  /** A message may only leave the pending state, and never changes otherwise. */
  predicate Progressed(a: Message, b: Message) {
    b == a.(status := b.status) && (b.status == a.status || a.status == Pending)
  }

  lemma {:induction false} AppendedExtends(messages: seq<Entry>, more: seq<Entry>)
    ensures messages <= Appended(messages, more) && forall m | m in more :: m in Appended(messages, more)
  {
    if more != [] {
      var n := |more| - 1;
      AppendedExtends(messages, more[..n]);
      assert more == more[..n] + [more[n]];
    }
  }

  lemma {:induction false} DeliveredExtends(messages: seq<Entry>, queue: seq<Message>, consumed: seq<string>)
    ensures messages <= WithDelivered(messages, queue, consumed)
    ensures forall m | m in queue && m.status == Pending && m.id in consumed :: Named(WithDelivered(messages, queue, consumed), m.id)
  {
    if queue != [] {
      var n := |queue| - 1;
      DeliveredExtends(messages, queue[..n], consumed);
      assert queue == queue[..n] + [queue[n]];
      var before, after := WithDelivered(messages, queue[..n], consumed), WithDelivered(messages, queue, consumed);
      forall m | m in queue && m.status == Pending && m.id in consumed ensures Named(after, m.id) {
        if m in queue[..n] {
          var i :| 0 <= i < |before| && before[i].id == m.id;
          assert after[i].id == m.id;
        } else if !Named(before, m.id) {
          assert after[|before|].id == m.id;
        }
      }
    }
  }

  /** A flush only extends the transcript, and every message it consumes is then in it. */
  lemma FlushExtendsTranscript(latest: Doc, run: Doc)
    ensures var after := Merged(latest, run).messages;
      latest.messages <= after
      && forall m | m in latest.queue && m.status == Pending && m.id in run.consumed :: Named(after, m.id)
  {
    AppendedExtends(latest.messages, run.messages);
    DeliveredExtends(Appended(latest.messages, run.messages), latest.queue, run.consumed);
  }

  // ----- Flushing again -----

  lemma {:induction false} AppendedAgain(messages: seq<Entry>, more: seq<Entry>)
    requires forall m | m in more :: m in messages
    ensures Appended(messages, more) == messages
  {
    if more != [] {
      var n := |more| - 1;
      assert more[n] in more;
      AppendedAgain(messages, more[..n]);
    }
  }

  lemma {:induction false} DeliveredAgain(messages: seq<Entry>, queue: seq<Message>, consumed: seq<string>)
    requires forall m | m in queue :: m.status != Pending || m.id !in consumed
    ensures WithDelivered(messages, queue, consumed) == messages
  {
    if queue != [] {
      var n := |queue| - 1;
      assert queue[n] in queue;
      DeliveredAgain(messages, queue[..n], consumed);
    }
  }

  lemma SupersededAgain(latest: Doc, run: Doc)
    ensures Superseded(Settled(latest, run), run) <==> Superseded(latest, run)
  {
  }

  /** What is superseded, stopped or cleared stays so. */
  lemma SettledAgain(latest: Doc, run: Doc)
    ensures Settled(Settled(latest, run), run) == Settled(latest, run)
  {
    var once := Settled(latest, run);
    SupersededAgain(latest, run);
    assert Superseded(latest, run) ==> once.error == latest.error;
    assert Owned(once, Overtaken(once, run)).(resumeInput := None, resumeCheckpoint := None)
      == Owned(latest, Overtaken(latest, run)).(resumeInput := None, resumeCheckpoint := None);
  }

  /** Status and wait do not depend on queue and transcript. */
  lemma SettledBeside(doc: Doc, run: Doc, queue: seq<Message>, messages: seq<Entry>)
    ensures Settled(doc.(queue := queue, messages := messages), run) == Settled(doc, run).(queue := queue)
  {
    var d := doc.(queue := queue, messages := messages);
    assert Overtaken(d, run) == Overtaken(doc, run);
    assert Owned(d, Overtaken(d, run)) == Owned(doc, Overtaken(doc, run)).(queue := queue);
    assert Halted(Owned(d, Overtaken(d, run))) == Halted(Owned(doc, Overtaken(doc, run))).(queue := queue);
  }

  /** An executor that flushes the same view twice, as after a wait that stays open, changes nothing
      the second time: no message is delivered or shown twice, and no race is decided anew. */
  lemma FlushIsIdempotent(latest: Doc, run: Doc)
    ensures Merged(Merged(latest, run), run) == Merged(latest, run)
  {
    var once := Merged(latest, run);
    SettledAgain(latest, run);
    SettledBeside(Settled(latest, run), run, once.queue, once.messages);
    AppendedExtends(latest.messages, run.messages);
    DeliveredExtends(Appended(latest.messages, run.messages), latest.queue, run.consumed);
    forall m | m in run.messages ensures m in once.messages {
      var all := Appended(latest.messages, run.messages);
      var i :| 0 <= i < |all| && all[i] == m;
      assert once.messages[i] == m;
    }
    AppendedAgain(once.messages, run.messages);
    assert Deliver(once.queue, run.consumed) == once.queue;
    DeliveredAgain(once.messages, once.queue, run.consumed);
  }
}
