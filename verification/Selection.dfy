/** Selection of a flow's definitions from captured runs with memoised interpretation
    (rust/crates/zf-execution/src/live_files.rs, `select_flow_definitions`). */
module Selection {
  import opened Base
  import opened Grouping

  datatype Result<+T> = Ok(value: T) | Err(error: string)

  /** A captured run: its identity, and everything else that its key encodes. */
  datatype Row = Row(runId: string, capture: Json)

  datatype Definition = Definition(runId: string, instance: string, key: string, content: Json)

  type Interpreter = Row -> Result<seq<Definition>>

  function Relabel(ds: seq<Definition>, runId: string): seq<Definition> {
    seq(|ds|, i requires 0 <= i < |ds| => ds[i].(runId := runId))
  }

  /** The same error, or the same definitions under another run's identity. */
  predicate Agree(a: Result<seq<Definition>>, b: Result<seq<Definition>>, runId: string) {
    if a.Ok? then b == Ok(Relabel(a.value, runId)) else b == a
  }

  /** Interpretation depends on the run's identity only by copying it into its results. */
  ghost predicate Copies(interpret: Interpreter) {
    forall r: Row, s: Row | r.capture == s.capture :: Agree(interpret(r), interpret(s), s.runId)
  }

  function OfFlow(ds: seq<Definition>, flow: string): seq<Definition> {
    if ds == [] then []
    else
      var n := |ds| - 1;
      OfFlow(ds[..n], flow) + (if ds[n].key == flow then [ds[n]] else [])
  }

  /** The plain selection: every row interpreted on its own, the first error winning. */
  function Plain(rows: seq<Row>, flow: string, interpret: Interpreter): Result<seq<Definition>> {
    if rows == [] then Ok([])
    else
      var n := |rows| - 1;
      var before := Plain(rows[..n], flow, interpret);
      if before.Err? then before
      else
        var here := interpret(rows[n]);
        if here.Err? then Err(here.error) else Ok(before.value + OfFlow(here.value, flow))
  }

  lemma {:induction false} FirstErrorWins(rows: seq<Row>, flow: string, interpret: Interpreter, k: nat)
    requires k <= |rows| && Plain(rows[..k], flow, interpret).Err?
    ensures Plain(rows, flow, interpret) == Plain(rows[..k], flow, interpret)
    decreases |rows|
  {
    if k < |rows| {
      var n := |rows| - 1;
      assert rows[..n][..k] == rows[..k];
      FirstErrorWins(rows[..n], flow, interpret, k);
    } else {
      assert rows[..k] == rows;
    }
  }

  lemma {:induction false} RelabelOfFlow(ds: seq<Definition>, flow: string, runId: string)
    ensures OfFlow(Relabel(ds, runId), flow) == Relabel(OfFlow(ds, flow), runId)
  {
    if ds != [] {
      var n := |ds| - 1;
      RelabelOfFlow(ds[..n], flow, runId);
      assert Relabel(ds, runId)[..n] == Relabel(ds[..n], runId);
    }
  }

  /** Positions `from` up to `to` of the result. */
  datatype Span = Span(from: nat, to: nat)

  /** A remembered span holds the selected definitions of some row with that key. */
  ghost predicate Remembered(rows: seq<Row>, k: nat, flow: string, interpret: Interpreter, encode: Json -> string,
    selected: seq<Definition>, code: string, span: Span)
    requires k <= |rows|
  {
    span.from <= span.to <= |selected| && exists j | 0 <= j < k :: Holds(rows[j], flow, interpret, encode, selected, code, span)
  }

  ghost predicate Holds(row: Row, flow: string, interpret: Interpreter, encode: Json -> string,
    selected: seq<Definition>, code: string, span: Span)
  {
    && span.from <= span.to <= |selected| && encode(row.capture) == code && interpret(row).Ok?
    && selected[span.from..span.to] == OfFlow(interpret(row).value, flow)
  }

  ghost predicate MemoOk(rows: seq<Row>, k: nat, flow: string, interpret: Interpreter, encode: Json -> string,
    selected: seq<Definition>, memo: map<string, Span>)
    requires k <= |rows|
  {
    forall code | code in memo :: Remembered(rows, k, flow, interpret, encode, selected, code, memo[code])
  }

  lemma MemoGrows(rows: seq<Row>, k: nat, flow: string, interpret: Interpreter, encode: Json -> string,
    selected: seq<Definition>, more: seq<Definition>, memo: map<string, Span>)
    requires k < |rows| && MemoOk(rows, k, flow, interpret, encode, selected, memo)
    ensures MemoOk(rows, k + 1, flow, interpret, encode, selected + more, memo)
  {
    forall code | code in memo ensures Remembered(rows, k + 1, flow, interpret, encode, selected + more, code, memo[code]) {
      var span := memo[code];
      var j :| 0 <= j < k && Holds(rows[j], flow, interpret, encode, selected, code, span);
      assert (selected + more)[span.from..span.to] == selected[span.from..span.to];
      assert Holds(rows[j], flow, interpret, encode, selected + more, code, span);
    }
  }

  /** Rows with the same key differ at most in their identity. */
  lemma SameKeySameMeaning(r: Row, s: Row, flow: string, interpret: Interpreter, encode: Json -> string)
    requires Copies(interpret) && Injective(encode) && encode(r.capture) == encode(s.capture) && interpret(r).Ok?
    ensures interpret(s).Ok? && OfFlow(interpret(s).value, flow) == Relabel(OfFlow(interpret(r).value, flow), s.runId)
  {
    assert r.capture == s.capture;
    assert Agree(interpret(r), interpret(s), s.runId);
    RelabelOfFlow(interpret(r).value, flow, s.runId);
  }

  /** The memoised selection returns the same list in the same order, or the same first error, as the
      plain one. */
  method SelectFlowDefinitions(rows: seq<Row>, flow: string, interpret: Interpreter, encode: Json -> string)
    returns (r: Result<seq<Definition>>)
    requires Copies(interpret) && Injective(encode)
    ensures r == Plain(rows, flow, interpret)
  {
    var selected: seq<Definition> := [];
    var memo: map<string, Span> := map[];
    var k := 0;
    while k < |rows|
      invariant k <= |rows| && Plain(rows[..k], flow, interpret) == Ok(selected)
      invariant MemoOk(rows, k, flow, interpret, encode, selected, memo)
    {
      var row := rows[k];
      assert rows[..k + 1][..k] == rows[..k];
      var code := encode(row.capture);
      if code in memo {
        var more := Copied(selected, memo[code], row.runId, rows, k, flow, interpret, encode, code);
        MemoGrows(rows, k, flow, interpret, encode, selected, more, memo);
        selected := selected + more;
      } else {
        var here := interpret(row);
        if here.Err? {
          FirstErrorWins(rows, flow, interpret, k + 1);
          return Err(here.error);
        }
        var kept := OfFlow(here.value, flow);
        MemoGrows(rows, k, flow, interpret, encode, selected, kept, memo);
        var span := Span(|selected|, |selected| + |kept|);
        assert (selected + kept)[span.from..span.to] == kept;
        assert Holds(rows[k], flow, interpret, encode, selected + kept, code, span);
        selected := selected + kept;
        memo := memo[code := span];
      }
      k := k + 1;
    }
    assert rows[..k] == rows;
    r := Ok(selected);
  }

  /** Copies a remembered span for another run. */
  method Copied(selected: seq<Definition>, span: Span, runId: string, ghost rows: seq<Row>, ghost k: nat, flow: string,
    ghost interpret: Interpreter, ghost encode: Json -> string, ghost code: string) returns (more: seq<Definition>)
    requires k < |rows| && Copies(interpret) && Injective(encode) && encode(rows[k].capture) == code && rows[k].runId == runId
    requires Remembered(rows, k, flow, interpret, encode, selected, code, span)
    ensures interpret(rows[k]).Ok? && more == OfFlow(interpret(rows[k]).value, flow)
  {
    more := [];
    var i := span.from;
    while i < span.to
      invariant span.from <= i <= span.to && more == Relabel(selected[span.from..i], runId)
    {
      assert selected[span.from..i + 1] == selected[span.from..i] + [selected[i]];
      more := more + [selected[i].(runId := runId)];
      i := i + 1;
    }
    ghost var j :| 0 <= j < k && Holds(rows[j], flow, interpret, encode, selected, code, span);
    SameKeySameMeaning(rows[j], rows[k], flow, interpret, encode);
  }

  // ----- What is selected -----

  predicate AllRead(rows: seq<Row>, interpret: Interpreter) {
    forall i | 0 <= i < |rows| :: interpret(rows[i]).Ok?
  }

  /** The definitions of all rows in order. */
  function Everything(rows: seq<Row>, interpret: Interpreter): seq<Definition>
    requires AllRead(rows, interpret)
  {
    if rows == [] then [] else Everything(rows[..|rows| - 1], interpret) + interpret(rows[|rows| - 1]).value
  }

  lemma {:induction false} OfFlowAdds(a: seq<Definition>, b: seq<Definition>, flow: string)
    ensures OfFlow(a + b, flow) == OfFlow(a, flow) + OfFlow(b, flow)
  {
    if b == [] {
      assert a + b == a;
    } else {
      var n := |b| - 1;
      OfFlowAdds(a, b[..n], flow);
      assert (a + b)[..|a + b| - 1] == a + b[..n];
    }
  }

  /** Exactly the definitions of the flow, as often as they occur. */
  lemma {:induction false} OfFlowCounts(ds: seq<Definition>, flow: string, d: Definition)
    ensures multiset(OfFlow(ds, flow))[d] == if d.key == flow then multiset(ds)[d] else 0
  {
    if ds != [] {
      var n := |ds| - 1;
      OfFlowCounts(ds[..n], flow, d);
      assert ds == ds[..n] + [ds[n]];
    }
  }

  /** The row at `k` is the first that cannot be interpreted. */
  predicate FailsAt(rows: seq<Row>, k: nat, interpret: Interpreter, error: string) {
    k < |rows| && interpret(rows[k]) == Err(error) && AllRead(rows[..k], interpret)
  }

  lemma {:induction false} PlainReads(rows: seq<Row>, flow: string, interpret: Interpreter)
    requires AllRead(rows, interpret)
    ensures Plain(rows, flow, interpret) == Ok(OfFlow(Everything(rows, interpret), flow))
  {
    if rows != [] {
      var n := |rows| - 1;
      PlainReads(rows[..n], flow, interpret);
      OfFlowAdds(Everything(rows[..n], interpret), interpret(rows[n]).value, flow);
    }
  }

  lemma {:induction false} PlainFails(rows: seq<Row>, flow: string, interpret: Interpreter) returns (k: nat)
    requires !AllRead(rows, interpret)
    ensures Plain(rows, flow, interpret).Err? && FailsAt(rows, k, interpret, Plain(rows, flow, interpret).error)
  {
    var n := |rows| - 1;
    if AllRead(rows[..n], interpret) {
      k := n;
      assert forall i | 0 <= i < n :: rows[..n][i] == rows[i];
      PlainReads(rows[..n], flow, interpret);
    } else {
      k := PlainFails(rows[..n], flow, interpret);
      assert rows[..n][..k] == rows[..k];
    }
  }

  /** A selection fails with the error of the first row that cannot be interpreted; otherwise it is the
      definitions of all rows, in order, that belong to the flow, each as often as it occurs. */
  lemma SelectionIsExact(rows: seq<Row>, flow: string, interpret: Interpreter)
    ensures AllRead(rows, interpret) ==>
      var all := Everything(rows, interpret);
      && Plain(rows, flow, interpret) == Ok(OfFlow(all, flow))
      && forall d :: multiset(OfFlow(all, flow))[d] == if d.key == flow then multiset(all)[d] else 0
    ensures !AllRead(rows, interpret) ==>
      var r := Plain(rows, flow, interpret);
      r.Err? && exists k :: FailsAt(rows, k, interpret, r.error)
  {
    if AllRead(rows, interpret) {
      PlainReads(rows, flow, interpret);
      var all := Everything(rows, interpret);
      forall d ensures multiset(OfFlow(all, flow))[d] == if d.key == flow then multiset(all)[d] else 0 { OfFlowCounts(all, flow, d); }
    } else {
      var k := PlainFails(rows, flow, interpret);
    }
  }
}
