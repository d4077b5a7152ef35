/** What a transcript holds after any run of operations: everything that was
    said, once and in order, each result with its call. */
module ChatRuns {
  import opened StyledText
  import opened Markdown
  import opened Transcript
  import opened ViewState
  import opened ChatModel

  /** What is said by an entry, whether it is open or not. */
  datatype Item = Item(text: string, name: string, success: bool, callId: string)

  function ItemOf(e: Entry): Item {
    Item(e.text, e.name, e.success, e.callId)
  }

  /** The entries of one kind. */
  function Items(entries: seq<Entry>, kind: Kind): seq<Item> {
    if entries == [] then []
    else
      var n := |entries| - 1;
      Items(entries[..n], kind) + (if entries[n].kind == kind then [ItemOf(entries[n])] else [])
  }

  /** All text of one kind, as one stream. */
  function Stream(entries: seq<Entry>, kind: Kind): string {
    if entries == [] then ""
    else
      var n := |entries| - 1;
      Stream(entries[..n], kind) + (if entries[n].kind == kind then entries[n].text else "")
  }

  /** What an operation says. */
  function Said(op: Op, kind: Kind): seq<Item> {
    match op
    case OpUserText(text, names) => if kind == UserText then [Item(text, JoinNames(names), true, "")] else []
    case OpToolCalled(name, input) => if kind == ToolCalled then [Item(input, name, true, "")] else []
    case OpToolResult(output, success, callId) =>
      if kind == ToolResult then [Item(output, "", success, callId)] else []
    case OpSystem(text) => if kind == System then [Item(text, "", true, "")] else []
    case OpSummary(header, summary) => if kind == CompactionSummary then [Item(summary, header, true, "")] else []
    case _ => []
  }

  function Streamed(op: Op, kind: Kind): string {
    match op
    case OpTextDelta(delta) => if kind == AssistantText then delta else ""
    case OpReasoningDelta(delta) => if kind == Reasoning then delta else ""
    case _ => ""
  }

  function AllSaid(ops: seq<Op>, kind: Kind): seq<Item> {
    if ops == [] then [] else AllSaid(ops[..|ops| - 1], kind) + Said(ops[|ops| - 1], kind)
  }

  function AllStreamed(ops: seq<Op>, kind: Kind): string {
    if ops == [] then "" else AllStreamed(ops[..|ops| - 1], kind) + Streamed(ops[|ops| - 1], kind)
  }

  // ---- One entry ----

  lemma {:induction false} ItemsPush(entries: seq<Entry>, e: Entry, kind: Kind)
    ensures Items(entries + [e], kind) == Items(entries, kind) + (if e.kind == kind then [ItemOf(e)] else [])
    ensures Stream(entries + [e], kind) == Stream(entries, kind) + (if e.kind == kind then e.text else "")
  {
    assert (entries + [e])[..|entries|] == entries;
  }

  /** Opening and closing an entry says nothing. */
  lemma {:induction false} ItemsFold(entries: seq<Entry>, i: int, collapsed: bool, kind: Kind)
    requires 0 <= i < |entries|
    ensures Items(entries[i := entries[i].(collapsed := collapsed)], kind) == Items(entries, kind)
    ensures Stream(entries[i := entries[i].(collapsed := collapsed)], kind) == Stream(entries, kind)
    decreases |entries|
  {
    var n := |entries| - 1;
    var e := entries[i].(collapsed := collapsed);
    if i < n {
      ItemsFold(entries[..n], i, collapsed, kind);
      assert entries[i := e][..n] == entries[..n][i := e];
    } else {
      assert entries[i := e][..n] == entries[..n];
    }
  }

  /** More text at the end of the last entry. */
  lemma {:induction false} StreamGrown(entries: seq<Entry>, delta: string, kind: Kind)
    requires entries != []
    ensures var n := |entries| - 1;
            && Stream(Grown(entries, delta), kind) == Stream(entries, kind) + (if entries[n].kind == kind then delta else "")
            && (entries[n].kind != kind ==> Items(Grown(entries, delta), kind) == Items(entries, kind))
  {
    var n := |entries| - 1;
    var last := entries[n].(text := entries[n].text + delta);
    assert entries == entries[..n] + [entries[n]] && Grown(entries, delta) == entries[..n] + [last];
    ItemsPush(entries[..n], entries[n], kind);
    ItemsPush(entries[..n], last, kind);
    if entries[n].kind == kind {
      assert Stream(entries[..n], kind) + (entries[n].text + delta) == (Stream(entries[..n], kind) + entries[n].text) + delta;
    } else {
      assert Stream(entries, kind) + "" == Stream(entries, kind);
    }
  }

  // ---- One operation ----

  lemma {:induction false} SettleSays(m: Model, kind: Kind)
    ensures Items(Settle(m).entries, kind) == Items(EndReasoning(m).entries, kind) == Items(m.entries, kind)
    ensures Stream(Settle(m).entries, kind) == Stream(EndReasoning(m).entries, kind) == Stream(m.entries, kind)
  {
    if m.entries != [] {
      ItemsFold(m.entries, |m.entries| - 1, true, kind);
    }
  }

  lemma {:induction false} TakenSays(m: Model, kind: Kind)
    ensures Items(PendingTaken(m).entries, kind) == Items(m.entries, kind)
    ensures Stream(PendingTaken(m).entries, kind) == Stream(m.entries, kind)
  {
    if m.pending != [] && 0 <= m.pending[0] < |m.entries| {
      ItemsFold(m.entries, m.pending[0], true, kind);
    }
  }

  lemma {:induction false} DeltaSays(m: Model, op: Op, kind: Kind)
    requires ModelOk(m) && (op.OpTextDelta? || op.OpReasoningDelta?)
    ensures Stream(Apply(m, op).entries, kind) == Stream(m.entries, kind) + Streamed(op, kind)
    ensures kind != AssistantText && kind != Reasoning ==> Items(Apply(m, op).entries, kind) == Items(m.entries, kind)
  {
    hide Items, Stream;
    SettleSays(m, kind);
    if op.OpTextDelta? {
      var m1 := EndReasoning(m);
      ItemsPush(m1.entries, NewEntry(AssistantText, "", ""), kind);
      assert Stream(m1.entries, kind) + "" == Stream(m1.entries, kind);
      assert Items(m1.entries, kind) + [] == Items(m1.entries, kind);
      StreamGrown(Opened(m).entries, op.delta, kind);
    } else {
      var e := NewEntry(Reasoning, "", "").(collapsed := m.thinking == AlwaysCollapsed);
      ItemsPush(m.entries, e, kind);
      assert Stream(m.entries, kind) + "" == Stream(m.entries, kind);
      assert Items(m.entries, kind) + [] == Items(m.entries, kind);
      StreamGrown(if m.reasoning then m.entries else m.entries + [e], op.delta, kind);
    }
  }

  lemma {:induction false} EntrySays(m: Model, op: Op, kind: Kind)
    requires op.OpUserText? || op.OpToolCalled? || op.OpToolResult? || op.OpSystem? || op.OpSummary?
    ensures Items(Apply(m, op).entries, kind) == Items(m.entries, kind) + Said(op, kind)
    ensures kind == AssistantText || kind == Reasoning ==> Stream(Apply(m, op).entries, kind) == Stream(m.entries, kind)
  {
    hide Items, Stream, Settle, PendingTaken;
    SettleSays(m, kind);
    TakenSays(Settle(m), kind);
    var before := if op.OpToolResult? then PendingTaken(Settle(m)).entries else Settle(m).entries;
    var e := Apply(m, op).entries[|before|];
    assert Apply(m, op).entries == before + [e];
    ItemsPush(before, e, kind);
    assert Stream(before, kind) + "" == Stream(before, kind);
  }

  /** Nothing is taken back: no answer rewrites a result, nothing is cleared. */
  predicate Adds(op: Op) {
    !op.OpClear? && !op.OpUpdateResult?
  }

  lemma {:induction false} OpSays(m: Model, op: Op, kind: Kind)
    requires ModelOk(m) && Adds(op)
    ensures kind != AssistantText && kind != Reasoning ==>
              Items(Apply(m, op).entries, kind) == Items(m.entries, kind) + Said(op, kind)
    ensures kind == AssistantText || kind == Reasoning ==>
              Stream(Apply(m, op).entries, kind) == Stream(m.entries, kind) + Streamed(op, kind)
  {
    hide Items, Stream, Settle, ModelOk, TextDelta, ReasoningDelta, EndReasoning, UserTextAdded, ToolCallAdded, ToolResultAdded;
    assert Items(m.entries, kind) + [] == Items(m.entries, kind);
    assert Stream(m.entries, kind) + "" == Stream(m.entries, kind);
    if op.OpTextDelta? || op.OpReasoningDelta? {
      DeltaSays(m, op, kind);
    } else if op.OpUserText? || op.OpToolCalled? || op.OpToolResult? || op.OpSystem? || op.OpSummary? {
      EntrySays(m, op, kind);
    } else if op.OpEndReasoning? || op.OpEndStreaming? {
      SettleSays(m, kind);
    } else if op.OpToggle? && 0 <= op.i < |m.entries| {
      ItemsFold(m.entries, op.i, !m.entries[op.i].collapsed, kind);
    }
  }

  /** After every run from an empty transcript: of prompts, calls, results,
      notices and summaries exactly those of the run, as they were given and in
      order; and the replies' texts, and the reasoning's, are all deltas of the
      run joined. */
  lemma {:induction false} RunSays(m: Model, ops: seq<Op>, kind: Kind)
    requires ModelOk(m) && m.entries == [] && forall k :: 0 <= k < |ops| ==> Adds(ops[k])
    ensures ModelOk(ApplyAll(m, ops))
    ensures kind != AssistantText && kind != Reasoning ==> Items(ApplyAll(m, ops).entries, kind) == AllSaid(ops, kind)
    ensures kind == AssistantText || kind == Reasoning ==> Stream(ApplyAll(m, ops).entries, kind) == AllStreamed(ops, kind)
    decreases |ops|
  {
    hide ModelOk, Apply, Said, Streamed, Adds;
    if ops != [] {
      var n := |ops| - 1;
      RunSays(m, ops[..n], kind);
      ApplyOk(ApplyAll(m, ops[..n]), ops[n]);
      OpSays(ApplyAll(m, ops[..n]), ops[n], kind);
    }
  }

  /** An answer rewrites the newest result of its call, nothing else, and none
      when the call has no id or no result. */
  lemma {:induction false} UpdateExact(m: Model, callId: string, output: string, success: bool, k: nat)
    requires k < |m.entries|
    ensures var newest := callId != "" && m.entries[k].kind == ToolResult && m.entries[k].callId == callId
                          && forall j :: k < j < |m.entries| ==> !(m.entries[j].kind == ToolResult && m.entries[j].callId == callId);
            var m' := Apply(m, OpUpdateResult(callId, output, success));
            && |m'.entries| == |m.entries|
            && m'.entries[k] == if newest then m.entries[k].(text := output, success := success) else m.entries[k]
  {
  }

  // ---- Results and their calls ----

  function CallsAt(entries: seq<Entry>): seq<int> {
    if entries == [] then []
    else
      var n := |entries| - 1;
      CallsAt(entries[..n]) + (if entries[n].kind == ToolCalled then [n] else [])
  }

  /** The calls that results name, in the order of the results. */
  function Named(entries: seq<Entry>): seq<int> {
    if entries == [] then []
    else
      var n := |entries| - 1;
      Named(entries[..n])
      + (if entries[n].kind == ToolResult && entries[n].toolIdx >= 0 then [entries[n].toolIdx] else [])
  }

  lemma {:induction false} CallsPush(entries: seq<Entry>, e: Entry)
    ensures CallsAt(entries + [e]) == CallsAt(entries) + (if e.kind == ToolCalled then [|entries|] else [])
    ensures Named(entries + [e]) == Named(entries) + (if e.kind == ToolResult && e.toolIdx >= 0 then [e.toolIdx] else [])
  {
    assert (entries + [e])[..|entries|] == entries;
  }

  lemma {:induction false} CallsSame(a: seq<Entry>, b: seq<Entry>)
    requires |a| == |b| && forall k :: 0 <= k < |a| ==> a[k].kind == b[k].kind && a[k].toolIdx == b[k].toolIdx
    ensures CallsAt(a) == CallsAt(b) && Named(a) == Named(b)
    decreases |a|
  {
    if a != [] {
      CallsSame(a[..|a| - 1], b[..|a| - 1]);
    }
  }

  /** The k-th result names the k-th call, and those left wait. */
  ghost predicate InOrder(m: Model) {
    CallsAt(m.entries) == Named(m.entries) + m.pending
  }

  lemma {:induction false} OrderPushed(m: Model, e: Entry)
    requires InOrder(m) && e.kind != ToolCalled && e.kind != ToolResult
    ensures InOrder(Push(m, e))
  {
    hide CallsAt, Named;
    CallsPush(m.entries, e);
    assert Named(m.entries) + [] == Named(m.entries) && CallsAt(m.entries) + [] == CallsAt(m.entries);
  }

  lemma {:induction false} OrderSame(m: Model, m': Model)
    requires InOrder(m) && m'.pending == m.pending && |m'.entries| == |m.entries|
    requires forall k :: 0 <= k < |m.entries| ==>
               m'.entries[k].kind == m.entries[k].kind && m'.entries[k].toolIdx == m.entries[k].toolIdx
    ensures InOrder(m')
  {
    hide CallsAt, Named;
    CallsSame(m.entries, m'.entries);
  }

  lemma {:induction false} OrderCall(m: Model, e: Entry)
    requires InOrder(m) && e.kind == ToolCalled
    ensures InOrder(Push(m, e).(pending := m.pending + [|m.entries|]))
  {
    hide CallsAt, Named;
    CallsPush(m.entries, e);
    assert Named(m.entries) + [] == Named(m.entries);
    assert (Named(m.entries) + m.pending) + [|m.entries|] == Named(m.entries) + (m.pending + [|m.entries|]);
  }

  lemma {:induction false} OrderResult(m: Model, e: Entry)
    requires InOrder(m) && ModelOk(m) && e.kind == ToolResult && e.toolIdx == (if m.pending == [] then -1 else m.pending[0])
    ensures InOrder(Push(PendingTaken(m), e))
  {
    hide CallsAt, Named;
    CallsSame(m.entries, PendingTaken(m).entries);
    CallsPush(PendingTaken(m).entries, e);
    assert CallsAt(m.entries) + [] == CallsAt(m.entries) && Named(m.entries) + [] == Named(m.entries);
    if m.pending != [] {
      assert m.pending == [m.pending[0]] + m.pending[1..];
      assert Named(m.entries) + ([m.pending[0]] + m.pending[1..]) == (Named(m.entries) + [m.pending[0]]) + m.pending[1..];
    }
  }

  lemma {:induction false} OpOrder(m: Model, op: Op)
    requires ModelOk(m) && InOrder(m)
    ensures InOrder(Apply(m, op))
  {
    hide ModelOk, InOrder, Settle, EndReasoning, TextDelta, ReasoningDelta, PendingTaken;
    OrderSettled(m);
    SettleOk(m);
    match op
    case OpUserText(text, names) => OrderPushed(Settle(m), NewEntry(UserText, text, JoinNames(names)));
    case OpTextDelta(delta) => DeltaOrder(m, op);
    case OpReasoningDelta(delta) => DeltaOrder(m, op);
    case OpToolCalled(name, input) => OrderCall(Settle(m), NewEntry(ToolCalled, input, name));
    case OpToolResult(output, success, callId) =>
      var m1 := Settle(m);
      OrderResult(m1, Entry(ToolResult, output, "", success, false, callId, if m1.pending == [] then -1 else m1.pending[0]));
    case OpSystem(text) => OrderPushed(Settle(m), NewEntry(System, text, ""));
    case OpSummary(header, summary) =>
      OrderPushed(Settle(m), NewEntry(CompactionSummary, summary, header).(collapsed := true));
    case OpClear => NothingCalled(m);
    case OpUpdateResult(callId, output, success) => OrderSame(m, ResultUpdated(m, callId, output, success));
    case OpToggle(i) => OrderSame(m, Toggled(m, i));
    case OpLayout(_, _) => OrderSame(m, Apply(m, op));
    case OpThinking(_) => OrderSame(m, Apply(m, op));
    case _ =>
  }

  lemma {:induction false} OrderSettled(m: Model)
    requires InOrder(m)
    ensures InOrder(EndReasoning(m)) && InOrder(Settle(m))
  {
    hide InOrder;
    OrderSame(m, EndReasoning(m));
    OrderSame(m, Settle(m));
  }

  lemma {:induction false} NothingCalled(m: Model)
    ensures InOrder(Cleared(m))
  {
  }

  lemma {:induction false} DeltaOrder(m: Model, op: Op)
    requires ModelOk(m) && InOrder(m) && InOrder(EndReasoning(m)) && (op.OpTextDelta? || op.OpReasoningDelta?)
    ensures InOrder(Apply(m, op))
  {
    hide InOrder;
    if op.OpTextDelta? {
      OrderPushed(EndReasoning(m), NewEntry(AssistantText, "", ""));
      OrderSame(Push(EndReasoning(m), NewEntry(AssistantText, "", "")),
                Push(EndReasoning(m), NewEntry(AssistantText, "", "")).(streaming := true));
      OrderSame(Opened(m), TextDelta(m, op.delta));
    } else {
      var e := NewEntry(Reasoning, "", "").(collapsed := m.thinking == AlwaysCollapsed);
      OrderPushed(m, e);
      OrderSame(if m.reasoning then m else Push(m, e), ReasoningDelta(m, op.delta));
    }
  }

  /** After every run, clearing and answers included: results name the calls in
      the order the calls came, each at most once, and the calls no result
      names are those that wait. */
  lemma {:induction false} ResultsInOrder(m: Model, ops: seq<Op>)
    requires ModelOk(m) && m.entries == [] && m.pending == []
    ensures var after := ApplyAll(m, ops); ModelOk(after) && CallsAt(after.entries) == Named(after.entries) + after.pending
    decreases |ops|
  {
    hide ModelOk, Apply, CallsAt, Named;
    if ops == [] {
      NothingCalled(m);
      assert Cleared(m).entries == m.entries && Cleared(m).pending == m.pending;
    } else {
      var n := |ops| - 1;
      ResultsInOrder(m, ops[..n]);
      ApplyOk(ApplyAll(m, ops[..n]), ops[n]);
      OpOrder(ApplyAll(m, ops[..n]), ops[n]);
    }
  }

  // ---- What is open ----

  /** Untouched by the user: a call is open while it waits for its result, a
      summary is closed, and reasoning is as the setting has it, while it
      streams and after. */
  ghost predicate AsSet(m: Model) {
    forall k :: 0 <= k < |m.entries| ==>
      var e := m.entries[k];
      && (e.kind == ToolCalled ==> (!e.collapsed <==> k in m.pending))
      && (e.kind == CompactionSummary ==> e.collapsed)
      && (e.kind == Reasoning ==>
            (!e.collapsed <==> m.thinking == AlwaysExpanded
                               || (m.thinking == ExpandedWhileStreaming && m.reasoning && k == |m.entries| - 1)))
  }

  predicate Unasked(op: Op) {
    !op.OpToggle? && !op.OpThinking?
  }

  lemma {:induction false} AsSetSettled(m: Model)
    requires ModelOk(m) && AsSet(m)
    ensures AsSet(EndReasoning(m)) && AsSet(Settle(m))
  {
  }

  lemma {:induction false} AsSetPushed(m: Model, e: Entry)
    requires ModelOk(m) && AsSet(m) && !m.reasoning && e.kind != ToolCalled && e.kind != Reasoning
    requires e.kind == CompactionSummary ==> e.collapsed
    ensures AsSet(Push(m, e))
  {
  }

  lemma {:induction false} AsSetResult(m: Model, e: Entry)
    requires ModelOk(m) && AsSet(m) && !m.reasoning && e.kind == ToolResult
    ensures AsSet(Push(PendingTaken(m), e))
  {
  }

  lemma {:induction false} AsSetCall(m: Model, name: string, input: string)
    requires ModelOk(m) && AsSet(m)
    ensures AsSet(ToolCallAdded(m, name, input))
  {
    AsSetSettled(m);
  }

  lemma {:induction false} AsSetDelta(m: Model, op: Op)
    requires ModelOk(m) && AsSet(m) && (op.OpTextDelta? || op.OpReasoningDelta?)
    ensures AsSet(Apply(m, op))
  {
    AsSetSettled(m);
  }

  lemma {:induction false} OpAsSet(m: Model, op: Op)
    requires ModelOk(m) && AsSet(m) && Unasked(op)
    ensures AsSet(Apply(m, op))
  {
    hide ModelOk, AsSet;
    AsSetSettled(m);
    SettleOk(m);
    match op
    case OpUserText(text, names) => AsSetPushed(Settle(m), NewEntry(UserText, text, JoinNames(names)));
    case OpTextDelta(delta) => AsSetDelta(m, op);
    case OpReasoningDelta(delta) => AsSetDelta(m, op);
    case OpToolCalled(name, input) => AsSetCall(m, name, input);
    case OpToolResult(output, success, callId) =>
      var m1 := Settle(m);
      AsSetResult(m1, Entry(ToolResult, output, "", success, false, callId, if m1.pending == [] then -1 else m1.pending[0]));
    case OpSystem(text) => AsSetPushed(Settle(m), NewEntry(System, text, ""));
    case OpSummary(header, summary) =>
      AsSetPushed(Settle(m), NewEntry(CompactionSummary, summary, header).(collapsed := true));
    case OpUpdateResult(_, _, _) => AsSetSame(m, Apply(m, op));
    case OpLayout(_, _) => AsSetSame(m, Apply(m, op));
    case OpClear => AsSetNothing(m);
    case _ =>
  }

  lemma {:induction false} AsSetNothing(m: Model)
    ensures AsSet(Cleared(m))
  {
  }

  lemma {:induction false} AsSetSame(m: Model, m': Model)
    requires AsSet(m) && |m'.entries| == |m.entries| && m'.pending == m.pending && m'.thinking == m.thinking
    requires m'.reasoning == m.reasoning
    requires forall k :: 0 <= k < |m.entries| ==>
               m'.entries[k].kind == m.entries[k].kind && m'.entries[k].collapsed == m.entries[k].collapsed
    ensures AsSet(m')
  {
  }

  lemma {:induction false} RunAsSet(m: Model, ops: seq<Op>)
    requires ModelOk(m) && m.entries == [] && forall k :: 0 <= k < |ops| ==> Unasked(ops[k])
    ensures ModelOk(ApplyAll(m, ops)) && AsSet(ApplyAll(m, ops))
    decreases |ops|
  {
    hide ModelOk, Apply, Unasked;
    if ops != [] {
      var n := |ops| - 1;
      RunAsSet(m, ops[..n]);
      ApplyOk(ApplyAll(m, ops[..n]), ops[n]);
      OpAsSet(ApplyAll(m, ops[..n]), ops[n]);
    }
  }

  /** Attachment names, as a prompt shows them. */
  lemma {:induction false} NamesJoined(a: string, b: string, c: string)
    ensures JoinNames([]) == "" && JoinNames([a]) == a && JoinNames([a, b]) == a + ", " + b
    ensures JoinNames([a, b, c]) == a + ", " + b + ", " + c
  {
    assert [a, b][..1] == [a] && [a, b, c][..2] == [a, b];
  }
}
