/** The transcript as a value: what each operation does to the entries and the
    streaming flags, apart from any view. */
module ChatModel {
  import opened StyledText
  import opened Markdown
  import opened Transcript
  import opened ViewState

  datatype Thinking = AlwaysCollapsed | AlwaysExpanded | ExpandedWhileStreaming

  datatype Model = Model(entries: seq<Entry>, streaming: bool, reasoning: bool, pending: seq<int>,
                         thinking: Thinking, opts: Options)

  function NewEntry(kind: Kind, text: string, name: string): Entry {
    Entry(kind, text, name, true, false, "", -1)
  }

  function Push(m: Model, e: Entry): Model {
    m.(entries := m.entries + [e])
  }

  predicate LastIs(entries: seq<Entry>, kind: Kind) {
    entries != [] && entries[|entries| - 1].kind == kind
  }

  function SetLast(entries: seq<Entry>, e: Entry): seq<Entry>
    requires entries != []
  {
    entries[|entries| - 1 := e]
  }

  function EndReasoning(m: Model): Model {
    if !m.reasoning then m
    else
      var m1 := m.(reasoning := false);
      if LastIs(m.entries, Reasoning) && m.thinking == ExpandedWhileStreaming
      then m1.(entries := SetLast(m.entries, m.entries[|m.entries| - 1].(collapsed := true)))
      else m1
  }

  /** What every non-streaming append does first. */
  function Settle(m: Model): Model {
    EndReasoning(m).(streaming := false)
  }

  function UserTextAdded(m: Model, text: string, names: string): Model {
    Push(Settle(m), NewEntry(UserText, text, names))
  }

  /** The reply a text delta goes to: the open one, or a new one. */
  function Opened(m: Model): (r: Model)
    ensures LastIs(r.entries, AssistantText) && r.streaming
  {
    var m1 := EndReasoning(m);
    if !m1.streaming || !LastIs(m1.entries, AssistantText)
    then Push(m1, NewEntry(AssistantText, "", "")).(streaming := true) else m1
  }

  /** More text for the last entry. */
  function Grown(entries: seq<Entry>, delta: string): seq<Entry>
    requires entries != []
  {
    var last := entries[|entries| - 1];
    SetLast(entries, last.(text := last.text + delta))
  }

  function TextDelta(m: Model, delta: string): Model {
    var m1 := Opened(m);
    m1.(entries := Grown(m1.entries, delta))
  }

  function ReasoningDelta(m: Model, delta: string): Model {
    var m1 := if m.reasoning then m
              else Push(m, NewEntry(Reasoning, "", "").(collapsed := m.thinking == AlwaysCollapsed)).(reasoning := true);
    if m1.entries == [] then m1 else
    var last := m1.entries[|m1.entries| - 1];
    m1.(entries := SetLast(m1.entries, last.(text := last.text + delta)))
  }

  function ToolCallAdded(m: Model, name: string, input: string): Model {
    var m1 := Settle(m);
    Push(m1, NewEntry(ToolCalled, input, name)).(pending := m1.pending + [|m1.entries|])
  }

  /** The oldest tool call still waiting stops waiting, and collapses. */
  function PendingTaken(m: Model): Model {
    if m.pending == [] then m
    else
      var idx := m.pending[0];
      m.(pending := m.pending[1..],
         entries := if 0 <= idx < |m.entries| then m.entries[idx := m.entries[idx].(collapsed := true)]
                    else m.entries)
  }

  function ToolResultAdded(m: Model, output: string, success: bool, callId: string): Model {
    var m1 := Settle(m);
    Push(PendingTaken(m1),
         Entry(ToolResult, output, "", success, false, callId, if m1.pending == [] then -1 else m1.pending[0]))
  }

  /** The newest result row of a call, or -1. */
  function NewestResult(entries: seq<Entry>, callId: string): (r: int)
    ensures -1 <= r < |entries|
    ensures r >= 0 ==> entries[r].kind == ToolResult && entries[r].callId == callId
    ensures forall k :: r < k < |entries| && k >= 0 ==> !(entries[k].kind == ToolResult && entries[k].callId == callId)
  {
    if entries == [] then -1
    else
      var n := |entries| - 1;
      if entries[n].kind == ToolResult && entries[n].callId == callId then n else NewestResult(entries[..n], callId)
  }

  function ResultUpdated(m: Model, callId: string, output: string, success: bool): Model {
    var i := if callId == "" then -1 else NewestResult(m.entries, callId);
    if i < 0 then m
    else m.(entries := m.entries[i := m.entries[i].(text := output, success := success)])
  }

  function SystemAdded(m: Model, text: string): Model {
    Push(Settle(m), NewEntry(System, text, ""))
  }

  function SummaryAdded(m: Model, header: string, summary: string): Model {
    Push(Settle(m), NewEntry(CompactionSummary, summary, header).(collapsed := true))
  }

  predicate Collapsible(e: Entry) {
    e.kind == ToolCalled || e.kind == Reasoning || e.kind == CompactionSummary
  }

  function Toggled(m: Model, i: int): Model {
    if 0 <= i < |m.entries| && Collapsible(m.entries[i])
    then m.(entries := m.entries[i := m.entries[i].(collapsed := !m.entries[i].collapsed)])
    else m
  }

  function Cleared(m: Model): Model {
    m.(entries := [], streaming := false, reasoning := false, pending := [])
  }

  datatype Op =
    | OpUserText(text: string, names: seq<string>)
    | OpTextDelta(delta: string)
    | OpReasoningDelta(delta: string)
    | OpEndReasoning
    | OpEndStreaming
    | OpToolCalled(name: string, input: string)
    | OpToolResult(output: string, success: bool, callId: string)
    | OpUpdateResult(callId: string, output: string, success: bool)
    | OpSystem(text: string)
    | OpSummary(header: string, summary: string)
    | OpToggle(i: int)
    | OpLayout(cols: int, ascii: bool)
    | OpThinking(display: Thinking)
    | OpCopy(i: int, copied: bool, timerOk: bool)
    | OpResetFeedback(generation: int)
    | OpClear

  function JoinNames(names: seq<string>): string {
    if names == [] then ""
    else if |names| == 1 then names[0]
    else JoinNames(names[..|names| - 1]) + ", " + names[|names| - 1]
  }

  function Apply(m: Model, op: Op): Model {
    match op
    case OpUserText(text, names) => UserTextAdded(m, text, JoinNames(names))
    case OpTextDelta(delta) => TextDelta(m, delta)
    case OpReasoningDelta(delta) => ReasoningDelta(m, delta)
    case OpEndReasoning => EndReasoning(m)
    case OpEndStreaming => Settle(m)
    case OpToolCalled(name, input) => ToolCallAdded(m, name, input)
    case OpToolResult(output, success, callId) => ToolResultAdded(m, output, success, callId)
    case OpUpdateResult(callId, output, success) => ResultUpdated(m, callId, output, success)
    case OpSystem(text) => SystemAdded(m, text)
    case OpSummary(header, summary) => SummaryAdded(m, header, summary)
    case OpToggle(i) => Toggled(m, i)
    case OpLayout(cols, ascii) => m.(opts := Options(cols, ascii))
    case OpThinking(display) => m.(thinking := display)
    case OpCopy(_, _, _) => m
    case OpResetFeedback(_) => m
    case OpClear => Cleared(m)
  }

  function ApplyAll(m: Model, ops: seq<Op>): Model {
    if ops == [] then m else Apply(ApplyAll(m, ops[..|ops| - 1]), ops[|ops| - 1])
  }

  // ---- Invariant ----

  /** While reasoning streams, the last entry is its block; a tool call waits
      for at most one result, and a result names an earlier entry that no
      longer waits. */
  ghost predicate ModelOk(m: Model) {
    && (m.reasoning ==> LastIs(m.entries, Reasoning))
    && (forall k :: 0 <= k < |m.pending| ==>
          0 <= m.pending[k] < |m.entries| && m.entries[m.pending[k]].kind == ToolCalled)
    && (forall j, k :: 0 <= j < k < |m.pending| ==> m.pending[j] != m.pending[k])
    && (forall i :: 0 <= i < |m.entries| && m.entries[i].kind == ToolResult ==>
          && -1 <= m.entries[i].toolIdx < i && m.entries[i].toolIdx !in m.pending
          && (m.entries[i].toolIdx >= 0 ==> m.entries[m.entries[i].toolIdx].kind == ToolCalled))
  }

  lemma {:induction false} ToolsEarlier(m: Model)
    requires ModelOk(m)
    ensures forall i :: 0 <= i < |m.entries| && m.entries[i].kind == ToolResult ==> m.entries[i].toolIdx < i
  {
  }

  lemma {:induction false} ReasoningLast(m: Model)
    requires ModelOk(m)
    ensures m.reasoning ==> LastIs(m.entries, Reasoning)
  {
  }

  lemma {:induction false} EndReasoningOk(m: Model)
    requires ModelOk(m)
    ensures ModelOk(EndReasoning(m)) && !EndReasoning(m).reasoning
  {
  }

  /** An entry that is no tool result may be appended at any time no reasoning
      block is open. */
  lemma {:induction false} PushOk(m: Model, e: Entry)
    requires ModelOk(m) && !m.reasoning && e.kind != ToolResult
    ensures ModelOk(Push(m, e))
  {
  }

  /** Rewriting an entry's text or its flags keeps the invariant. */
  lemma {:induction false} RewriteOk(m: Model, i: int, e: Entry)
    requires ModelOk(m) && 0 <= i < |m.entries|
    requires e.kind == m.entries[i].kind && e.toolIdx == m.entries[i].toolIdx
    ensures ModelOk(m.(entries := m.entries[i := e]))
  {
  }

  lemma {:induction false} TextDeltaOk(m: Model, delta: string)
    requires ModelOk(m)
    ensures ModelOk(Opened(m)) && ModelOk(TextDelta(m, delta))
  {
    hide ModelOk;
    EndReasoningOk(m);
    var m1 := EndReasoning(m);
    if !m1.streaming || !LastIs(m1.entries, AssistantText) {
      PushOk(m1, NewEntry(AssistantText, "", ""));
      FlagsOk(Push(m1, NewEntry(AssistantText, "", "")), Opened(m));
    }
    var m2 := Opened(m);
    var last := m2.entries[|m2.entries| - 1];
    RewriteOk(m2, |m2.entries| - 1, last.(text := last.text + delta));
  }

  lemma {:induction false} ReasoningDeltaOk(m: Model, delta: string)
    requires ModelOk(m)
    ensures ModelOk(ReasoningDelta(m, delta)) && ReasoningDelta(m, delta).entries != []
  {
  }

  lemma {:induction false} ToolCallOk(m: Model, name: string, input: string)
    requires ModelOk(m)
    ensures ModelOk(ToolCallAdded(m, name, input))
  {
    hide ModelOk;
    SettleOk(m);
    WaitOk(Settle(m), NewEntry(ToolCalled, input, name));
  }

  lemma {:induction false} WaitOk(m: Model, e: Entry)
    requires ModelOk(m) && !m.reasoning && e.kind == ToolCalled
    ensures ModelOk(Push(m, e).(pending := m.pending + [|m.entries|]))
  {
  }

  lemma {:induction false} ApplyOk(m: Model, op: Op)
    requires ModelOk(m)
    ensures ModelOk(Apply(m, op))
  {
    hide ModelOk, TextDelta, ReasoningDelta, ToolCallAdded, ToolResultAdded;
    EndReasoningOk(m);
    SettleOk(m);
    match op
    case OpUserText(text, names) => PushOk(Settle(m), NewEntry(UserText, text, JoinNames(names)));
    case OpTextDelta(delta) => TextDeltaOk(m, delta);
    case OpReasoningDelta(delta) => ReasoningDeltaOk(m, delta);
    case OpToolCalled(name, input) => ToolCallOk(m, name, input);
    case OpToolResult(output, success, callId) => ToolResultOk(m, output, success, callId);
    case OpUpdateResult(callId, output, success) =>
      var i := if callId == "" then -1 else NewestResult(m.entries, callId);
      if i >= 0 {
        RewriteOk(m, i, m.entries[i].(text := output, success := success));
      }
    case OpSystem(text) => PushOk(Settle(m), NewEntry(System, text, ""));
    case OpSummary(header, summary) =>
      PushOk(Settle(m), NewEntry(CompactionSummary, summary, header).(collapsed := true));
    case OpToggle(i) =>
      if 0 <= i < |m.entries| {
        RewriteOk(m, i, m.entries[i].(collapsed := !m.entries[i].collapsed));
      }
    case OpLayout(cols, ascii) => FlagsOk(m, m.(opts := Options(cols, ascii)));
    case OpThinking(display) => FlagsOk(m, m.(thinking := display));
    case OpClear => ClearedOk(m);
    case _ =>
  }

  lemma {:induction false} SettleOk(m: Model)
    requires ModelOk(m)
    ensures ModelOk(Settle(m)) && !Settle(m).reasoning
  {
    EndReasoningOk(m);
  }

  lemma {:induction false} FlagsOk(m: Model, m': Model)
    requires ModelOk(m)
    requires m'.entries == m.entries && m'.pending == m.pending && m'.reasoning == m.reasoning
    ensures ModelOk(m')
  {
  }

  lemma {:induction false} ClearedOk(m: Model)
    ensures ModelOk(Cleared(m))
  {
  }

  lemma {:induction false} PendingTakenOk(m: Model)
    requires ModelOk(m)
    ensures ModelOk(PendingTaken(m))
    ensures m.pending != [] ==>
              && 0 <= m.pending[0] < |m.entries|
              && forall i :: 0 <= i < |m.entries| && m.entries[i].kind == ToolResult ==> m.entries[i].toolIdx != m.pending[0]
    ensures !m.reasoning ==> forall e: Entry ::
              e.kind == ToolResult && e.toolIdx == (if m.pending == [] then -1 else m.pending[0])
              ==> ModelOk(Push(PendingTaken(m), e))
  {
    TakenOk(m);
    forall e: Entry | !m.reasoning && e.kind == ToolResult && e.toolIdx == (if m.pending == [] then -1 else m.pending[0])
      ensures ModelOk(Push(PendingTaken(m), e))
    {
      ResultPushOk(PendingTaken(m), e);
    }
  }

  lemma {:induction false} ResultPushOk(m: Model, e: Entry)
    requires ModelOk(m) && !m.reasoning && e.kind == ToolResult && -1 <= e.toolIdx < |m.entries|
    requires e.toolIdx !in m.pending && (e.toolIdx >= 0 ==> m.entries[e.toolIdx].kind == ToolCalled)
    ensures ModelOk(Push(m, e))
  {
  }

  lemma {:induction false} TakenOk(m: Model)
    requires ModelOk(m)
    ensures ModelOk(PendingTaken(m)) && |PendingTaken(m).entries| == |m.entries|
    ensures m.pending != [] ==>
              && 0 <= m.pending[0] < |m.entries| && m.pending[0] !in PendingTaken(m).pending
              && PendingTaken(m).entries[m.pending[0]].kind == ToolCalled
              && forall i :: 0 <= i < |m.entries| && m.entries[i].kind == ToolResult ==> m.entries[i].toolIdx != m.pending[0]
  {
    var m' := PendingTaken(m);
    if m.pending != [] {
      assert m.pending[0] !in m.pending[1..];
      assert forall i :: 0 <= i < |m.entries| ==> m'.entries[i].toolIdx == m.entries[i].toolIdx;
      assert forall i :: 0 <= i < |m.entries| ==> m'.entries[i].kind == m.entries[i].kind;
    }
  }

  lemma {:induction false} ToolResultOk(m: Model, output: string, success: bool, callId: string)
    requires ModelOk(m)
    ensures ModelOk(ToolResultAdded(m, output, success, callId))
  {
    hide ModelOk;
    SettleOk(m);
    PendingTakenOk(Settle(m));
  }

  // ---- What an update may change in the rendering ----

  /** Tool call `t`, as far as its result's line depends on it. */
  predicate AnswersSame(a: seq<Entry>, b: seq<Entry>, t: int) {
    && (0 <= t < |a| <==> 0 <= t < |b|)
    && (0 <= t < |a| ==> a[t].name == b[t].name && a[t].collapsed == b[t].collapsed)
  }

  /** The same entry renders the same in two transcripts that agree on the
      tool call it answers. */
  lemma {:induction false} RenderSame(look: Look, a: seq<Entry>, b: seq<Entry>, i: int, o: Options)
    requires 0 <= i < |a| && i < |b| && a[i] == b[i]
    requires a[i].kind == ToolResult ==> AnswersSame(a, b, a[i].toolIdx)
    ensures RenderEntry(look, a, i, o) == RenderEntry(look, b, i, o)
  {
  }

  /** Only markdown that is width dependent, and shown, changes with the layout. */
  predicate LayoutSensitive(look: Look, e: Entry) {
    && (e.kind == AssistantText || (e.kind == CompactionSummary && !e.collapsed))
    && WidthDependent(look.syn, e.text)
  }

  lemma {:induction false} LayoutFree(look: Look, m: seq<Entry>, i: int, o1: Options, o2: Options)
    requires 0 <= i < |m| && !LayoutSensitive(look, m[i])
    ensures RenderEntry(look, m, i, o1) == RenderEntry(look, m, i, o2)
  {
    hide EntryHead, EntryControl, Render, MarkdownPart, Shorten, Append, WidthDependent;
    if !WidthDependent(look.syn, m[i].text) {
      WidthIndependent(look.syn, m[i].text, o1, o2);
    }
  }

  // ---- The streaming cache ----

  /** Source bytes before `frozenSrc` are rendered for good; `tail` is what the
      view shows for the rest. */
  datatype MdStream = MdStream(idx: int, frozenSrc: nat, state: State, tail: Styled)

  const NO_STREAM := MdStream(-1, 0, START, NOTHING)

  /** The cache a from-scratch rendering of the last reply gives. */
  function FreshStream(look: Look, m: Model): MdStream {
    if !m.streaming || !LastIs(m.entries, AssistantText) then NO_STREAM
    else
      var inc := RenderFromSpec(look.syn, m.entries[|m.entries| - 1].text, 0, START, m.opts);
      MdStream(|m.entries| - 1, inc.frozenEnd, inc.state, inc.tail)
  }

  lemma {:induction false} EmptyUnit(syn: Syntax, o: Options)
    ensures RenderUnit(syn, [Line("", 0, false)], START, o) == Unit(NOTHING, START, 1, false)
  {
  }

  lemma {:induction false} EmptyReply(syn: Syntax, o: Options)
    ensures RenderFromSpec(syn, "", 0, START, o) == Incremental(NOTHING, 0, START, NOTHING)
  {
    hide RenderUnit, Join;
    var l := Line("", 0, false);
    assert Lines("", 0) == [l];
    EmptyUnit(syn, o);
    assert [l][0..] == [l] && [l][1..] == [];
    JoinNothing(NOTHING);
    assert Freeze(syn, [l], START, o) == Frozen(NOTHING, START, 0);
    assert Fold(syn, [l][1..], START, o) == NOTHING;
    assert Fold(syn, [l], START, o) == Join(NOTHING, NOTHING);
  }

  // ---- An assistant entry around its open tail ----

  function AssistantLead(look: Look, e: Entry, i: int, frozen: Styled): Rendered {
    Append(Append(EntryHead(e, i), EntryControl(e, i)), AssistantBody(look, frozen, i))
  }

  lemma {:induction false} AssistantSplit(look: Look, m: seq<Entry>, i: int, o: Options, a: Styled, b: Styled)
    requires 0 <= i < |m| && m[i].kind == AssistantText && Render(look.syn, m[i].text, o) == Join(a, b)
    ensures RenderEntry(look, m, i, o)
            == Append(AssistantLead(look, m[i], i, a), MarkdownPart(look, b, COLOR_ASSISTANT, i))
  {
    hide EntryHead, EntryControl, Render, MarkdownPart, Append, Join;
    var h := Append(EntryHead(m[i], i), EntryControl(m[i], i));
    var x, y := MarkdownPart(look, a, COLOR_ASSISTANT, i), MarkdownPart(look, b, COLOR_ASSISTANT, i);
    MarkdownPartJoin(look, a, b, COLOR_ASSISTANT, i);
    AppendAssoc(Str("\n", COLOR_ASSISTANT), x, y);
    AppendAssoc(h, AssistantBody(look, a, i), y);
  }

  lemma {:induction false} AssistantLeadOk(look: Look, e: Entry, i: nat, frozen: Styled)
    ensures LeadOk2(AssistantLead(look, e, i, frozen), i)
  {
    hide EntryHead, EntryControl, MarkdownPart;
    HeadControlOk(e, i);
    MarkdownPartOk(look, frozen, COLOR_ASSISTANT, i);
    BodyAppend(Str("\n", COLOR_ASSISTANT), MarkdownPart(look, frozen, COLOR_ASSISTANT, i), i);
    LeadBody(Append(EntryHead(e, i), EntryControl(e, i)), AssistantBody(look, frozen, i), i);
  }

  lemma {:induction false} LeadBody(a: Rendered, b: Rendered, i: int)
    requires LeadOk(a, i) && BodyOk(b, i)
    ensures LeadOk2(Append(a, b), i)
  {
  }

  /** Rewriting the text of the last entry leaves the others' rendering. */
  lemma {:induction false} LastTextOnly(look: Look, m: seq<Entry>, text: string, o: Options)
    requires m != []
    ensures var n := |m| - 1;
            var m' := SetLast(m, m[n].(text := text));
            Parts(look, m', o) == Parts(look, m, o)[n := RenderEntry(look, m', n, o)]
  {
    UpdateOne(look, m, |m| - 1, m[|m| - 1].(text := text), o);
  }

  lemma {:induction false} SameLead(look: Look, e: Entry, text: string, i: int, frozen: Styled)
    requires e.kind == AssistantText
    ensures AssistantLead(look, e.(text := text), i, frozen) == AssistantLead(look, e, i, frozen)
  {
  }

  lemma {:induction false} ReplyWhole(syn: Syntax, text: string, o: Options)
    ensures var r := RenderFromSpec(syn, text, 0, START, o);
            Render(syn, text, o) == Join(r.frozen, r.tail)
  {
    FrozenPlusTail(syn, text, 0, START, o);
  }

  /** While the last reply streams, only what follows its frozen part differs
      between the transcript before and after a delta. */
  lemma {:induction false} StreamParts(look: Look, m0: seq<Entry>, delta: string, o: Options)
    requires LastIs(m0, AssistantText)
    ensures var n := |m0| - 1;
            var t0 := m0[n].text;
            var m1 := SetLast(m0, m0[n].(text := t0 + delta));
            var prev := RenderFromSpec(look.syn, t0, 0, START, o);
            && prev.frozenEnd <= |t0|
            && var inc := RenderFromSpec(look.syn, t0 + delta, prev.frozenEnd, prev.state, o);
            var p := AssistantLead(look, m0[n], n, prev.frozen);
            var x := MarkdownPart(look, prev.tail, COLOR_ASSISTANT, n);
            var y := MarkdownPart(look, Join(inc.frozen, inc.tail), COLOR_ASSISTANT, n);
            && RenderEntry(look, m0, n, o) == Append(p, x)
            && RenderEntry(look, m1, n, o) == Append(p, y)
            && LeadOk2(p, n) && BodyOk(x, n) && BodyOk(y, n) && PartOk(Append(p, y), n)
  {
    hide RenderEntry, RenderFromSpec, Render, MarkdownPart, Join, PartOk, BodyOk, LeadOk2, AssistantLead, Append;
    var n := |m0| - 1;
    var t0 := m0[n].text;
    var m1 := SetLast(m0, m0[n].(text := t0 + delta));
    var prev := RenderFromSpec(look.syn, t0, 0, START, o);
    ResumeStream(look.syn, t0, delta, o);
    ReplyWhole(look.syn, t0, o);
    var inc := RenderFromSpec(look.syn, t0 + delta, prev.frozenEnd, prev.state, o);
    var next := Join(inc.frozen, inc.tail);
    AssistantSplit(look, m0, n, o, prev.frozen, prev.tail);
    AssistantSplit(look, m1, n, o, prev.frozen, next);
    SameLead(look, m0[n], t0 + delta, n, prev.frozen);
    AssistantLeadOk(look, m0[n], n, prev.frozen);
    MarkdownPartOk(look, prev.tail, COLOR_ASSISTANT, n);
    MarkdownPartOk(look, next, COLOR_ASSISTANT, n);
    EntryOk(look, m1, n, o);
  }

  /** The cache carried over a delta is the from-scratch one. */
  lemma {:induction false} StreamCache(look: Look, m: Model, delta: string)
    requires m.streaming && LastIs(m.entries, AssistantText)
    ensures var n := |m.entries| - 1;
            var t0 := m.entries[n].text;
            var md := FreshStream(look, m);
            && md.idx == n && md.frozenSrc <= |t0|
            && var inc := RenderFromSpec(look.syn, t0 + delta, md.frozenSrc, md.state, m.opts);
               FreshStream(look, m.(entries := SetLast(m.entries, m.entries[n].(text := t0 + delta))))
               == MdStream(n, inc.frozenEnd, inc.state, inc.tail)
  {
    hide RenderFromSpec, Join;
    ResumeStream(look.syn, m.entries[|m.entries| - 1].text, delta, m.opts);
  }

  // ---- What each update does to the parts ----

  lemma {:induction false} PartsPush(look: Look, m: Model, e: Entry)
    requires ModelOk(m)
    ensures var m' := m.entries + [e];
            Parts(look, m', m.opts) == Parts(look, m.entries, m.opts) + [RenderEntry(look, m', |m.entries|, m.opts)]
  {
    hide RenderEntry;
    var m' := m.entries + [e];
    forall k | 0 <= k < |m.entries| ensures RenderEntry(look, m', k, m.opts) == RenderEntry(look, m.entries, k, m.opts) {
      RenderSame(look, m', m.entries, k, m.opts);
    }
  }

  lemma {:induction false} FreshEmpty(look: Look, m: Model)
    requires m.streaming && LastIs(m.entries, AssistantText) && m.entries[|m.entries| - 1].text == ""
    ensures FreshStream(look, m) == NO_STREAM.(idx := |m.entries| - 1)
  {
    hide RenderFromSpec;
    EmptyReply(look.syn, m.opts);
  }

  /** What a reasoning delta adds to its block's rendering. */
  function ReasoningAdded(e: Entry, delta: string): Rendered {
    if e.collapsed || delta == "" then EMPTY
    else Append(if e.text == "" then Append(EMPTY, Str("\n", COLOR_THINKING_HEADER)) else EMPTY,
                Str(delta, COLOR_THINKING_BODY))
  }

  lemma {:induction false} ReasoningGrown(look: Look, m: seq<Entry>, delta: string, o: Options)
    requires LastIs(m, Reasoning)
    ensures var n := |m| - 1;
            var m' := SetLast(m, m[n].(text := m[n].text + delta));
            RenderEntry(look, m', n, o) == Append(RenderEntry(look, m, n, o), ReasoningAdded(m[n], delta))
  {
    var n := |m| - 1;
    var e := m[n];
    var e' := e.(text := e.text + delta);
    var m' := SetLast(m, e');
    assert EntryHead(e', n) == EntryHead(e, n) && EntryControl(e', n) == EntryControl(e, n);
    BodyGrown(e, delta);
    JoinBody(Append(EntryHead(e, n), EntryControl(e, n)), EntryBody(look, m, n, o), ReasoningAdded(e, delta));
  }

  lemma {:induction false} JoinBody(h: Rendered, b: Rendered, x: Rendered)
    ensures Append(h, Append(b, x)) == Append(Append(h, b), x)
  {
  }

  lemma {:induction false} BodyGrown(e: Entry, delta: string)
    ensures (if e.collapsed then EMPTY else ReasoningBody(e.text + delta))
            == Append(if e.collapsed then EMPTY else ReasoningBody(e.text), ReasoningAdded(e, delta))
  {
  }

  /** An update that other entries' lines do not depend on touches one part. */
  lemma {:induction false} UpdateOne(look: Look, m: seq<Entry>, i: int, e: Entry, o: Options)
    requires 0 <= i < |m|
    requires (e.name == m[i].name && e.collapsed == m[i].collapsed)
             || forall k :: 0 <= k < |m| && m[k].kind == ToolResult ==> m[k].toolIdx != i
    ensures Parts(look, m[i := e], o) == Parts(look, m, o)[i := RenderEntry(look, m[i := e], i, o)]
  {
    hide RenderEntry;
    var m' := m[i := e];
    forall k | 0 <= k < |m| && k != i ensures RenderEntry(look, m', k, o) == RenderEntry(look, m, k, o) {
      RenderSame(look, m', m, k, o);
    }
  }

  /** The streaming cache is about the last reply only. */
  lemma {:induction false} FreshOther(look: Look, m: Model, i: int, e: Entry)
    requires 0 <= i < |m.entries| && m.entries[i].kind != AssistantText && e.kind == m.entries[i].kind
    ensures FreshStream(look, m.(entries := m.entries[i := e])) == FreshStream(look, m)
    ensures FreshStream(look, m).idx != i
  {
    hide RenderFromSpec;
  }
}
