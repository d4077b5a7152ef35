/** One session's engine, as far as its transcript shows: the rows it stores,
    the step streaming right now, and the events it announces. */
module StreamEngine {
  import opened Wrappers

  /** A tool call: its id, and what of it shows. */
  datatype Call = Call(id: string, text: string)

  /** A reply's text is what was streamed; the note about dropped calls that
      the engine stores behind it never was. `LeftRow` only keeps the place
      where a turn ended with a call announced and left without a result: it is
      not stored and never shows. */
  datatype Row =
    | PromptRow(text: string)
    | AssistantRow(step: nat, reasoning: string, text: string, note: string, calls: seq<Call>)
    | ResultRow(callId: string, output: string)
    | LeftRow

  /** The engine's in-flight copy of the step that is streaming. */
  datatype Stream = Stream(step: nat, reasoning: string, text: string)

  /** What the bus carries. A delta names its step and the byte offset it
      starts at, a row's event the row generation after the write. The result
      of a call dropped as malformed belongs to no row: its generation is 0. */
  datatype Event =
    | StepStarted(step: nat)
    | TextDelta(step: nat, offset: nat, delta: string)
    | ReasoningDelta(step: nat, offset: nat, delta: string)
    | Prompted(gen: nat, text: string)
    | ToolCalled(gen: nat, text: string)
    | ToolResult(gen: nat, callId: string, output: string, replacing: bool)

  /** `waiting` are the calls of the newest assistant row not announced yet,
      `running` the call announced whose result is still to come, `asking`
      that the newest result may yet be rewritten by an answer. */
  datatype Engine = Engine(rows: seq<Row>, inFlight: Option<Stream>, rowGen: nat, assistantGen: nat,
                           waiting: seq<Call>, running: Option<Call>, asking: bool, nextStep: nat)

  const IDLE := Engine([], None, 0, 0, [], None, false, 0)

  datatype Action =
    | Begin                                     // register the step, announce it
    | Again                                     // a retried attempt of the same step
    | Text(delta: string)
    | Reason(delta: string)
    | Drop(callId: string, error: string)       // a call whose input did not parse
    | Persist(note: string, calls: seq<Call>)   // row written and in-flight copy dropped in one step
    | Abort                                     // the step ends without a row
    | Announce                                  // the next tool call starts
    | Finish(output: string)                    // its result row
    | Answer(output: string, found: bool)       // the newest result row rewritten, if it is found
    | Stop                                      // the turn ends with calls that have no result
    | Prompt(text: string)
    | CutTail                                   // retry: rows after the last prompt go

  predicate BetweenTurns(e: Engine) {
    e.inFlight.None? && e.waiting == [] && e.running.None?
  }

  predicate Allowed(e: Engine, a: Action) {
    match a
    case Begin => BetweenTurns(e)
    case Again => e.inFlight.Some? && e.inFlight.value.text == "" && e.inFlight.value.reasoning == ""
    case Text(_) => e.inFlight.Some?
    case Reason(_) => e.inFlight.Some?
    case Drop(_, _) => e.inFlight.Some?
    case Persist(_, _) => e.inFlight.Some?
    case Abort => e.inFlight.Some?
    case Announce => e.waiting != [] && e.running.None?
    case Finish(_) => e.running.Some?
    case Answer(_, found) =>
      e.asking && e.rows != [] && e.rows[|e.rows| - 1].ResultRow? && (Unescaped(e.rows[|e.rows| - 1].callId) ==> found)
    case Stop => e.waiting != [] || e.running.Some?
    case Prompt(_) => BetweenTurns(e)
    case CutTail => BetweenTurns(e)
  }

  /** A reply is stored only if it has something to say. */
  predicate Says(e: Engine, a: Action) {
    a.Persist? && e.inFlight.Some? ==> e.inFlight.value.text + a.note != "" || a.calls != []
  }

  /** Bytes that a JSON string holds as they are, so that the search for the id
      in the rows' data finds it; another id it may miss. */
  predicate Unescaped(id: string) {
    forall k :: 0 <= k < |id| ==> id[k] != '"' && id[k] != '\\' && id[k] >= ' '
  }

  /** Rows up to and with the newest prompt; all of them when there is none. */
  function UpToPrompt(rows: seq<Row>): (r: seq<Row>)
    ensures r == [] || r <= rows
  {
    if rows == [] then []
    else if rows[|rows| - 1].PromptRow? then rows
    else UpToPrompt(rows[..|rows| - 1])
  }

  predicate HasPrompt(rows: seq<Row>) {
    exists i :: 0 <= i < |rows| && rows[i].PromptRow?
  }

  /** The engine after an action, and the event it is about to publish. */
  function Act(e: Engine, a: Action): (Engine, Option<Event>)
    requires Allowed(e, a)
  {
    match a
    case Begin =>
      (e.(inFlight := Some(Stream(e.nextStep, "", "")), nextStep := e.nextStep + 1, asking := false),
       Some(StepStarted(e.nextStep)))
    case Again => (e, Some(StepStarted(e.inFlight.value.step)))
    case Text(d) =>
      var f := e.inFlight.value;
      (e.(inFlight := Some(f.(text := f.text + d))), Some(TextDelta(f.step, |f.text|, d)))
    case Reason(d) =>
      var f := e.inFlight.value;
      (e.(inFlight := Some(f.(reasoning := f.reasoning + d))), Some(ReasoningDelta(f.step, |f.reasoning|, d)))
    case Drop(c, error) => (e, Some(ToolResult(0, c, error, false)))
    case Persist(note, calls) =>
      var f := e.inFlight.value;
      (e.(rows := e.rows + [AssistantRow(f.step, f.reasoning, f.text, note, calls)], inFlight := None,
          rowGen := e.rowGen + 1, assistantGen := e.rowGen + 1, waiting := calls), None)
    case Abort => (e.(inFlight := None), None)
    case Announce =>
      (e.(waiting := e.waiting[1..], running := Some(e.waiting[0]), asking := false),
       Some(ToolCalled(e.assistantGen, e.waiting[0].text)))
    case Finish(out) =>
      (e.(rows := e.rows + [ResultRow(e.running.value.id, out)], running := None, rowGen := e.rowGen + 1,
          asking := true),
       Some(ToolResult(e.rowGen + 1, e.running.value.id, out, false)))
    case Answer(out, found) =>
      var n := |e.rows| - 1;
      (e.(rows := if found then e.rows[n := e.rows[n].(output := out)] else e.rows,
          rowGen := e.rowGen + 1, asking := false),
       Some(ToolResult(e.rowGen + 1, e.rows[n].callId, out, true)))
    case Stop =>
      (e.(rows := if e.running.Some? then e.rows + [LeftRow] else e.rows, waiting := [], running := None, asking := false),
       None)
    case Prompt(t) =>
      (e.(rows := e.rows + [PromptRow(t)], rowGen := e.rowGen + 1, asking := false), Some(Prompted(e.rowGen + 1, t)))
    case CutTail =>
      (e.(rows := if HasPrompt(e.rows) then UpToPrompt(e.rows) else e.rows, asking := false), None)
  }

  /** A retry keeps the rows up to the newest prompt, that one included, and all
      of them when there is none. */
  lemma {:induction false} TailCut(e: Engine)
    requires Allowed(e, CutTail)
    ensures var rows := Act(e, CutTail).0.rows;
            && rows <= e.rows
            && (rows == e.rows || (rows != [] && rows[|rows| - 1].PromptRow?))
            && forall k :: |rows| <= k < |e.rows| ==> !e.rows[k].PromptRow?
  {
    NewestPrompt(e.rows);
    if !HasPrompt(e.rows) {
      assert forall k :: 0 <= k < |e.rows| ==> !e.rows[k].PromptRow?;
    }
  }

  lemma {:induction false} NewestPrompt(rows: seq<Row>)
    ensures var r := UpToPrompt(rows);
            && r <= rows && (r == [] || r[|r| - 1].PromptRow?) && (HasPrompt(rows) ==> r != [])
            && forall k :: |r| <= k < |rows| ==> !rows[k].PromptRow?
    decreases |rows|
  {
    if rows != [] && !rows[|rows| - 1].PromptRow? {
      NewestPrompt(rows[..|rows| - 1]);
      assert forall k :: 0 <= k < |rows| - 1 ==> rows[k] == rows[..|rows| - 1][k];
      if HasPrompt(rows) {
        var i :| 0 <= i < |rows| && rows[i].PromptRow?;
        assert rows[..|rows| - 1][i].PromptRow?;
      }
    }
  }

  // ---- What is forwarded ----

  /** What a C string keeps: everything up to the first NUL byte. */
  function Cut(s: string): (r: string)
    ensures r <= s
  {
    if s == "" || s[0] == '\0' then "" else [s[0]] + Cut(s[1..])
  }

  /** What is left of a string after bytes of it were cut, or not. */
  predicate Shorter(a: string, b: string) {
    a == b || |a| < |b|
  }

  function CutCalls(calls: seq<Call>): (r: seq<Call>)
    ensures |r| == |calls|
  {
    seq(|calls|, i requires 0 <= i < |calls| => Call(Cut(calls[i].id), Cut(calls[i].text)))
  }

  /** An event as the relay forwards it. */
  function CutEvent(ev: Event): Event {
    match ev
    case StepStarted(_) => ev
    case TextDelta(p, off, d) => TextDelta(p, off, Cut(d))
    case ReasoningDelta(p, off, d) => ReasoningDelta(p, off, Cut(d))
    case Prompted(g, t) => Prompted(g, Cut(t))
    case ToolCalled(g, t) => ToolCalled(g, Cut(t))
    case ToolResult(g, c, out, rep) => ToolResult(g, Cut(c), Cut(out), rep)
  }

  /** An action as its event tells it. */
  function CutAction(a: Action): Action {
    match a
    case Text(d) => Text(Cut(d))
    case Reason(d) => Reason(Cut(d))
    case Drop(c, error) => Drop(Cut(c), Cut(error))
    case Persist(note, calls) => Persist(note, CutCalls(calls))
    case Finish(out) => Finish(Cut(out))
    case Answer(out, found) => Answer(Cut(out), found)
    case Prompt(t) => Prompt(Cut(t))
    case _ => a
  }

  // ---- Engine invariant ----

  /** What an event says is still true of the engine at any later time: its
      generation has been reached, and its bytes, if their step still
      streams, are inside the in-flight copy at the offset it names. */
  ghost predicate Recorded(e: Engine, ev: Event) {
    match ev
    case StepStarted(p) => p < e.nextStep
    case TextDelta(p, off, d) =>
      p < e.nextStep && (e.inFlight.Some? && e.inFlight.value.step == p ==>
        off + |d| <= |e.inFlight.value.text| && e.inFlight.value.text[off..off + |d|] == d)
    case ReasoningDelta(p, off, d) =>
      p < e.nextStep && (e.inFlight.Some? && e.inFlight.value.step == p ==>
        off + |d| <= |e.inFlight.value.reasoning| && e.inFlight.value.reasoning[off..off + |d|] == d)
    case Prompted(g, _) => 0 < g <= e.rowGen
    case ToolCalled(g, _) => 0 < g <= e.rowGen
    case ToolResult(g, _, _, replacing) => g <= e.rowGen && (replacing ==> 0 < g)
  }

  /** Step ids are fresh and never shared between rows and the stream. */
  ghost predicate EngineOk(e: Engine) {
    && e.assistantGen <= e.rowGen
    && (e.waiting != [] || e.running.Some? ==> e.inFlight.None? && 0 < e.assistantGen)
    && (e.asking ==> e.inFlight.None? && e.running.None? && e.rows != [] && e.rows[|e.rows| - 1].ResultRow?)
    && (e.inFlight.Some? ==> e.inFlight.value.step < e.nextStep)
    && (forall i :: 0 <= i < |e.rows| && e.rows[i].AssistantRow? ==>
          && e.rows[i].step < e.nextStep
          && (e.inFlight.Some? ==> e.rows[i].step != e.inFlight.value.step))
    && (forall i, j :: 0 <= i < j < |e.rows| && e.rows[i].AssistantRow? && e.rows[j].AssistantRow? ==>
          e.rows[i].step != e.rows[j].step)
  }

  lemma {:induction false} ActOk(e: Engine, a: Action)
    requires EngineOk(e) && Allowed(e, a)
    ensures EngineOk(Act(e, a).0)
    ensures Act(e, a).1.Some? ==> Recorded(Act(e, a).0, Act(e, a).1.value)
  {
    if a.CutTail? && HasPrompt(e.rows) {
      var r := UpToPrompt(e.rows);
      assert forall i :: 0 <= i < |r| ==> r[i] == e.rows[i];
    }
  }

  /** What is recorded of an event is recorded of what is forwarded. */
  lemma {:induction false} CutRecorded(e: Engine, ev: Event)
    requires Recorded(e, ev)
    ensures Recorded(e, CutEvent(ev))
  {
  }

  lemma {:induction false} StaysRecorded(e: Engine, a: Action, ev: Event)
    requires EngineOk(e) && Allowed(e, a) && Recorded(e, ev)
    ensures Recorded(Act(e, a).0, ev)
  {
  }
}
