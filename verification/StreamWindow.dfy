/** The window's side of joining a session: what a transcript load shows, and
    which of the events queued around the load it accepts. */
module StreamWindow {
  import opened Wrappers
  import opened StreamEngine

  /** One piece of the transcript on screen. Bytes carry the step they belong
      to and whether they are reasoning; loose bytes came with no step. An
      extra result, of a dropped call or an answer that found none to rewrite,
      looks like any other; only the books tell it from one that a row stands
      behind. */
  datatype Item =
    | PromptItem(text: string)
    | Bytes(step: nat, reasoning: bool, bytes: string)
    | LooseBytes(reasoning: bool, bytes: string)
    | CallItem(text: string)
    | ResultItem(callId: string, output: string)
    | ExtraItem(callId: string, output: string)

  predicate IsResult(it: Item) {
    it.ResultItem? || it.ExtraItem?
  }

  function AddBytes(items: seq<Item>, step: nat, reasoning: bool, bytes: string): seq<Item> {
    if bytes == "" then items else items + [Bytes(step, reasoning, bytes)]
  }

  function CallItems(calls: seq<Call>): (r: seq<Item>)
    ensures |r| == |calls|
  {
    seq(|calls|, i requires 0 <= i < |calls| => CallItem(calls[i].text))
  }

  function RowItems(row: Row): seq<Item> {
    match row
    case PromptRow(t) => [PromptItem(t)]
    case AssistantRow(step, reasoning, text, note, calls) =>
      AddBytes(AddBytes([], step, true, reasoning), step, false, text + note) + CallItems(calls)
    case ResultRow(c, out) => [ResultItem(c, out)]
    case LeftRow => []
  }

  function RowsItems(rows: seq<Row>): seq<Item> {
    if rows == [] then [] else RowsItems(rows[..|rows| - 1]) + RowItems(rows[|rows| - 1])
  }

  function StreamItems(s: Option<Stream>): seq<Item> {
    match s
    case None => []
    case Some(f) => AddBytes(AddBytes([], f.step, true, f.reasoning), f.step, false, f.text)
  }

  /** The newest result of a call, or -1. */
  function NewestShown(items: seq<Item>, callId: string): (r: int)
    ensures -1 <= r < |items|
    ensures r >= 0 ==> IsResult(items[r]) && items[r].callId == callId
    ensures forall k :: 0 <= k < |items| && k > r ==> !(IsResult(items[k]) && items[k].callId == callId)
  {
    if items == [] then -1
    else
      var n := |items| - 1;
      if IsResult(items[n]) && items[n].callId == callId then n else NewestShown(items[..n], callId)
  }

  function NewResult(gen: nat, callId: string, output: string, replacing: bool): Item {
    if gen > 0 && !replacing then ResultItem(callId, output) else ExtraItem(callId, output)
  }

  function ShowResult(items: seq<Item>, gen: nat, callId: string, output: string, replacing: bool): seq<Item> {
    var i := NewestShown(items, callId);
    if replacing && callId != "" && i >= 0 then items[i := items[i].(output := output)]
    else items + [NewResult(gen, callId, output, replacing)]
  }

  /** The window's fields, and the transcript it shows. */
  datatype Window = Window(stepId: Option<nat>, textFloor: int, reasoningFloor: int, rowGen: nat, items: seq<Item>)

  /** _LoadHistory, from the rows and the in-flight copy read in one step. */
  function LoadedFrom(rows: seq<Row>, inFlight: Option<Stream>, rowGen: nat): Window {
    match inFlight
    case None => Window(None, 0, 0, rowGen, RowsItems(rows) + StreamItems(inFlight))
    case Some(f) => Window(Some(f.step), |f.text|, |f.reasoning|, rowGen, RowsItems(rows) + StreamItems(inFlight))
  }

  function Loaded(e: Engine): Window {
    LoadedFrom(e.rows, e.inFlight, e.rowGen)
  }

  predicate Accepts(w: Window, step: nat, offset: int, floor: int) {
    w.stepId == Some(step) && !(offset >= 0 && offset < floor)
  }

  predicate AlreadyLoaded(w: Window, gen: nat) {
    gen > 0 && gen <= w.rowGen
  }

  /** What the window does with an event of its session. */
  function Handle(w: Window, ev: Event): Window {
    match ev
    case StepStarted(p) =>
      if w.stepId != Some(p) then w.(stepId := Some(p), textFloor := 0, reasoningFloor := 0) else w
    case TextDelta(p, off, d) =>
      if Accepts(w, p, off, w.textFloor) then w.(items := AddBytes(w.items, p, false, d)) else w
    case ReasoningDelta(p, off, d) =>
      if Accepts(w, p, off, w.reasoningFloor) then w.(items := AddBytes(w.items, p, true, d)) else w
    case Prompted(g, t) =>
      if AlreadyLoaded(w, g) then w else w.(items := w.items + [PromptItem(t)])
    case ToolCalled(g, t) =>
      if AlreadyLoaded(w, g) then w else w.(items := w.items + [CallItem(t)])
    case ToolResult(g, c, out, rep) =>
      if AlreadyLoaded(w, g) then w else w.(items := ShowResult(w.items, g, c, out, rep))
  }

  function HandleAll(w: Window, evs: seq<Event>): Window {
    if evs == [] then w else Handle(HandleAll(w, evs[..|evs| - 1]), evs[|evs| - 1])
  }

  lemma {:induction false} HandleAllPush(w: Window, evs: seq<Event>, ev: Event)
    ensures HandleAll(w, evs + [ev]) == Handle(HandleAll(w, evs), ev)
  {
  }

  lemma {:induction false} HandleAllFirst(w: Window, evs: seq<Event>)
    requires evs != []
    ensures HandleAll(w, evs) == HandleAll(Handle(w, evs[0]), evs[1..])
    decreases |evs|
  {
    var n := |evs| - 1;
    if n == 0 {
      assert evs[..0] == [] && evs[1..] == [];
    } else {
      HandleAllFirst(w, evs[..n]);
      assert evs[..n][1..] == evs[1..][..n - 1];
    }
  }

  /** One result as it shows: a row stands behind it, or none. */
  datatype Told = Told(backed: bool, callId: string, output: string)

  /** The books a window could keep of what it was told since a load. `told` is
      the engine as events told it, with the rows and the stream of the load
      taken as they were; of results, `log` has what shows, oldest first. At the
      load there were `rows` rows, and `quiet` calls of the newest reply without
      a result. Also: whether reasoning of a step showed after text of it,
      whether bytes showed of a step that is neither streaming nor stored,
      whether anything told was cut at a NUL byte, and whether an answer went
      astray: to a call without an id, past the stored row, or to another result
      than the newest. */
  datatype Since = Since(told: Engine, rows: nat, quiet: nat, log: seq<Told>, mixed: bool, stray: bool,
                         cut: bool, astray: bool)

  /** The window after handling the event an action announces, if any. */
  function Follow(w: Window, e: Engine, a: Action): Window
    requires Allowed(e, a)
  {
    match Act(e, a).1 case None => w case Some(ev) => Handle(w, ev)
  }

  lemma {:induction false} ReplyItems(row: Row)
    requires row.AssistantRow?
    ensures RowItems(row) == AddBytes([], row.step, true, row.reasoning)
                             + AddBytes([], row.step, false, row.text + row.note) + CallItems(row.calls)
  {
  }

  // ---- The window's handlers, as they update its fields ----

  class MainWindow {
    var activeSessionId: nat
    var streamStepId: Option<nat>
    var streamTextFloor: int
    var streamReasoningFloor: int
    var loadedRowGen: nat
    var transcript: seq<Item>

    ghost function Abs(): Window
      reads this
    {
      Window(streamStepId, streamTextFloor, streamReasoningFloor, loadedRowGen, transcript)
    }

    constructor (session: nat)
      ensures activeSessionId == session && Abs() == Window(None, 0, 0, 0, [])
    {
      activeSessionId := session;
      streamStepId, streamTextFloor, streamReasoningFloor := None, 0, 0;
      loadedRowGen, transcript := 0, [];
    }

    method FromOtherSession(sid: nat) returns (r: bool)
      ensures r == (sid != activeSessionId)
    {
      r := activeSessionId != sid;
    }

    method RowAlreadyLoaded(gen: nat) returns (r: bool)
      ensures r == AlreadyLoaded(Abs(), gen)
    {
      r := gen > 0 && gen <= loadedRowGen;
    }

    /** A delta that names no step is accepted as it is. */
    method AcceptStreamDelta(sid: nat, step: Option<nat>, offset: int, floor: int) returns (r: bool)
      ensures r == (sid == activeSessionId && (step.None? || Accepts(Abs(), step.value, offset, floor)))
    {
      var other := FromOtherSession(sid);
      if other {
        return false;
      }
      if step.None? {
        return true;
      }
      if streamStepId != step {
        return false;
      }
      return !(offset >= 0 && offset < floor);
    }

    /** Rows first, in order, then what streams right now. */
    method LoadHistory(session: nat, rows: seq<Row>, inFlight: Option<Stream>, rowGen: nat)
      modifies this
      ensures activeSessionId == session
      ensures Abs() == LoadedFrom(rows, inFlight, rowGen)
    {
      hide RowItems;
      activeSessionId := session;
      transcript := [];
      var i := 0;
      while i < |rows|
        invariant 0 <= i <= |rows| && transcript == RowsItems(rows[..i]) && activeSessionId == session
      {
        assert rows[..i + 1][..i] == rows[..i];
        AppendRow(rows[i]);
        i := i + 1;
      }
      assert rows[..i] == rows;
      streamStepId, streamTextFloor, streamReasoningFloor := None, 0, 0;
      if inFlight.Some? {
        var f := inFlight.value;
        AppendBytes(f.step, true, f.reasoning);
        AppendBytes(f.step, false, f.text);
        assert transcript == RowsItems(rows) + StreamItems(inFlight);
        streamStepId, streamTextFloor, streamReasoningFloor := Some(f.step), |f.text|, |f.reasoning|;
      }
      loadedRowGen := rowGen;
    }

    method AppendBytes(step: nat, reasoning: bool, bytes: string)
      modifies `transcript
      ensures transcript == AddBytes(old(transcript), step, reasoning, bytes)
      ensures transcript == old(transcript) + AddBytes([], step, reasoning, bytes)
    {
      if bytes != "" {
        transcript := transcript + [Bytes(step, reasoning, bytes)];
      }
    }

    method AppendRow(row: Row)
      modifies `transcript
      ensures transcript == old(transcript) + RowItems(row)
    {
      hide CallItems, AddBytes;
      if row.PromptRow? {
        transcript := transcript + [PromptItem(row.text)];
      } else if row.ResultRow? {
        transcript := transcript + [ResultItem(row.callId, row.output)];
      } else if row.AssistantRow? {
        AppendBytes(row.step, true, row.reasoning);
        AppendBytes(row.step, false, row.text + row.note);
        AppendCalls(row.calls);
        ReplyItems(row);
      }
    }

    method AppendCalls(calls: seq<Call>)
      modifies `transcript
      ensures transcript == old(transcript) + CallItems(calls)
    {
      var j := 0;
      while j < |calls|
        invariant 0 <= j <= |calls| && transcript == old(transcript) + CallItems(calls[..j])
      {
        transcript := transcript + [CallItem(calls[j].text)];
        j := j + 1;
      }
      assert calls[..j] == calls;
    }

    method HandleStepStarted(sid: nat, step: nat)
      modifies this
      ensures activeSessionId == old(activeSessionId)
      ensures Abs() == if sid == activeSessionId then Handle(old(Abs()), StepStarted(step)) else old(Abs())
    {
      var other := FromOtherSession(sid);
      if other {
        return;
      }
      if streamStepId != Some(step) {
        streamStepId := Some(step);
        streamTextFloor := 0;
        streamReasoningFloor := 0;
      }
    }

    method HandleTextDelta(sid: nat, step: Option<nat>, offset: nat, delta: string)
      modifies this
      ensures activeSessionId == old(activeSessionId)
      ensures Abs() == if sid != activeSessionId then old(Abs())
                       else if step.Some? then Handle(old(Abs()), TextDelta(step.value, offset, delta))
                       else if delta == "" then old(Abs())
                       else old(Abs()).(items := old(Abs()).items + [LooseBytes(false, delta)])
    {
      var ok := AcceptStreamDelta(sid, step, offset, streamTextFloor);
      if !ok {
        return;
      }
      if step.Some? {
        AppendBytes(step.value, false, delta);
      } else if delta != "" {
        transcript := transcript + [LooseBytes(false, delta)];
      }
    }

    method HandleReasoningDelta(sid: nat, step: Option<nat>, offset: nat, delta: string)
      modifies this
      ensures activeSessionId == old(activeSessionId)
      ensures Abs() == if sid != activeSessionId then old(Abs())
                       else if step.Some? then Handle(old(Abs()), ReasoningDelta(step.value, offset, delta))
                       else if delta == "" then old(Abs())
                       else old(Abs()).(items := old(Abs()).items + [LooseBytes(true, delta)])
    {
      var ok := AcceptStreamDelta(sid, step, offset, streamReasoningFloor);
      if !ok {
        return;
      }
      if step.Some? {
        AppendBytes(step.value, true, delta);
      } else if delta != "" {
        transcript := transcript + [LooseBytes(true, delta)];
      }
    }

    method HandlePromptStarted(sid: nat, gen: nat, text: string)
      modifies this
      ensures activeSessionId == old(activeSessionId)
      ensures Abs() == if sid == activeSessionId then Handle(old(Abs()), Prompted(gen, text)) else old(Abs())
    {
      if sid != activeSessionId {
        return;
      }
      var loaded := RowAlreadyLoaded(gen);
      if !loaded {
        transcript := transcript + [PromptItem(text)];
      }
    }

    method HandleToolCalled(sid: nat, gen: nat, text: string)
      modifies this
      ensures activeSessionId == old(activeSessionId)
      ensures Abs() == if sid == activeSessionId then Handle(old(Abs()), ToolCalled(gen, text)) else old(Abs())
    {
      var other := FromOtherSession(sid);
      if other {
        return;
      }
      var loaded := RowAlreadyLoaded(gen);
      if !loaded {
        transcript := transcript + [CallItem(text)];
      }
    }

    method HandleToolResult(sid: nat, gen: nat, callId: string, output: string, replacing: bool)
      modifies this
      ensures activeSessionId == old(activeSessionId)
      ensures Abs() == if sid == activeSessionId then Handle(old(Abs()), ToolResult(gen, callId, output, replacing))
                       else old(Abs())
    {
      var other := FromOtherSession(sid);
      if other {
        return;
      }
      var loaded := RowAlreadyLoaded(gen);
      if loaded {
        return;
      }
      var updated := false;
      if replacing {
        updated := UpdateShown(gen, callId, output);
      }
      if !updated {
        transcript := transcript + [NewResult(gen, callId, output, replacing)];
      }
    }

    method UpdateShown(ghost gen: nat, callId: string, output: string) returns (found: bool)
      modifies `transcript
      ensures found == (callId != "" && NewestShown(old(transcript), callId) >= 0)
      ensures transcript == if found then ShowResult(old(transcript), gen, callId, output, true) else old(transcript)
    {
      if callId == "" {
        return false;
      }
      var i := |transcript| - 1;
      while i >= 0
        invariant -1 <= i < |transcript| && transcript == old(transcript)
        invariant forall k :: i < k < |transcript| ==> !(IsResult(transcript[k]) && transcript[k].callId == callId)
      {
        if IsResult(transcript[i]) && transcript[i].callId == callId {
          assert NewestShown(transcript, callId) == i;
          transcript := transcript[i := transcript[i].(output := output)];
          return true;
        }
        i := i - 1;
      }
      found := false;
    }
  }
}
