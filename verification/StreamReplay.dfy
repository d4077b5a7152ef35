/** One session seen by a window that handles each event at once: what it
    shows always agrees with what the engine has stored and streamed. */
module StreamReplay {
  import opened Wrappers
  import opened StreamEngine
  import opened StreamWindow

  // ---- What a transcript says ----

  function ItemBytes(it: Item, step: nat, reasoning: bool): string {
    if it.Bytes? && it.step == step && it.reasoning == reasoning then it.bytes else ""
  }

  function BytesOf(items: seq<Item>, step: nat, reasoning: bool): string {
    if items == [] then ""
    else BytesOf(items[..|items| - 1], step, reasoning) + ItemBytes(items[|items| - 1], step, reasoning)
  }

  function Prompts(items: seq<Item>): seq<string> {
    if items == [] then []
    else
      var n := |items| - 1;
      Prompts(items[..n]) + (if items[n].PromptItem? then [items[n].text] else [])
  }

  function Calls(items: seq<Item>): seq<string> {
    if items == [] then []
    else
      var n := |items| - 1;
      Calls(items[..n]) + (if items[n].CallItem? then [items[n].text] else [])
  }

  function ToldOf(it: Item): seq<Told> {
    if it.ResultItem? then [Told(true, it.callId, it.output)]
    else if it.ExtraItem? then [Told(false, it.callId, it.output)]
    else []
  }

  /** The results that show. */
  function Log(items: seq<Item>): seq<Told> {
    if items == [] then [] else Log(items[..|items| - 1]) + ToldOf(items[|items| - 1])
  }

  function CallTexts(calls: seq<Call>): (r: seq<string>)
    ensures |r| == |calls|
  {
    seq(|calls|, i requires 0 <= i < |calls| => calls[i].text)
  }

  lemma {:induction false} StringAssoc(a: string, b: string, c: string)
    ensures (a + b) + c == a + (b + c)
  {
  }

  lemma {:induction false} BytesOfJoin(a: seq<Item>, b: seq<Item>, step: nat, reasoning: bool)
    ensures BytesOf(a + b, step, reasoning) == BytesOf(a, step, reasoning) + BytesOf(b, step, reasoning)
    decreases |b|
  {
    hide ItemBytes;
    if b == [] {
      assert a + b == a;
    } else {
      var n := |b| - 1;
      var x := ItemBytes(b[n], step, reasoning);
      assert (a + b)[..|a| + n] == a + b[..n] && (a + b)[|a| + n] == b[n];
      BytesOfJoin(a, b[..n], step, reasoning);
      StringAssoc(BytesOf(a, step, reasoning), BytesOf(b[..n], step, reasoning), x);
    }
  }

  lemma {:induction false} OneItem(items: seq<Item>, it: Item, step: nat, reasoning: bool)
    ensures BytesOf(items + [it], step, reasoning)
            == BytesOf(items, step, reasoning)
               + (if it.Bytes? && it.step == step && it.reasoning == reasoning then it.bytes else "")
    ensures Prompts(items + [it]) == Prompts(items) + (if it.PromptItem? then [it.text] else [])
    ensures Calls(items + [it]) == Calls(items) + (if it.CallItem? then [it.text] else [])
    ensures Log(items + [it]) == Log(items) + ToldOf(it)
  {
  }

  lemma {:induction false} NothingShows(step: nat, reasoning: bool)
    ensures BytesOf([], step, reasoning) == "" && Prompts([]) == [] && Calls([]) == [] && Log([]) == []
  {
  }

  lemma {:induction false} ListsJoin(a: seq<Item>, b: seq<Item>)
    ensures Prompts(a + b) == Prompts(a) + Prompts(b)
    ensures Calls(a + b) == Calls(a) + Calls(b)
    ensures Log(a + b) == Log(a) + Log(b)
    decreases |b|
  {
    hide Prompts, Calls, Log;
    if b == [] {
      NothingShows(0, true);
      assert a + b == a;
    } else {
      var n := |b| - 1;
      assert a + b == (a + b[..n]) + [b[n]] && b == b[..n] + [b[n]];
      ListsJoin(a, b[..n]);
      OneItem(a + b[..n], b[n], 0, true);
      OneItem(b[..n], b[n], 0, true);
    }
  }

  lemma {:induction false} AddedBytes(items: seq<Item>, p: nat, r: bool, d: string, step: nat, reasoning: bool)
    ensures BytesOf(AddBytes(items, p, r, d), step, reasoning)
            == BytesOf(items, step, reasoning) + (if p == step && r == reasoning then d else "")
    ensures Prompts(AddBytes(items, p, r, d)) == Prompts(items)
    ensures Calls(AddBytes(items, p, r, d)) == Calls(items)
    ensures Log(AddBytes(items, p, r, d)) == Log(items)
  {
  }

  lemma {:induction false} CallsAdded(calls: seq<Call>, step: nat, reasoning: bool)
    ensures Calls(CallItems(calls)) == CallTexts(calls)
    ensures BytesOf(CallItems(calls), step, reasoning) == "" && Prompts(CallItems(calls)) == []
            && Log(CallItems(calls)) == []
    decreases |calls|
  {
    if calls != [] {
      var n := |calls| - 1;
      CallsAdded(calls[..n], step, reasoning);
      assert CallItems(calls)[..n] == CallItems(calls[..n]);
    }
  }

  lemma {:induction false} ReplyShows(p: nat, r: string, t: string, step: nat, reasoning: bool)
    ensures var items := AddBytes(AddBytes([], p, true, r), p, false, t);
            && BytesOf(items, step, reasoning) == (if p != step then "" else if reasoning then r else t)
            && Prompts(items) == [] && Calls(items) == [] && Log(items) == []
  {
    hide BytesOf, Prompts, Calls, Log, AddBytes;
    NothingShows(step, reasoning);
    AddedBytes([], p, true, r, step, reasoning);
    AddedBytes(AddBytes([], p, true, r), p, false, t, step, reasoning);
    if p == step {
      assert "" + r == r && "" + t == t;
    }
  }

  /** What one row shows. */
  lemma {:induction false} RowShows(row: Row, step: nat, reasoning: bool)
    ensures BytesOf(RowItems(row), step, reasoning)
            == if row.AssistantRow? && row.step == step then (if reasoning then row.reasoning else row.text + row.note) else ""
    ensures Prompts(RowItems(row)) == if row.PromptRow? then [row.text] else []
    ensures Calls(RowItems(row)) == if row.AssistantRow? then CallTexts(row.calls) else []
    ensures Log(RowItems(row)) == if row.ResultRow? then [Told(true, row.callId, row.output)] else []
  {
    hide BytesOf, Prompts, Calls, Log, AddBytes, CallItems;
    NothingShows(step, reasoning);
    match row
    case AssistantRow(p, r, t, note, calls) =>
      var items := AddBytes(AddBytes([], p, true, r), p, false, t + note);
      ReplyShows(p, r, t + note, step, reasoning);
      CallsAdded(calls, step, reasoning);
      BytesOfJoin(items, CallItems(calls), step, reasoning);
      ListsJoin(items, CallItems(calls));
    case PromptRow(t) =>
      OneItem([], PromptItem(t), step, reasoning);
      assert [] + [PromptItem(t)] == [PromptItem(t)];
    case ResultRow(c, o) =>
      OneItem([], ResultItem(c, o), step, reasoning);
      assert [] + [ResultItem(c, o)] == [ResultItem(c, o)];
    case LeftRow =>
  }

  lemma {:induction false} RowsPush(rows: seq<Row>, row: Row, step: nat, reasoning: bool)
    ensures RowsItems(rows + [row]) == RowsItems(rows) + RowItems(row)
    ensures BytesOf(RowsItems(rows + [row]), step, reasoning)
            == BytesOf(RowsItems(rows), step, reasoning)
               + (if row.AssistantRow? && row.step == step then (if reasoning then row.reasoning else row.text + row.note) else "")
    ensures Prompts(RowsItems(rows + [row])) == Prompts(RowsItems(rows)) + (if row.PromptRow? then [row.text] else [])
    ensures Calls(RowsItems(rows + [row])) == Calls(RowsItems(rows)) + (if row.AssistantRow? then CallTexts(row.calls) else [])
    ensures Log(RowsItems(rows + [row]))
            == Log(RowsItems(rows)) + (if row.ResultRow? then [Told(true, row.callId, row.output)] else [])
  {
    hide RowItems;
    assert (rows + [row])[..|rows|] == rows;
    RowShows(row, step, reasoning);
    BytesOfJoin(RowsItems(rows), RowItems(row), step, reasoning);
    ListsJoin(RowsItems(rows), RowItems(row));
  }

  // ---- Agreement with the engine ----

  /** Each byte of the current step, and of every stored step, shown exactly
      once and in order; of a reply stored after the load of the first `loaded`
      rows, every byte but those of the note that never streamed. */
  ghost predicate BytesAgree(items: seq<Item>, e: Engine, loaded: nat) {
    && (e.inFlight.Some? ==>
          && BytesOf(items, e.inFlight.value.step, false) == e.inFlight.value.text
          && BytesOf(items, e.inFlight.value.step, true) == e.inFlight.value.reasoning)
    && (forall i :: 0 <= i < |e.rows| && e.rows[i].AssistantRow? ==>
          && BytesOf(items, e.rows[i].step, true) == e.rows[i].reasoning
          && BytesOf(items, e.rows[i].step, false) == e.rows[i].text + (if i < loaded then e.rows[i].note else ""))
    && (forall step: nat, r: bool :: step >= e.nextStep ==> BytesOf(items, step, r) == "")
  }

  function NumBacked(log: seq<Told>): nat {
    if log == [] then 0 else NumBacked(log[..|log| - 1]) + (if log[|log| - 1].backed then 1 else 0)
  }

  /** Prompts shown exactly once each and in order; the results that show are
      those the books tell, and of these one per stored result is backed. */
  ghost predicate RowsAgree(items: seq<Item>, e: Engine, log: seq<Told>) {
    Prompts(items) == Prompts(RowsItems(e.rows)) && Log(items) == log && NumBacked(log) == |Log(RowsItems(e.rows))|
  }

  lemma {:induction false} BackedPush(log: seq<Told>, t: Told)
    ensures NumBacked(log + [t]) == NumBacked(log) + (if t.backed then 1 else 0)
  {
    assert (log + [t])[..|log|] == log;
  }

  lemma {:induction false} AllBacked(log: seq<Told>)
    ensures NumBacked(log) <= |log|
    ensures NumBacked(log) == |log| <==> forall k :: 0 <= k < |log| ==> log[k].backed
    decreases |log|
  {
    if log != [] {
      var n := |log| - 1;
      AllBacked(log[..n]);
      assert forall k :: 0 <= k < n ==> log[..n][k] == log[k];
    }
  }

  lemma {:induction false} BackedKept(log: seq<Told>, k: nat, out: string)
    requires k < |log|
    ensures NumBacked(log[k := log[k].(output := out)]) == NumBacked(log)
    decreases |log|
  {
    var n := |log| - 1;
    var log' := log[k := log[k].(output := out)];
    if k < n {
      BackedKept(log[..n], k, out);
      assert log'[..n] == log[..n][k := log[k].(output := out)];
    } else {
      assert log'[..n] == log[..n];
    }
  }

  ghost predicate InSync(w: Window, e: Engine) {
    && w.rowGen <= e.rowGen
    && (w.stepId.Some? ==> w.stepId.value < e.nextStep)
    && (e.inFlight.Some? ==>
          && w.stepId == Some(e.inFlight.value.step)
          && w.textFloor <= |e.inFlight.value.text|
          && w.reasoningFloor <= |e.inFlight.value.reasoning|)
  }

  ghost predicate Agree(w: Window, e: Engine, since: Since) {
    && InSync(w, e) && since.rows <= |e.rows|
    && BytesAgree(w.items, e, since.rows) && RowsAgree(w.items, e, since.log)
  }

  function Open(e: Engine): seq<Call> {
    (if e.running.Some? then [e.running.value] else []) + e.waiting
  }

  function SinceLoad(e: Engine): Since {
    Since(e, |e.rows|, |Open(e)|, Log(RowsItems(e.rows)), false, false, false, false)
  }

  /** The newest result of a call in the books, or -1. */
  function NewestTold(log: seq<Told>, callId: string): (r: int)
    ensures -1 <= r < |log|
    ensures r >= 0 ==> log[r].callId == callId
    ensures forall k :: 0 <= k < |log| && k > r ==> log[k].callId != callId
  {
    if log == [] then -1
    else if log[|log| - 1].callId == callId then |log| - 1 else NewestTold(log[..|log| - 1], callId)
  }

  /** The results that show after an answer. */
  function Retold(log: seq<Told>, callId: string, output: string): seq<Told> {
    var i := NewestTold(log, callId);
    if callId != "" && i >= 0 then log[i := log[i].(output := output)] else log + [Told(false, callId, output)]
  }

  /** What an action, told as it is, adds to the books. */
  function Later(since: Since, e: Engine, a: Action): Since
    requires Allowed(e, a)
  {
    match a
    case Drop(c, error) => since.(log := since.log + [Told(false, c, error)])
    case Finish(out) => since.(log := since.log + [Told(true, e.running.value.id, out)])
    case Reason(d) => since.(mixed := since.mixed || (d != "" && e.inFlight.value.text != ""))
    case Abort => since.(stray := since.stray || e.inFlight.value.text != "" || e.inFlight.value.reasoning != "")
    case _ => since
  }

  function StepOf(e: Engine): Option<nat> {
    if e.inFlight.Some? then Some(e.inFlight.value.step) else None
  }

  /** The step streams or is stored, so a load already shows its bytes. */
  predicate Kept(e: Engine, step: nat) {
    StepOf(e) == Some(step) || exists i :: 0 <= i < |e.rows| && e.rows[i].AssistantRow? && e.rows[i].step == step
  }

  // ---- The load ----

  lemma {:induction false} NoRowsNoBytes(step: nat, r: bool)
    ensures BytesOf(RowsItems([]), step, r) == ""
  {
  }

  lemma {:induction false} RowsBytes(e: Engine, rows: seq<Row>, step: nat, r: bool)
    requires EngineOk(e) && rows <= e.rows
    ensures forall i :: 0 <= i < |rows| && rows[i].AssistantRow? && rows[i].step == step ==>
              BytesOf(RowsItems(rows), step, r) == if r then rows[i].reasoning else rows[i].text + rows[i].note
    ensures (forall i :: 0 <= i < |rows| && rows[i].AssistantRow? ==> rows[i].step != step) ==>
              BytesOf(RowsItems(rows), step, r) == ""
    decreases |rows|
  {
    hide BytesOf, RowsItems, Prompts, Calls, Log;
    if rows == [] {
      NoRowsNoBytes(step, r);
    } else {
      var n := |rows| - 1;
      RowsBytes(e, rows[..n], step, r);
      assert rows == rows[..n] + [rows[n]];
      RowsPush(rows[..n], rows[n], step, r);
    }
  }

  lemma {:induction false} LoadBytes(e: Engine, step: nat, r: bool)
    requires EngineOk(e)
    ensures var shown := BytesOf(Loaded(e).items, step, r);
            && (e.inFlight.Some? && e.inFlight.value.step == step ==>
                  shown == if r then e.inFlight.value.reasoning else e.inFlight.value.text)
            && (!(e.inFlight.Some? && e.inFlight.value.step == step) ==> shown == BytesOf(RowsItems(e.rows), step, r))
  {
    RowsBytes(e, e.rows, step, r);
    BytesOfJoin(RowsItems(e.rows), StreamItems(e.inFlight), step, r);
    if e.inFlight.Some? {
      var f := e.inFlight.value;
      AddedBytes([], f.step, true, f.reasoning, step, r);
      AddedBytes(AddBytes([], f.step, true, f.reasoning), f.step, false, f.text, step, r);
    }
  }

  lemma {:induction false} LoadBytesAgree(e: Engine)
    requires EngineOk(e)
    ensures BytesAgree(Loaded(e).items, e, |e.rows|)
  {
    hide BytesOf, RowsItems, StreamItems;
    var items := Loaded(e).items;
    forall step: nat, r: bool ensures
      (step >= e.nextStep ==> BytesOf(items, step, r) == "")
      && (e.inFlight.Some? && e.inFlight.value.step == step ==>
            BytesOf(items, step, r) == if r then e.inFlight.value.reasoning else e.inFlight.value.text)
      && (forall i :: 0 <= i < |e.rows| && e.rows[i].AssistantRow? && e.rows[i].step == step ==>
            BytesOf(items, step, r) == if r then e.rows[i].reasoning else e.rows[i].text + e.rows[i].note)
    {
      LoadBytes(e, step, r);
      RowsBytes(e, e.rows, step, r);
    }
  }

  /** In a load a row stands behind every result. */
  lemma {:induction false} RowsBacked(rows: seq<Row>)
    ensures forall k :: 0 <= k < |Log(RowsItems(rows))| ==> Log(RowsItems(rows))[k].backed
    decreases |rows|
  {
    hide Log, RowItems;
    if rows == [] {
      NothingShows(0, true);
    } else {
      var n := |rows| - 1;
      RowsBacked(rows[..n]);
      assert rows == rows[..n] + [rows[n]];
      RowsPush(rows[..n], rows[n], 0, true);
    }
  }

  lemma {:induction false} LoadRowsAgree(e: Engine)
    requires EngineOk(e)
    ensures RowsAgree(Loaded(e).items, e, Log(RowsItems(e.rows)))
  {
    hide Prompts, Calls, Log, RowsItems, AddBytes;
    ListsJoin(RowsItems(e.rows), StreamItems(e.inFlight));
    NothingShows(0, true);
    RowsBacked(e.rows);
    AllBacked(Log(RowsItems(e.rows)));
    if e.inFlight.Some? {
      var f := e.inFlight.value;
      ReplyShows(f.step, f.reasoning, f.text, 0, true);
    }
  }

  /** A load shows every stored and every streamed byte once, and each row. */
  lemma {:induction false} LoadAgrees(e: Engine)
    requires EngineOk(e)
    ensures Agree(Loaded(e), e, SinceLoad(e))
  {
    hide BytesAgree, RowsAgree, EngineOk;
    LoadBytesAgree(e);
    LoadRowsAgree(e);
    LoadInSync(e);
  }

  lemma {:induction false} LoadInSync(e: Engine)
    requires EngineOk(e)
    ensures InSync(Loaded(e), e)
  {
  }

  /** Of what was recorded before a load, the loaded window ignores everything
      but the start of another step and the result of a dropped call. */
  lemma {:induction false} LoadedIgnores(e: Engine, ev: Event)
    requires Recorded(e, ev)
    ensures Handle(Loaded(e), ev) == Loaded(e)
            <==> !(ev.StepStarted? && !(e.inFlight.Some? && e.inFlight.value.step == ev.step))
                 && !(ev.ToolResult? && ev.gen == 0)
  {
    if ev.ToolResult? && ev.gen == 0 {
      assert |Handle(Loaded(e), ev).items| == |Loaded(e).items| + 1;
    }
  }

  // ---- Every engine action, seen at once ----

  lemma {:induction false} FollowBegin(w: Window, e: Engine, a: Action, since: Since)
    requires EngineOk(e) && Agree(w, e, since) && Allowed(e, a) && (a.Begin? || a.Again? || a.Abort?)
    ensures Agree(Follow(w, e, a), Act(e, a).0, since)
  {
    hide BytesOf, RowsItems, Prompts, Calls, Log;
    var w', e' := Follow(w, e, a), Act(e, a).0;
    assert w'.items == w.items && w'.rowGen == w.rowGen && e'.rows == e.rows;
    if a.Begin? {
      assert BytesOf(w.items, e.nextStep, false) == "" && BytesOf(w.items, e.nextStep, true) == "";
    }
  }

  lemma {:induction false} FollowStop(w: Window, e: Engine, a: Action, since: Since)
    requires EngineOk(e) && Agree(w, e, since) && Allowed(e, a) && a.Stop?
    ensures Agree(Follow(w, e, a), Act(e, a).0, since)
  {
    hide BytesOf, RowsItems, Prompts, Calls, Log;
    RowsPush(e.rows, LeftRow, 0, true);
    assert Prompts(RowsItems(e.rows)) + [] == Prompts(RowsItems(e.rows));
  }

  lemma {:induction false} DeltaShows(items: seq<Item>, p: nat, kind: bool, d: string)
    ensures var after := AddBytes(items, p, kind, d);
            && (forall step: nat, r: bool :: BytesOf(after, step, r)
                  == if step == p && r == kind then BytesOf(items, step, r) + d else BytesOf(items, step, r))
            && Prompts(after) == Prompts(items) && Calls(after) == Calls(items) && Log(after) == Log(items)
  {
    hide BytesOf, Prompts, Calls, Log, AddBytes;
    forall step: nat, r: bool
      ensures BytesOf(AddBytes(items, p, kind, d), step, r)
              == if step == p && r == kind then BytesOf(items, step, r) + d else BytesOf(items, step, r)
    {
      AddedBytes(items, p, kind, d, step, r);
      assert BytesOf(items, step, r) + "" == BytesOf(items, step, r);
    }
    AddedBytes(items, p, kind, d, 0, true);
  }

  lemma {:induction false} FollowDelta(w: Window, e: Engine, a: Action, since: Since)
    requires EngineOk(e) && Agree(w, e, since) && Allowed(e, a) && (a.Text? || a.Reason?)
    ensures Agree(Follow(w, e, a), Act(e, a).0, since)
  {
    hide BytesOf, RowsItems, Prompts, Calls, Log, AddBytes;
    DeltaShows(w.items, e.inFlight.value.step, a.Reason?, a.delta);
  }

  lemma {:induction false} FollowPersist(w: Window, e: Engine, a: Action, since: Since)
    requires EngineOk(e) && Agree(w, e, since) && Allowed(e, a) && a.Persist?
    ensures Agree(Follow(w, e, a), Act(e, a).0, since)
  {
    hide BytesOf, RowsItems, Prompts, Calls, Log;
    var f := e.inFlight.value;
    RowsPush(e.rows, AssistantRow(f.step, f.reasoning, f.text, a.note, a.calls), 0, true);
    assert f.text + "" == f.text;
  }

  /** One more item that is no bytes. */
  lemma {:induction false} ItemKeepsBytes(items: seq<Item>, it: Item)
    requires !it.Bytes?
    ensures forall step: nat, r: bool :: BytesOf(items + [it], step, r) == BytesOf(items, step, r)
  {
    hide BytesOf;
    forall step: nat, r: bool ensures BytesOf(items + [it], step, r) == BytesOf(items, step, r) {
      OneItem(items, it, step, r);
      assert BytesOf(items, step, r) + "" == BytesOf(items, step, r);
    }
  }

  lemma {:induction false} FollowPrompt(w: Window, e: Engine, a: Action, since: Since)
    requires EngineOk(e) && Agree(w, e, since) && Allowed(e, a) && a.Prompt?
    ensures Agree(Follow(w, e, a), Act(e, a).0, since)
  {
    hide BytesOf, RowsItems, Prompts, Calls, Log;
    RowsPush(e.rows, PromptRow(a.text), 0, true);
    ItemKeepsBytes(w.items, PromptItem(a.text));
    OneItem(w.items, PromptItem(a.text), 0, true);
  }

  lemma {:induction false} FollowFinish(w: Window, e: Engine, a: Action, since: Since)
    requires EngineOk(e) && Agree(w, e, since) && Allowed(e, a) && a.Finish?
    ensures Agree(Follow(w, e, a), Act(e, a).0, Later(since, e, a))
  {
    hide BytesOf, RowsItems, Prompts, Calls, Log;
    var c := e.running.value.id;
    RowsPush(e.rows, ResultRow(c, a.output), 0, true);
    ItemKeepsBytes(w.items, ResultItem(c, a.output));
    OneItem(w.items, ResultItem(c, a.output), 0, true);
    BackedPush(since.log, Told(true, c, a.output));
  }

  lemma {:induction false} FollowAnnounce(w: Window, e: Engine, a: Action, since: Since)
    requires EngineOk(e) && Agree(w, e, since) && Allowed(e, a) && a.Announce?
    ensures Agree(Follow(w, e, a), Act(e, a).0, since)
  {
    hide BytesOf, RowsItems, Prompts, Calls, Log;
    ItemKeepsBytes(w.items, CallItem(e.waiting[0].text));
    OneItem(w.items, CallItem(e.waiting[0].text), 0, true);
  }

  lemma {:induction false} FollowDrop(w: Window, e: Engine, a: Action, since: Since)
    requires EngineOk(e) && Agree(w, e, since) && Allowed(e, a) && a.Drop?
    ensures Agree(Follow(w, e, a), Act(e, a).0, Later(since, e, a))
  {
    hide BytesOf, RowsItems, Prompts, Calls, Log;
    ItemKeepsBytes(w.items, ExtraItem(a.callId, a.error));
    OneItem(w.items, ExtraItem(a.callId, a.error), 0, true);
    BackedPush(since.log, Told(false, a.callId, a.error));
  }

  /** The window at the event of an action told as it is. Answers are told
      apart: whose result they rewrite depends on what shows. */
  lemma {:induction false} FollowAgrees(w: Window, e: Engine, a: Action, since: Since)
    requires EngineOk(e) && Agree(w, e, since) && Allowed(e, a) && !a.CutTail? && !a.Answer?
    ensures Agree(Follow(w, e, a), Act(e, a).0, Later(since, e, a))
  {
    hide Agree, EngineOk;
    NotLoaded(w, e, since);
    if a.Text? || a.Reason? {
      FollowDelta(w, e, a, since);
    } else if a.Persist? {
      FollowPersist(w, e, a, since);
    } else if a.Drop? {
      FollowDrop(w, e, a, since);
    } else if a.Announce? {
      FollowAnnounce(w, e, a, since);
    } else if a.Finish? {
      FollowFinish(w, e, a, since);
    } else if a.Prompt? {
      FollowPrompt(w, e, a, since);
    } else if a.Stop? {
      FollowStop(w, e, a, since);
    } else {
      FollowBegin(w, e, a, since);
    }
    if a.Reason? || a.Abort? {
      SameBooks(Follow(w, e, a), Act(e, a).0, since, Later(since, e, a));
    }
  }

  lemma {:induction false} SameBooks(w: Window, e: Engine, since: Since, since': Since)
    requires since'.rows == since.rows && since'.log == since.log
    ensures Agree(w, e, since) <==> Agree(w, e, since')
  {
    hide BytesAgree, InSync, Prompts, Log, RowsItems, NumBacked;
  }

  lemma {:induction false} NotLoaded(w: Window, e: Engine, since: Since)
    requires Agree(w, e, since)
    ensures !AlreadyLoaded(w, e.rowGen + 1)
  {
  }

  // ---- Answers ----

  lemma {:induction false} NewestNext(items: seq<Item>, it: Item, c: string)
    ensures NewestShown(items + [it], c) == if IsResult(it) && it.callId == c then |items| else NewestShown(items, c)
  {
    assert (items + [it])[..|items|] == items;
  }

  /** The newest result of a call on screen is the newest in the books. */
  lemma {:induction false} NewestLogged(items: seq<Item>, c: string)
    ensures NewestShown(items, c) >= 0 <==> NewestTold(Log(items), c) >= 0
    ensures NewestShown(items, c) >= 0 ==> NewestTold(Log(items), c) == |Log(items[..NewestShown(items, c)])|
    decreases |items|
  {
    hide Log;
    if items == [] {
      NothingShows(0, true);
    } else {
      var n := |items| - 1;
      assert items == items[..n] + [items[n]];
      OneItem(items[..n], items[n], 0, true);
      NewestNext(items[..n], items[n], c);
      var log := Log(items[..n]);
      if IsResult(items[n]) {
        assert (log + ToldOf(items[n]))[..|log|] == log;
      } else {
        assert log + [] == log;
      }
      NewestLogged(items[..n], c);
      if NewestShown(items[..n], c) >= 0 {
        assert items[..n][..NewestShown(items[..n], c)] == items[..NewestShown(items[..n], c)];
      }
    }
  }

  /** Rewriting a result changes the books there and nothing else. */
  lemma {:induction false} RewrittenItem(items: seq<Item>, i: nat, out: string, step: nat, r: bool)
    requires i < |items| && IsResult(items[i])
    ensures var items' := items[i := items[i].(output := out)];
            var k := |Log(items[..i])|;
            && BytesOf(items', step, r) == BytesOf(items, step, r)
            && Prompts(items') == Prompts(items) && Calls(items') == Calls(items)
            && k < |Log(items)| && Log(items') == Log(items)[k := Log(items)[k].(output := out)]
    decreases |items|
  {
    hide BytesOf, Prompts, Calls, Log;
    var n := |items| - 1;
    var it := items[i].(output := out);
    var items' := items[i := it];
    assert items == items[..n] + [items[n]];
    OneItem(items[..n], items[n], step, r);
    if i < n {
      RewrittenItem(items[..n], i, out, step, r);
      assert items' == items[..n][i := it] + [items[n]];
      OneItem(items[..n][i := it], items[n], step, r);
      assert items[..n][..i] == items[..i];
    } else {
      assert items' == items[..n] + [it];
      OneItem(items[..n], it, step, r);
    }
  }

  lemma {:induction false} ShownTold(items: seq<Item>, gen: nat, c: string, out: string)
    ensures var items' := ShowResult(items, gen, c, out, true);
            && Log(items') == Retold(Log(items), c, out)
            && Prompts(items') == Prompts(items) && Calls(items') == Calls(items)
            && forall step: nat, r: bool :: BytesOf(items', step, r) == BytesOf(items, step, r)
  {
    hide BytesOf, Prompts, Calls, Log, NewestShown;
    NewestLogged(items, c);
    var i := NewestShown(items, c);
    if c != "" && i >= 0 {
      forall step: nat, r: bool ensures BytesOf(items[i := items[i].(output := out)], step, r) == BytesOf(items, step, r) {
        RewrittenItem(items, i, out, step, r);
      }
      RewrittenItem(items, i, out, 0, true);
    } else {
      ItemKeepsBytes(items, ExtraItem(c, out));
      OneItem(items, ExtraItem(c, out), 0, true);
    }
  }

  lemma {:induction false} RetoldBacked(log: seq<Told>, c: string, out: string)
    ensures NumBacked(Retold(log, c, out)) == NumBacked(log)
  {
    var i := NewestTold(log, c);
    if c != "" && i >= 0 {
      BackedKept(log, i, out);
    } else {
      BackedPush(log, Told(false, c, out));
    }
  }

  /** An answer: to the engine as told nothing but a new generation. */
  function Answered(e: Engine): Engine {
    e.(rowGen := e.rowGen + 1, asking := false)
  }

  lemma {:induction false} AnswerAgrees(w: Window, e: Engine, since: Since, c: string, out: string)
    requires Agree(w, e, since)
    ensures Agree(Handle(w, ToolResult(e.rowGen + 1, c, out, true)), Answered(e), since.(log := Retold(since.log, c, out)))
  {
    hide BytesOf, Prompts, Calls, Log, RowsItems, ShowResult, Retold;
    ShownTold(w.items, e.rowGen + 1, c, out);
    RetoldBacked(since.log, c, out);
  }
}
