/** Messages published before a load and handled after it: exactly when they
    do no harm. */
module StreamStale {
  import opened Wrappers
  import opened StreamEngine
  import opened StreamWindow
  import opened StreamReplay
  import opened StreamOrder
  import opened StreamLook

  ghost predicate Agreed(w: Window, e: Engine, since: Since) {
    Agree(w, e, since) && OrderAgrees(w.items, w.rowGen, e, since) && LookAgrees(w.items, e, since)
  }

  /** The step the messages leave the window at, whether they ever moved it to
      another one, and whether bytes of a kept step, or of one that is neither
      streaming nor stored, came after such a move. */
  datatype Track = Track(step: Option<nat>, moved: bool, repeats: bool, strays: bool)

  function Shown(e: Engine, t: Track, p: nat, d: string): Track {
    if t.moved && t.step == Some(p) && d != "" then
      if Kept(e, p) then t.(repeats := true) else t.(strays := true)
    else t
  }

  function Next(e: Engine, t: Track, ev: Event): Track {
    match ev
    case StepStarted(p) => t.(step := Some(p), moved := t.moved || t.step != Some(p))
    case TextDelta(p, _, d) => Shown(e, t, p, d)
    case ReasoningDelta(p, _, d) => Shown(e, t, p, d)
    case _ => t
  }

  function Tracked(e: Engine, evs: seq<Event>): Track {
    if evs == [] then Track(StepOf(e), false, false, false)
    else Next(e, Tracked(e, evs[..|evs| - 1]), evs[|evs| - 1])
  }

  /** What the events tell of results of dropped calls. */
  function DroppedIn(evs: seq<Event>): seq<Told> {
    if evs == [] then []
    else
      var n := |evs| - 1;
      DroppedIn(evs[..n])
      + (if evs[n].ToolResult? && evs[n].gen == 0 then [Told(false, evs[n].callId, evs[n].output)] else [])
  }

  /** The books at a load with these messages on their way. */
  function SinceAt(e: Engine, evs: seq<Event>): Since {
    SinceLoad(e).(log := Log(RowsItems(e.rows)) + DroppedIn(evs), stray := Tracked(e, evs).strays)
  }

  /** What a load must find on its way: no start of another step followed by
      bytes of a kept step, and no start that leaves the window at a step other
      than the one that streams. */
  predicate Harmless(e: Engine, evs: seq<Event>) {
    var t := Tracked(e, evs);
    !t.repeats && (e.inFlight.Some? ==> t.step == StepOf(e))
  }

  ghost predicate AllRecorded(e: Engine, evs: seq<Event>) {
    forall k :: 0 <= k < |evs| ==> Recorded(e, evs[k])
  }

  /** The loaded window after these messages, compared to the load. */
  ghost predicate StaleOk(w: Window, e: Engine, t: Track) {
    && w.stepId == t.step && w.rowGen == e.rowGen
    && (t.step.Some? ==> t.step.value < e.nextStep)
    && (t.moved ==> w.textFloor == 0 && w.reasoningFloor == 0)
    && (!t.moved ==> w.textFloor == Loaded(e).textFloor && w.reasoningFloor == Loaded(e).reasoningFloor
                     && t.step == StepOf(e))
  }

  /** What one message adds to the window: nothing, bytes, or the result of a
      dropped call. */
  ghost predicate Adds(items: seq<Item>, items': seq<Item>, t: Track, ev: Event) {
    if (ev.TextDelta? || ev.ReasoningDelta?) && t.moved && t.step == Some(ev.step) && ev.delta != "" then
      items' == AddBytes(items, ev.step, ev.ReasoningDelta?, ev.delta)
    else if ev.ToolResult? && ev.gen == 0 then items' == items + [ExtraItem(ev.callId, ev.output)]
    else items' == items
  }

  lemma {:induction false} StepStale(w: Window, e: Engine, t: Track, ev: Event)
    requires EngineOk(e) && Recorded(e, ev) && StaleOk(w, e, t)
    ensures StaleOk(Handle(w, ev), e, Next(e, t, ev)) && Adds(w.items, Handle(w, ev).items, t, ev)
  {
    hide Kept, NewestShown;
  }

  /** What the loaded window shows besides, after these messages. */
  ghost predicate ExtraRows(items: seq<Item>, e: Engine, dropped: seq<Told>) {
    var was := Loaded(e).items;
    && Prompts(items) == Prompts(was) && Calls(items) == Calls(was) && Entries(items) == Entries(was)
    && Log(items) == Log(was) + dropped && NumBacked(dropped) == 0
  }

  ghost predicate ExtraBytes(items: seq<Item>, e: Engine, t: Track) {
    var was := Loaded(e).items;
    && (forall step: nat, r: bool :: step >= e.nextStep ==> BytesOf(items, step, r) == "")
    && (forall step: nat, r: bool :: BytesOf(was, step, r) <= BytesOf(items, step, r))
    && (!t.repeats ==> forall step: nat, r: bool :: Kept(e, step) ==> BytesOf(items, step, r) == BytesOf(was, step, r))
    && (t.repeats ==> exists step: nat, r: bool :: Kept(e, step) && BytesOf(items, step, r) != BytesOf(was, step, r))
    && (!t.strays ==> forall step: nat, r: bool :: !Kept(e, step) ==> BytesOf(items, step, r) == "")
    && (t.strays ==> exists step: nat, r: bool :: !Kept(e, step) && BytesOf(items, step, r) != "")
  }

  ghost predicate ExtraOnly(items: seq<Item>, e: Engine, t: Track, dropped: seq<Told>) {
    && ExtraRows(items, e, dropped) && ExtraBytes(items, e, t)
    && (!t.repeats && !t.strays ==> Plain(items) == Plain(Loaded(e).items))
  }

  lemma {:induction false} MoreBytes(items: seq<Item>, e: Engine, t: Track, p: nat, kind: bool, d: string)
    requires ExtraBytes(items, e, t) && d != "" && p < e.nextStep && t.moved && t.step == Some(p)
    ensures ExtraBytes(AddBytes(items, p, kind, d), e, Shown(e, t, p, d))
  {
    hide BytesOf, AddBytes, Kept, Loaded;
    DeltaShows(items, p, kind, d);
    var was := Loaded(e).items;
    var items' := AddBytes(items, p, kind, d);
    forall step: nat, r: bool ensures BytesOf(was, step, r) <= BytesOf(items', step, r) {
      assert BytesOf(was, step, r) <= BytesOf(items, step, r);
    }
    if t.repeats {
      var step: nat, r: bool :| Kept(e, step) && BytesOf(items, step, r) != BytesOf(was, step, r);
      assert BytesOf(items', step, r) != BytesOf(was, step, r);
    } else if Kept(e, p) {
      assert BytesOf(items, p, kind) == BytesOf(was, p, kind);
      assert BytesOf(items', p, kind) != BytesOf(was, p, kind);
    }
    if t.strays {
      var step: nat, r: bool :| !Kept(e, step) && BytesOf(items, step, r) != "";
      assert BytesOf(items', step, r) != "";
    } else if !Kept(e, p) {
      assert BytesOf(items', p, kind) != "";
    }
  }

  /** Bytes change no entry. */
  lemma {:induction false} BytesOnly(items: seq<Item>, e: Engine, p: nat, kind: bool, d: string, dropped: seq<Told>)
    requires ExtraRows(items, e, dropped)
    ensures ExtraRows(AddBytes(items, p, kind, d), e, dropped)
  {
    hide BytesOf, Prompts, Calls, Log, Entries, Loaded, AddBytes, NumBacked;
    DeltaShows(items, p, kind, d);
    EntriesBytes(items, p, kind, d);
  }

  /** A dropped call's result adds no bytes and no entry. */
  lemma {:induction false} DroppedOnly(items: seq<Item>, e: Engine, t: Track, ev: Event, dropped: seq<Told>)
    requires ExtraOnly(items, e, t, dropped) && ev.ToolResult? && ev.gen == 0
    ensures ExtraOnly(items + [ExtraItem(ev.callId, ev.output)], e, Next(e, t, ev),
                      dropped + [Told(false, ev.callId, ev.output)])
  {
    hide BytesOf, Prompts, Calls, Log, Entries, Kept, Loaded, NumBacked;
    var it := ExtraItem(ev.callId, ev.output);
    ItemKeepsBytes(items, it);
    OneItem(items, it, 0, true);
    EntriesPush(items, it);
    BackedPush(dropped, Told(false, ev.callId, ev.output));
    assert Entries(items) + [] == Entries(items);
    assert (Log(Loaded(e).items) + dropped) + ToldOf(it) == Log(Loaded(e).items) + (dropped + ToldOf(it));
  }

  lemma {:induction false} LoadExtra(e: Engine)
    requires EngineOk(e)
    ensures ExtraOnly(Loaded(e).items, e, Tracked(e, []), [])
  {
    hide BytesOf, Prompts, Calls, Log, Entries, RowsItems, StreamItems, Loaded;
    LoadBytesAgree(e);
    LoadRowsAgree(e);
    assert Log(Loaded(e).items) + [] == Log(Loaded(e).items);
    forall step: nat, r: bool | !Kept(e, step) ensures BytesOf(Loaded(e).items, step, r) == "" {
      LoadBytes(e, step, r);
      RowsBytes(e, e.rows, step, r);
    }
  }

  lemma {:induction false} OneStale(w: Window, e: Engine, t: Track, ev: Event, dropped: seq<Told>)
    requires EngineOk(e) && Recorded(e, ev) && StaleOk(w, e, t) && ExtraOnly(w.items, e, t, dropped)
    ensures StaleOk(Handle(w, ev), e, Next(e, t, ev))
    ensures ExtraOnly(Handle(w, ev).items, e, Next(e, t, ev),
                      dropped + (if ev.ToolResult? && ev.gen == 0 then [Told(false, ev.callId, ev.output)] else []))
  {
    hide ExtraRows, ExtraBytes, EngineOk, StaleOk, AddBytes, Kept, Handle;
    StepStale(w, e, t, ev);
    StepBound(w, e, t);
    assert dropped + [] == dropped;
    if ev.ToolResult? && ev.gen == 0 {
      DroppedOnly(w.items, e, t, ev, dropped);
    } else if (ev.TextDelta? || ev.ReasoningDelta?) && t.moved && t.step == Some(ev.step) && ev.delta != "" {
      MoreBytes(w.items, e, t, ev.step, ev.ReasoningDelta?, ev.delta);
      BytesOnly(w.items, e, ev.step, ev.ReasoningDelta?, ev.delta, dropped);
    } else {
      SameExtra(w.items, e, t, Next(e, t, ev));
    }
  }

  lemma {:induction false} StepBound(w: Window, e: Engine, t: Track)
    requires StaleOk(w, e, t)
    ensures t.step.Some? ==> t.step.value < e.nextStep
  {
  }

  lemma {:induction false} SameExtra(items: seq<Item>, e: Engine, t: Track, t': Track)
    requires ExtraBytes(items, e, t) && t'.repeats == t.repeats && t'.strays == t.strays
    ensures ExtraBytes(items, e, t')
  {
    hide BytesOf, Kept, Loaded;
  }

  /** Exactly what these messages change in a loaded window. */
  lemma {:induction false} HandleStale(e: Engine, evs: seq<Event>)
    requires EngineOk(e) && AllRecorded(e, evs)
    ensures StaleOk(HandleAll(Loaded(e), evs), e, Tracked(e, evs))
    ensures ExtraOnly(HandleAll(Loaded(e), evs).items, e, Tracked(e, evs), DroppedIn(evs))
    decreases |evs|
  {
    hide ExtraOnly, Kept, RowsItems, StreamItems, Next;
    if evs == [] {
      LoadExtra(e);
    } else {
      var n := |evs| - 1;
      HandleStale(e, evs[..n]);
      OneStale(HandleAll(Loaded(e), evs[..n]), e, Tracked(e, evs[..n]), evs[n], DroppedIn(evs[..n]));
    }
  }

  /** Bytes agree after the messages exactly when they repeat nothing. */
  lemma {:induction false} BytesExact(items: seq<Item>, e: Engine, t: Track)
    requires EngineOk(e) && ExtraBytes(items, e, t)
    ensures BytesAgree(items, e, |e.rows|) <==> !t.repeats
  {
    hide BytesOf, RowsItems, Loaded;
    LoadBytesAgree(e);
    var was := Loaded(e).items;
    if t.repeats {
      var step: nat, r: bool :| Kept(e, step) && BytesOf(items, step, r) != BytesOf(was, step, r);
    }
  }

  lemma {:induction false} BackedJoin(a: seq<Told>, b: seq<Told>)
    ensures NumBacked(a + b) == NumBacked(a) + NumBacked(b)
    decreases |b|
  {
    if b == [] {
      assert a + b == a;
    } else {
      var n := |b| - 1;
      assert (a + b)[..|a| + n] == a + b[..n];
      BackedJoin(a, b[..n]);
    }
  }

  lemma {:induction false} SameRows(items: seq<Item>, e: Engine, dropped: seq<Told>)
    requires ExtraRows(items, e, dropped) && RowsAgree(Loaded(e).items, e, Log(RowsItems(e.rows)))
    ensures RowsAgree(items, e, Log(RowsItems(e.rows)) + dropped)
  {
    hide Loaded, Prompts, Calls, Log, Entries, NumBacked, RowsItems;
    BackedJoin(Log(RowsItems(e.rows)), dropped);
  }

  lemma {:induction false} SameOrder(items: seq<Item>, e: Engine, dropped: seq<Told>, since: Since)
    requires ExtraRows(items, e, dropped) && OrderAgrees(Loaded(e).items, e.rowGen, e, SinceLoad(e))
    requires since.rows == |e.rows| && since.quiet == |Open(e)|
    ensures OrderAgrees(items, e.rowGen, e, since)
  {
    hide Entries, LiveFold, Stored, Loaded, Log, RowsItems, Prompts, Calls, NumBacked;
  }

  lemma {:induction false} StaleLook(items: seq<Item>, e: Engine, t: Track, dropped: seq<Told>, since: Since)
    requires EngineOk(e) && ExtraOnly(items, e, t, dropped) && !t.repeats
    requires since.rows == |e.rows| && since.quiet == |Open(e)| && !since.mixed && since.stray == t.strays
    requires !t.strays ==> Plain(items) == Plain(Loaded(e).items)
    ensures LookAgrees(items, e, since)
  {
    hide BytesOf, Kept, Plain, LiveLook, LiveFold, StoredLook, Loaded, OpenLook, RunningLook, ExtraRows, EngineOk, Late, Log,
      RowsItems;
    LoadLookAgrees(e);
  }

  /** After a load and the messages that were on their way, the window agrees
      with the engine if and only if those messages were harmless. */
  lemma {:induction false} LoadExact(e: Engine, evs: seq<Event>)
    requires EngineOk(e) && AllRecorded(e, evs)
    ensures Agreed(HandleAll(Loaded(e), evs), e, SinceAt(e, evs)) <==> Harmless(e, evs)
  {
    hide BytesAgree, RowsAgree, OrderAgrees, LookAgrees, ExtraRows, ExtraBytes, EngineOk, AllRecorded, HandleAll, Tracked,
      DroppedIn, Log, RowsItems, Plain;
    HandleStale(e, evs);
    var w, t, since := HandleAll(Loaded(e), evs), Tracked(e, evs), SinceAt(e, evs);
    BytesExact(w.items, e, t);
    LoadRowsAgree(e);
    SameRows(w.items, e, DroppedIn(evs));
    OrderLoad(e);
    SameOrder(w.items, e, DroppedIn(evs), since);
    if !t.repeats {
      StaleLook(w.items, e, t, DroppedIn(evs), since);
    }
  }

  /** And bytes show of a step that neither streams nor is stored, as one a
      retry cut off, if and only if a start that moves the window to such a
      step is followed by bytes of it. */
  lemma {:induction false} NoStraysExact(e: Engine, evs: seq<Event>)
    requires EngineOk(e) && AllRecorded(e, evs)
    ensures (exists step: nat, r: bool :: !Kept(e, step) && BytesOf(HandleAll(Loaded(e), evs).items, step, r) != "")
            <==> Tracked(e, evs).strays
  {
    hide ExtraBytes, BytesOf, Kept, Tracked, HandleAll, EngineOk, AllRecorded;
    HandleStale(e, evs);
    StraysExact(HandleAll(Loaded(e), evs).items, e, Tracked(e, evs));
  }

  lemma {:induction false} StraysExact(items: seq<Item>, e: Engine, t: Track)
    requires ExtraBytes(items, e, t)
    ensures (exists step: nat, r: bool :: !Kept(e, step) && BytesOf(items, step, r) != "") <==> t.strays
  {
    hide BytesOf, Kept, Loaded;
    if t.strays {
      assert exists step: nat, r: bool :: !Kept(e, step) && BytesOf(items, step, r) != "";
    } else {
      assert forall step: nat, r: bool :: !Kept(e, step) ==> BytesOf(items, step, r) == "";
    }
  }

  /** Messages that start no step but the one streaming are harmless. */
  lemma {:induction false} OneStepHarmless(e: Engine, evs: seq<Event>)
    requires forall k :: 0 <= k < |evs| && evs[k].StepStarted? ==> Some(evs[k].step) == StepOf(e)
    ensures Tracked(e, evs) == Track(StepOf(e), false, false, false) && Harmless(e, evs)
    decreases |evs|
  {
    hide Kept;
    if evs != [] {
      OneStepHarmless(e, evs[..|evs| - 1]);
    }
  }

  // ---- What harm looks like ----

  /** A reply stored after its deltas were published and before the load: they
      arrive after a start of their step, and its text shows twice. */
  lemma {:induction false} StoredReplyRepeats(text: string)
    requires text != ""
    ensures var e1 := Act(IDLE, Begin);
            var e2 := Act(e1.0, Text(text));
            var e := Act(e2.0, Persist("", [])).0;
            && AllRecorded(e, [e1.1.value, e2.1.value]) && !Harmless(e, [e1.1.value, e2.1.value])
            && BytesOf(HandleAll(Loaded(e), [e1.1.value, e2.1.value]).items, 0, false) == text + text
  {
    hide BytesOf, HandleAll, Tracked, Harmless, Handle, Loaded;
    var row := AssistantRow(0, "", text, "", []);
    var e := Engine([row], None, 1, 1, [], None, false, 1);
    assert "" + text == text;
    assert [] + [row] == [row];
    assert Act(Act(Act(IDLE, Begin).0, Text(text)).0, Persist("", [])).0 == e;
    RepeatTracked(e, text);
    RepeatShows(e, row, text);
  }

  lemma {:induction false} RepeatShows(e: Engine, row: Row, text: string)
    requires text != "" && row == AssistantRow(0, "", text, "", []) && e == Engine([row], None, 1, 1, [], None, false, 1)
    ensures BytesOf(HandleAll(Loaded(e), [StepStarted(0), TextDelta(0, 0, text)]).items, 0, false) == text + text
  {
    hide BytesOf, HandleAll, RowsItems, AddBytes, Prompts, Calls, Log, RowItems;
    var start, delta := StepStarted(0), TextDelta(0, 0, text);
    HandleAllPush(Loaded(e), [], start);
    HandleAllPush(Loaded(e), [start], delta);
    assert [] + [start] == [start] && [start] + [delta] == [start, delta];
    NothingHandled(Loaded(e));
    RowsPush([], row, 0, false);
    NoRowsNoBytes(0, false);
    assert [] + [row] == [row] && text + "" == text && "" + text == text;
    assert RowsItems([row]) + StreamItems(None) == RowsItems([row]);
    AddedBytes(RowsItems([row]), 0, false, text, 0, false);
  }

  lemma {:induction false} NothingHandled(w: Window)
    ensures HandleAll(w, []) == w
  {
  }

  lemma {:induction false} RepeatTracked(e: Engine, text: string)
    requires text != "" && e.inFlight.None? && |e.rows| == 1 && e.rows[0].AssistantRow? && e.rows[0].step == 0
    ensures !Harmless(e, [StepStarted(0), TextDelta(0, 0, text)])
  {
    var start, delta := StepStarted(0), TextDelta(0, 0, text);
    assert [start, delta][..1] == [start] && [start][..0] == [];
    assert Kept(e, 0) by { assert e.rows[0].step == 0; }
    assert Tracked(e, []) == Track(None, false, false, false);
    assert Tracked(e, [start]) == Track(Some(0), true, false, false);
  }

  /** Left at another step, the window loses every further delta of the one
      that streams. */
  lemma {:induction false} LeftStepLoses(e: Engine, evs: seq<Event>, d: string)
    requires EngineOk(e) && AllRecorded(e, evs) && e.inFlight.Some? && Tracked(e, evs).step != StepOf(e)
    ensures Follow(HandleAll(Loaded(e), evs), e, Text(d)) == HandleAll(Loaded(e), evs)
  {
    hide HandleAll, Tracked, ExtraOnly, EngineOk, AllRecorded;
    HandleStale(e, evs);
  }

  /** The start of a stored step is still on its way, that of the streaming one
      was published while another session was shown: its text never shows. */
  lemma {:induction false} LostByte(text: string)
    requires text != ""
    ensures var e1 := Act(IDLE, Begin);
            var e2 := Act(e1.0, Text("a")).0;
            var e := Act(Act(e2, Persist("", [])).0, Begin).0;
            var w := Follow(HandleAll(Loaded(e), [e1.1.value]), e, Text(text));
            && AllRecorded(e, [e1.1.value]) && !Harmless(e, [e1.1.value])
            && Act(e, Text(text)).0.inFlight.value.text == text && BytesOf(w.items, 1, false) == ""
  {
    hide BytesOf;
    var start := StepStarted(0);
    var row := AssistantRow(0, "", "a", "", []);
    var e := Engine([row], Some(Stream(1, "", "")), 1, 1, [], None, false, 2);
    assert "" + "a" == "a" && [] + [row] == [row] && "" + text == text;
    assert Act(Act(Act(Act(IDLE, Begin).0, Text("a")).0, Persist("", [])).0, Begin).0 == e;
    assert [start][..0] == [];
    assert Tracked(e, []) == Track(Some(1), false, false, false);
    assert Tracked(e, [start]).step == Some(0);
    HandleAllPush(Loaded(e), [], start);
    assert [] + [start] == [start];
    RowsPush([], row, 1, false);
    NoRowsNoBytes(1, false);
    assert RowsItems([row]) + StreamItems(e.inFlight) == RowsItems([row]);
  }
}
