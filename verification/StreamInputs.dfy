/** Runs of one session, watched from its start, where the screen and a reload
    come apart, one for each condition under which they agree. */
module StreamInputs {
  import opened Wrappers
  import opened StreamEngine
  import opened StreamWindow
  import opened StreamReplay
  import opened StreamOrder
  import opened StreamStale
  import opened StreamTold

  /** The window and the engine after these actions, each heard of at once. */
  function Watched(w: Window, e: Engine, actions: seq<Action>): Option<(Window, Engine)>
    decreases |actions|
  {
    if actions == [] then Some((w, e))
    else if !Allowed(e, actions[0]) || !Says(e, actions[0]) then None
    else Watched(Heard(w, e, actions[0]), Act(e, actions[0]).0, actions[1..])
  }

  const BLANK := Window(None, 0, 0, 0, [])

  lemma {:induction false} WatchedStep(w: Window, e: Engine, a: Action, rest: seq<Action>)
    requires Allowed(e, a) && Says(e, a)
    ensures Watched(w, e, [a] + rest) == Watched(Heard(w, e, a), Act(e, a).0, rest)
  {
    assert ([a] + rest)[1..] == rest;
  }

  /** A reply with one call, after it was stored. */
  function Replied(c: Call): (r: Engine) {
    Engine([AssistantRow(0, "", "", "", [c])], None, 1, 1, [c], None, false, 1)
  }

  function Called(c: Call): Engine {
    Replied(c).(waiting := [], running := Some(c))
  }

  function Done(c: Call, output: string): Engine {
    Engine([AssistantRow(0, "", "", "", [c]), ResultRow(c.id, output)], None, 2, 1, [], None, true, 1)
  }

  const OPENED := BLANK.(stepId := Some(0))

  function ShownCall(c: Call): Window {
    OPENED.(items := [CallItem(Cut(c.text))])
  }

  function ShownDone(c: Call, output: string): Window {
    OPENED.(items := [CallItem(Cut(c.text)), ResultItem(Cut(c.id), Cut(output))])
  }

  lemma {:induction false} WatchReply(c: Call, rest: seq<Action>)
    ensures Watched(BLANK, IDLE, [Begin, Persist("", [c])] + rest) == Watched(OPENED, Replied(c), rest)
  {
    hide Watched;
    var begun := IDLE.(inFlight := Some(Stream(0, "", "")), nextStep := 1);
    assert [] + [AssistantRow(0, "", "", "", [c])] == [AssistantRow(0, "", "", "", [c])];
    assert [Begin, Persist("", [c])] + rest == [Begin] + ([Persist("", [c])] + rest);
    WatchedStep(BLANK, IDLE, Begin, [Persist("", [c])] + rest);
    WatchedStep(OPENED, begun, Persist("", [c]), rest);
  }

  lemma {:induction false} WatchCall(c: Call, rest: seq<Action>)
    ensures Watched(OPENED, Replied(c), [Announce] + rest) == Watched(ShownCall(c), Called(c), rest)
  {
    hide Watched, Cut;
    WatchedStep(OPENED, Replied(c), Announce, rest);
    assert [c][1..] == [];
    assert [] + [CallItem(Cut(c.text))] == [CallItem(Cut(c.text))];
  }

  lemma {:induction false} WatchResult(c: Call, output: string, rest: seq<Action>)
    ensures Watched(ShownCall(c), Called(c), [Finish(output)] + rest) == Watched(ShownDone(c, output), Done(c, output), rest)
  {
    hide Watched, Cut;
    WatchedStep(ShownCall(c), Called(c), Finish(output), rest);
    var row, result := AssistantRow(0, "", "", "", [c]), ResultRow(c.id, output);
    assert [row] + [result] == [row, result];
    assert NewestShown([CallItem(Cut(c.text))], Cut(c.id)) == -1;
    assert [CallItem(Cut(c.text))] + [ResultItem(Cut(c.id), Cut(output))] == ShownDone(c, output).items;
  }

  // ---- What shows ----

  lemma {:induction false} VisibleOne(a: Item)
    ensures Visible([a]) == Seen(a)
  {
    VisiblePush([], a);
    assert [] + [a] == [a];
  }

  lemma {:induction false} VisibleTwo(a: Item, b: Item)
    ensures Visible([a, b]) == Seen(a) + Seen(b)
  {
    VisibleOne(a);
    VisiblePush([a], b);
    assert [a] + [b] == [a, b];
  }

  lemma {:induction false} VisibleThree(a: Item, b: Item, c: Item)
    ensures Visible([a, b, c]) == Seen(a) + Seen(b) + Seen(c)
  {
    VisibleTwo(a, b);
    VisiblePush([a, b], c);
    assert [a, b] + [c] == [a, b, c];
  }

  lemma {:induction false} ReplyItem(c: Call)
    ensures RowsItems([AssistantRow(0, "", "", "", [c])]) == [CallItem(c.text)]
  {
    var row := AssistantRow(0, "", "", "", [c]);
    RowsPush([], row, 0, true);
    assert [] + [row] == [row] && CallItems([c]) == [CallItem(c.text)];
    assert "" + "" == "" && [] + [CallItem(c.text)] == [CallItem(c.text)];
  }

  lemma {:induction false} DoneItems(c: Call, output: string)
    ensures RowsItems(Done(c, output).rows) == [CallItem(c.text), ResultItem(c.id, output)]
  {
    hide RowsItems;
    var row, result := AssistantRow(0, "", "", "", [c]), ResultRow(c.id, output);
    ReplyItem(c);
    RowsPush([row], result, 0, true);
    assert [row] + [result] == [row, result];
    assert [CallItem(c.text)] + [ResultItem(c.id, output)] == [CallItem(c.text), ResultItem(c.id, output)];
  }

  lemma {:induction false} ReloadDone(c: Call, output: string)
    ensures Visible(RowsItems(Done(c, output).rows)) == [CallItem(c.text), ResultItem("", output)]
  {
    hide RowsItems;
    DoneItems(c, output);
    VisibleTwo(CallItem(c.text), ResultItem(c.id, output));
  }

  // ---- Calls ----

  /** A reply with a call, and the turn ends before the call starts: live it
      never shows, reloaded it does. */
  lemma {:induction false} CutOffDiffers(c: Call)
    ensures var s := Watched(BLANK, IDLE, [Begin, Persist("", [c]), Stop]);
            s.Some? && Visible(s.value.0.items) == [] && Visible(RowsItems(s.value.1.rows)) == [CallItem(c.text)]
  {
    hide Watched, RowsItems;
    assert [Begin, Persist("", [c]), Stop] == [Begin, Persist("", [c])] + [Stop];
    WatchReply(c, [Stop]);
    assert [Stop] == [Stop] + [];
    WatchedStep(OPENED, Replied(c), Stop, []);
    WatchedEnd(OPENED, Replied(c).(waiting := []));
    ReplyItem(c);
    VisibleOne(CallItem(c.text));
  }

  lemma {:induction false} WatchedEnd(w: Window, e: Engine)
    ensures Watched(w, e, []) == Some((w, e))
  {
  }

  /** It ends while the call runs: the call shows, live and reloaded. */
  lemma {:induction false} LeftRunning(c: Call)
    ensures var s := Watched(BLANK, IDLE, [Begin, Persist("", [c]), Announce, Stop]);
            && s.Some? && AllAnnounced(s.value.1.rows)
            && Visible(s.value.0.items) == [CallItem(Cut(c.text))] && Visible(RowsItems(s.value.1.rows)) == [CallItem(c.text)]
  {
    hide Watched, RowsItems, Cut;
    var row := AssistantRow(0, "", "", "", [c]);
    var left := Called(c).(rows := [row, LeftRow], running := None);
    assert [Begin, Persist("", [c]), Announce, Stop] == [Begin, Persist("", [c])] + ([Announce] + [Stop]);
    WatchReply(c, [Announce] + [Stop]);
    WatchCall(c, [Stop]);
    assert [Stop] == [Stop] + [];
    WatchedStep(ShownCall(c), Called(c), Stop, []);
    WatchedEnd(ShownCall(c), left);
    assert [row] + [LeftRow] == [row, LeftRow] && [] + [row] == [row];
    OwingStep([], row);
    OwingStep([row], LeftRow);
    ReplyItem(c);
    RowsPush([row], LeftRow, 0, true);
    assert [CallItem(c.text)] + [] == [CallItem(c.text)];
    VisibleOne(CallItem(Cut(c.text)));
    VisibleOne(CallItem(c.text));
  }

  /** A malformed call dropped from a reply: its result shows, but no row keeps
      it. */
  lemma {:induction false} DroppedDiffers(note: string, id: string, error: string)
    requires note != ""
    ensures var s := Watched(BLANK, IDLE, [Begin, Drop(id, error), Persist(note, [])]);
            && s.Some? && Visible(s.value.0.items) == [ResultItem("", Cut(error))]
            && Visible(RowsItems(s.value.1.rows)) == []
  {
    hide Watched, RowsItems, Cut;
    var row := AssistantRow(0, "", "", note, []);
    var begun := IDLE.(inFlight := Some(Stream(0, "", "")), nextStep := 1);
    var w := OPENED.(items := [ExtraItem(Cut(id), Cut(error))]);
    assert [Begin, Drop(id, error), Persist(note, [])] == [Begin] + ([Drop(id, error)] + ([Persist(note, [])] + []));
    WatchedStep(BLANK, IDLE, Begin, [Drop(id, error)] + ([Persist(note, [])] + []));
    WatchedStep(OPENED, begun, Drop(id, error), [Persist(note, [])] + []);
    assert [] + [ExtraItem(Cut(id), Cut(error))] == [ExtraItem(Cut(id), Cut(error))];
    assert "" + note == note && [] + [row] == [row];
    WatchedStep(w, begun, Persist(note, []), []);
    WatchedEnd(w, Engine([row], None, 1, 1, [], None, false, 1));
    VisibleOne(ExtraItem(Cut(id), Cut(error)));
    NoteItem(note);
    VisibleOne(Bytes(0, false, note));
  }

  lemma {:induction false} NoteItem(note: string)
    requires note != ""
    ensures RowsItems([AssistantRow(0, "", "", note, [])]) == [Bytes(0, false, note)]
  {
    var row := AssistantRow(0, "", "", note, []);
    RowsPush([], row, 0, true);
    assert [] + [row] == [row] && "" + note == note;
    assert [] + [Bytes(0, false, note)] == [Bytes(0, false, note)];
  }

  // ---- Answers ----

  lemma {:induction false} WatchDone(c: Call, output: string, rest: seq<Action>)
    ensures Watched(BLANK, IDLE, [Begin, Persist("", [c]), Announce, Finish(output)] + rest)
            == Watched(ShownDone(c, output), Done(c, output), rest)
  {
    hide Watched;
    assert [Begin, Persist("", [c]), Announce, Finish(output)] + rest
           == [Begin, Persist("", [c])] + ([Announce] + ([Finish(output)] + rest));
    WatchReply(c, [Announce] + ([Finish(output)] + rest));
    WatchCall(c, [Finish(output)] + rest);
    WatchResult(c, output, rest);
  }

  lemma {:induction false} Rewritten(c: Call, output: string, answer: string)
    ensures Act(Done(c, output), Answer(answer, true)).0 == Done(c, answer).(rowGen := 3, asking := false)
  {
    assert Act(Done(c, output), Answer(answer, true)).0.rows == Done(c, answer).rows;
  }

  /** The answer to a call that came without an id: the row is rewritten, the
      screen shows a second result. */
  lemma {:induction false} NamelessAnswer(text: string, output: string, answer: string)
    ensures var c := Call("", text);
            var s := Watched(BLANK, IDLE, [Begin, Persist("", [c]), Announce, Finish(output), Answer(answer, true)]);
            && s.Some?
            && Visible(s.value.0.items)
               == [CallItem(Cut(text)), ResultItem("", Cut(output)), ResultItem("", Cut(answer))]
            && Visible(RowsItems(s.value.1.rows)) == [CallItem(text), ResultItem("", answer)]
  {
    hide Watched, RowsItems, Cut;
    var c := Call("", text);
    assert Cut("") == "";
    var answered := Done(c, answer).(rowGen := 3, asking := false);
    var a, b, x := CallItem(Cut(text)), ResultItem("", Cut(output)), ExtraItem("", Cut(answer));
    assert [Begin, Persist("", [c]), Announce, Finish(output), Answer(answer, true)]
           == [Begin, Persist("", [c]), Announce, Finish(output)] + ([Answer(answer, true)] + []);
    WatchDone(c, output, [Answer(answer, true)] + []);
    WatchedStep(ShownDone(c, output), Done(c, output), Answer(answer, true), []);
    assert [a, b] + [x] == [a, b, x];
    Rewritten(c, output, answer);
    WatchedEnd(OPENED.(items := [a, b, x]), answered);
    VisibleThree(a, b, x);
    ReloadDone(c, answer);
  }

  /** The answer to a call whose id JSON escapes: the search in the stored rows
      may miss it, and then the screen shows the answer and a reload what was
      there before. */
  lemma {:induction false} MissedAnswer(text: string, output: string, answer: string)
    ensures var c := Call("\\", text);
            var s := Watched(BLANK, IDLE, [Begin, Persist("", [c]), Announce, Finish(output), Answer(answer, false)]);
            && s.Some?
            && Visible(s.value.0.items) == [CallItem(Cut(text)), ResultItem("", Cut(answer))]
            && Visible(RowsItems(s.value.1.rows)) == [CallItem(text), ResultItem("", output)]
  {
    hide Watched, RowsItems, Cut;
    var c := Call("\\", text);
    CutExact("\\");
    assert !Unescaped(c.id) by { assert c.id[0] == '\\'; }
    var answered := Done(c, output).(rowGen := 3, asking := false);
    var a, b, x := CallItem(Cut(text)), ResultItem("\\", Cut(output)), ResultItem("\\", Cut(answer));
    assert [Begin, Persist("", [c]), Announce, Finish(output), Answer(answer, false)]
           == [Begin, Persist("", [c]), Announce, Finish(output)] + ([Answer(answer, false)] + []);
    WatchDone(c, output, [Answer(answer, false)] + []);
    WatchedStep(ShownDone(c, output), Done(c, output), Answer(answer, false), []);
    assert NewestShown([a, b], "\\") == 1;
    assert [a, b][1 := x] == [a, x];
    WatchedEnd(OPENED.(items := [a, x]), answered);
    VisibleTwo(a, x);
    ReloadDone(c, output);
  }

  /** A call with its id was dropped before, and that result reaches the window
      only after a load: the answer rewrites it, and the call's own result stays
      what it was, though a reload shows the answer. */
  lemma {:induction false} StrayAnswer(id: string, text: string, error: string, output: string, answer: string)
    requires id != "" && '\0' !in id
    ensures var e := Done(Call(id, text), output);
            var late := ToolResult(0, id, error, false);
            var w := HandleAll(Loaded(e), [late]);
            && Recorded(e, late) && Harmless(e, [late]) && Allowed(e, Answer(answer, true))
            && Visible(Heard(w, e, Answer(answer, true)).items)
               == [CallItem(text), ResultItem("", output), ResultItem("", Cut(answer))]
            && Visible(RowsItems(Act(e, Answer(answer, true)).0.rows)) == [CallItem(text), ResultItem("", answer)]
  {
    hide RowsItems, Cut;
    var c := Call(id, text);
    var e := Done(c, output);
    var late := ToolResult(0, id, error, false);
    var w := HandleAll(Loaded(e), [late]);
    DoneItems(c, output);
    var a, b, x, y := CallItem(text), ResultItem(id, output), ExtraItem(id, error), ExtraItem(id, Cut(answer));
    assert Loaded(e).items == [a, b] by { assert [a, b] + [] == [a, b]; }
    HandleAllPush(Loaded(e), [], late);
    assert [] + [late] == [late];
    assert w.items == [a, b, x] by { assert [a, b] + [x] == [a, b, x]; }
    CutExact(id);
    assert NewestShown([a, b, x], id) == 2;
    assert [a, b, x][2 := y] == [a, b, y];
    VisibleThree(a, b, y);
    Rewritten(c, output, answer);
    ReloadDone(c, answer);
    OneStepHarmless(e, [late]);
  }

  // ---- Strings with a NUL byte ----

  /** A prompt shows up to its first NUL byte, and whole in a reload. */
  lemma {:induction false} PromptCutShort(text: string)
    ensures var s := Watched(BLANK, IDLE, [Prompt(text)]);
            && s.Some? && Visible(s.value.0.items) == [PromptItem(Cut(text))]
            && Visible(RowsItems(s.value.1.rows)) == [PromptItem(text)]
            && (Visible(s.value.0.items) == Visible(RowsItems(s.value.1.rows)) <==> '\0' !in text)
  {
    hide Watched, RowsItems, Cut;
    assert [Prompt(text)] == [Prompt(text)] + [];
    WatchedStep(BLANK, IDLE, Prompt(text), []);
    var row := PromptRow(text);
    assert [] + [row] == [row] && [] + [PromptItem(text)] == [PromptItem(text)];
    assert [] + [PromptItem(Cut(text))] == [PromptItem(Cut(text))];
    WatchedEnd(BLANK.(items := [PromptItem(Cut(text))]), IDLE.(rows := [row], rowGen := 1));
    RowsPush([], row, 0, true);
    assert RowsItems([]) == [] by { NoRows(); }
    VisibleOne(PromptItem(Cut(text)));
    VisibleOne(PromptItem(text));
    CutExact(text);
  }

  lemma {:induction false} NoRows()
    ensures RowsItems([]) == []
  {
  }

  /** So does a tool's output. */
  lemma {:induction false} OutputCutShort(c: Call, output: string)
    ensures var s := Watched(BLANK, IDLE, [Begin, Persist("", [c]), Announce, Finish(output)]);
            && s.Some? && Visible(s.value.0.items) == [CallItem(Cut(c.text)), ResultItem("", Cut(output))]
            && Visible(RowsItems(s.value.1.rows)) == [CallItem(c.text), ResultItem("", output)]
            && (Visible(s.value.0.items) == Visible(RowsItems(s.value.1.rows)) <==> '\0' !in c.text && '\0' !in output)
  {
    hide Watched, RowsItems, Cut;
    assert [Begin, Persist("", [c]), Announce, Finish(output)]
           == [Begin, Persist("", [c]), Announce, Finish(output)] + [];
    WatchDone(c, output, []);
    WatchedEnd(ShownDone(c, output), Done(c, output));
    VisibleTwo(CallItem(Cut(c.text)), ResultItem(Cut(c.id), Cut(output)));
    ReloadDone(c, output);
    CutExact(c.text);
    CutExact(output);
    assert [CallItem(Cut(c.text)), ResultItem("", Cut(output))][1] == ResultItem("", Cut(output));
    assert [CallItem(c.text), ResultItem("", output)][1] == ResultItem("", output);
  }
}
