/** What a window is told and what is stored: the relay forwards strings up to
    the first NUL byte, and an answer may miss the result it is for. */
module StreamTold {
  import opened Wrappers
  import opened StreamEngine
  import opened StreamWindow
  import opened StreamReplay
  import opened StreamOrder
  import opened StreamLook
  import opened StreamStale

  function CutRunning(running: Option<Call>): Option<Call> {
    match running case None => None case Some(c) => Some(Call(Cut(c.id), Cut(c.text)))
  }

  /** The engine as events tell it, and the engine. */
  ghost predicate Mirrors(told: Engine, e: Engine) {
    && told.rowGen == e.rowGen && told.assistantGen == e.assistantGen && told.nextStep == e.nextStep
    && told.asking == e.asking && told.waiting == CutCalls(e.waiting) && told.running == CutRunning(e.running)
    && (told.inFlight.Some? <==> e.inFlight.Some?)
    && (told.inFlight.Some? ==>
          && told.inFlight.value.step == e.inFlight.value.step
          && Shorter(told.inFlight.value.text, e.inFlight.value.text)
          && Shorter(told.inFlight.value.reasoning, e.inFlight.value.reasoning))
    && Mirrored(told.rows, e.rows)
  }

  /** The engine as told after an action. What an answer changes is in the books
      of results. */
  function Tell(told: Engine, a: Action): Engine
    requires a.Answer? || Allowed(told, CutAction(a))
  {
    if a.Answer? then Answered(told) else Act(told, CutAction(a)).0
  }

  /** The window after it hears of an action. */
  function Heard(w: Window, e: Engine, a: Action): Window
    requires Allowed(e, a)
  {
    match Act(e, a).1 case None => w case Some(ev) => Handle(w, CutEvent(ev))
  }

  lemma {:induction false} AllowedTold(told: Engine, e: Engine, a: Action)
    requires Mirrors(told, e) && Allowed(e, a) && !a.Answer?
    ensures Allowed(told, CutAction(a))
  {
    assert |told.waiting| == |e.waiting|;
  }

  lemma {:induction false} CutShort(s: string)
    ensures Shorter(Cut(s), s)
  {
    if |Cut(s)| == |s| {
      assert Cut(s) == s[..|s|];
    }
  }

  lemma {:induction false} ShorterJoin(a: string, b: string, d: string)
    requires Shorter(a, b)
    ensures Shorter(a + Cut(d), b + d)
  {
    CutShort(d);
  }

  lemma {:induction false} MirroredPush(a: seq<Row>, b: seq<Row>, x: Row, y: Row)
    requires Mirrored(a, b) && Mirrored([x], [y])
    ensures Mirrored(a + [x], b + [y])
  {
    assert [x][0] == x && [y][0] == y;
  }

  lemma {:induction false} MirrorsKept(told: Engine, e: Engine, a: Action)
    requires Mirrors(told, e) && Allowed(e, a) && !a.CutTail?
    ensures a.Answer? || Allowed(told, CutAction(a))
    ensures Mirrors(Tell(told, a), Act(e, a).0)
  {
    hide Mirrored, Cut;
    if a.Answer? {
      MirrorsAnswer(told, e, a);
    } else {
      AllowedTold(told, e, a);
      if a.Text? {
        ShorterJoin(told.inFlight.value.text, e.inFlight.value.text, a.delta);
      } else if a.Reason? {
        ShorterJoin(told.inFlight.value.reasoning, e.inFlight.value.reasoning, a.delta);
      } else if a.Persist? || a.Finish? || a.Prompt? || a.Stop? {
        MirrorsRow(told, e, a);
      } else if a.Announce? {
        assert CutCalls(e.waiting)[1..] == CutCalls(e.waiting[1..]);
      }
    }
  }

  lemma {:induction false} MirrorsRow(told: Engine, e: Engine, a: Action)
    requires Mirrors(told, e) && Allowed(e, a) && (a.Persist? || a.Finish? || a.Prompt? || a.Stop?)
    requires Allowed(told, CutAction(a))
    ensures Mirrors(Act(told, CutAction(a)).0, Act(e, a).0)
  {
    hide Mirrored, Cut;
    if !a.Stop? || e.running.Some? {
      var x, y := Act(told, CutAction(a)).0.rows[|told.rows|], Act(e, a).0.rows[|e.rows|];
      assert Mirrored([x], [y]) by { MirroredOne(x, y); }
      MirroredPush(told.rows, e.rows, x, y);
    }
    assert CutCalls([]) == [];
  }

  lemma {:induction false} MirroredOne(x: Row, y: Row)
    requires (x.PromptRow? <==> y.PromptRow?) && (x.AssistantRow? <==> y.AssistantRow?) && (x.ResultRow? <==> y.ResultRow?)
    requires x.AssistantRow? && y.AssistantRow? ==>
               && |x.calls| == |y.calls| && x.step == y.step && x.note == y.note
               && Shorter(x.text, y.text) && Shorter(x.reasoning, y.reasoning)
    ensures Mirrored([x], [y])
  {
  }

  lemma {:induction false} MirrorsAnswer(told: Engine, e: Engine, a: Action)
    requires Mirrors(told, e) && Allowed(e, a) && a.Answer?
    ensures Mirrors(Answered(told), Act(e, a).0)
  {
    var n := |e.rows| - 1;
    var rows := Act(e, a).0.rows;
    assert forall k :: 0 <= k < n ==> rows[k] == e.rows[k];
    assert rows[n].ResultRow?;
  }

  lemma {:induction false} AnsweredOk(e: Engine)
    requires EngineOk(e)
    ensures EngineOk(Answered(e))
  {
  }

  /** But for answers, the window hears what the engine as told would tell. */
  lemma {:induction false} HeardIs(w: Window, told: Engine, e: Engine, a: Action)
    requires Mirrors(told, e) && InSync(w, told) && Allowed(e, a) && !a.Answer?
    ensures Allowed(told, CutAction(a)) && Heard(w, e, a) == Follow(w, told, CutAction(a))
  {
    hide Mirrored, Cut;
    AllowedTold(told, e, a);
    if a.Announce? {
      assert told.waiting[0] == Call(Cut(e.waiting[0].id), Cut(e.waiting[0].text));
    }
  }

  // ---- The books ----

  /** The newest result a row stands behind, or -1. */
  function LastBacked(log: seq<Told>): (r: int)
    ensures -1 <= r < |log|
    ensures r >= 0 ==> log[r].backed
    ensures forall k :: 0 <= k < |log| && k > r ==> !log[k].backed
  {
    if log == [] then -1
    else if log[|log| - 1].backed then |log| - 1
    else LastBacked(log[..|log| - 1])
  }

  function Backed(log: seq<Told>): seq<Told> {
    if log == [] then []
    else Backed(log[..|log| - 1]) + (if log[|log| - 1].backed then [log[|log| - 1]] else [])
  }

  /** The books after an action. */
  function Books(since: Since, e: Engine, a: Action): Since
    requires Allowed(e, a) && (a.Answer? || Allowed(since.told, CutAction(a)))
  {
    var cut := since.cut || CutAction(a) != a;
    if a.Answer? then
      var c := Cut(e.rows[|e.rows| - 1].callId);
      since.(told := Answered(since.told), log := Retold(since.log, c, Cut(a.output)), cut := cut,
             astray := since.astray || !a.found || c == "" || NewestTold(since.log, c) < 0
                       || NewestTold(since.log, c) != LastBacked(since.log))
    else Later(since, since.told, CutAction(a)).(told := Tell(since.told, a), cut := cut)
  }

  /** Agreement of a window with an engine, and with what it told. */
  ghost predicate Joined(w: Window, since: Since, e: Engine) {
    EngineOk(since.told) && Mirrors(since.told, e) && Agreed(w, since.told, since)
  }

  lemma {:induction false} AgreedBooks(w: Window, told: Engine, since: Since, since': Since)
    requires Agreed(w, told, since)
    requires since'.rows == since.rows && since'.quiet == since.quiet && since'.log == since.log
    requires since'.mixed == since.mixed && since'.stray == since.stray
    ensures Agreed(w, told, since')
  {
    hide Agree, OrderAgrees, LookAgrees;
    SameBooks(w, told, since, since');
    BooksOnly(w.items, w.rowGen, told, since, since');
    LookOnly(w.items, told, since, since');
  }

  lemma {:induction false} AgreedGen(w: Window, e: Engine, since: Since)
    requires Agreed(w, e, since)
    ensures w.rowGen <= e.rowGen && InSync(w, e)
  {
  }

  lemma {:induction false} KeepsRowGen(w: Window, ev: Event)
    ensures Handle(w, ev).rowGen == w.rowGen
  {
  }

  lemma {:induction false} FollowAgreed(w: Window, e: Engine, a: Action, since: Since)
    requires EngineOk(e) && Agreed(w, e, since) && Allowed(e, a) && !a.CutTail? && !a.Answer?
    ensures Agreed(Follow(w, e, a), Act(e, a).0, Later(since, e, a))
  {
    hide Agree, OrderAgrees, LookAgrees, EngineOk, Act, Handle, Allowed;
    FollowAgrees(w, e, a, since);
    AgreedGen(w, e, since);
    OrderKept(w, e, a, since);
    LookKept(w, e, a, since);
    if Act(e, a).1.Some? {
      KeepsRowGen(w, Act(e, a).1.value);
    }
    BooksOnly(Follow(w, e, a).items, w.rowGen, Act(e, a).0, since, Later(since, e, a));
  }

  lemma {:induction false} AnswerAgreed(w: Window, e: Engine, since: Since, c: string, out: string)
    requires Agreed(w, e, since)
    ensures Agreed(Handle(w, ToolResult(e.rowGen + 1, c, out, true)), Answered(e),
                   since.(log := Retold(since.log, c, out)))
  {
    hide Agree, OrderAgrees, LookAgrees, Handle, Retold;
    var ev := ToolResult(e.rowGen + 1, c, out, true);
    var since' := since.(log := Retold(since.log, c, out));
    AgreedGen(w, e, since);
    AnswerAgrees(w, e, since, c, out);
    AnswerOrder(w, e, since, c, out);
    AnswerLook(w, e, since, c, out);
    KeepsRowGen(w, ev);
    BooksOnly(Handle(w, ev).items, w.rowGen, Answered(e), since, since');
    LookOnly(Handle(w, ev).items, Answered(e), since, since');
  }

  /** Every action the window hears of keeps the agreement. */
  lemma {:induction false} HeardAgrees(w: Window, since: Since, e: Engine, a: Action)
    requires Joined(w, since, e) && Allowed(e, a) && !a.CutTail?
    ensures a.Answer? || Allowed(since.told, CutAction(a))
    ensures Joined(Heard(w, e, a), Books(since, e, a), Act(e, a).0)
  {
    hide EngineOk, Mirrors, Agreed, Handle, Retold, NewestTold, LastBacked, Cut;
    var told := since.told;
    MirrorsKept(told, e, a);
    AgreedGen(w, told, since);
    var since' := Books(since, e, a);
    if a.Answer? {
      var c := Cut(e.rows[|e.rows| - 1].callId);
      MirrorsGen(told, e);
      AnswerAgreed(w, told, since, c, Cut(a.output));
      AnsweredOk(told);
      AgreedBooks(Heard(w, e, a), Answered(told), since.(log := Retold(since.log, c, Cut(a.output))), since');
    } else {
      HeardIs(w, told, e, a);
      FollowAgreed(w, told, CutAction(a), since);
      ActOk(told, CutAction(a));
      AgreedBooks(Heard(w, e, a), Tell(told, a), Later(since, told, CutAction(a)), since');
    }
  }

  lemma {:induction false} MirrorsGen(told: Engine, e: Engine)
    requires Mirrors(told, e)
    ensures told.rowGen == e.rowGen
  {
  }

  // ---- Which strings were told whole ----

  /** A row as it was told: cut, or as a load showed it. */
  ghost predicate ToldRow(told: Row, row: Row, cut: bool) {
    && (told.PromptRow? && row.PromptRow? ==> told.text == if cut then Cut(row.text) else row.text)
    && (told.AssistantRow? && row.AssistantRow? ==> told.calls == if cut then CutCalls(row.calls) else row.calls)
  }

  ghost predicate ToldSince(told: seq<Row>, rows: seq<Row>, loaded: nat) {
    && SameShape(told, rows) && loaded <= |rows|
    && forall k :: 0 <= k < |rows| ==> ToldRow(told[k], rows[k], k >= loaded)
  }

  lemma {:induction false} ToldSinceKept(since: Since, e: Engine, a: Action)
    requires Mirrors(since.told, e) && ToldSince(since.told.rows, e.rows, since.rows) && Allowed(e, a) && !a.CutTail?
    requires a.Answer? || Allowed(since.told, CutAction(a))
    ensures ToldSince(Tell(since.told, a).rows, Act(e, a).0.rows, since.rows)
  {
    hide ToldRow, Cut, CutCalls;
    var told, told' := since.told, Tell(since.told, a);
    MirrorsKept(told, e, a);
    var rows' := Act(e, a).0.rows;
    assert SameShape(told'.rows, rows') by { MirrorsShape(told', Act(e, a).0); }
    forall k | 0 <= k < |rows'| ensures ToldRow(told'.rows[k], rows'[k], k >= since.rows) {
      if k == |e.rows| {
        ToldNew(told'.rows[k], rows'[k], told, e, a);
      } else if a.Answer? && k == |e.rows| - 1 {
        ToldResult(told'.rows[k], rows'[k], k >= since.rows);
      } else {
        assert told'.rows[k] == told.rows[k] && rows'[k] == e.rows[k];
      }
    }
  }

  lemma {:induction false} MirrorsShape(told: Engine, e: Engine)
    requires Mirrors(told, e)
    ensures SameShape(told.rows, e.rows)
  {
  }

  lemma {:induction false} ToldResult(told: Row, row: Row, cut: bool)
    requires row.ResultRow?
    ensures ToldRow(told, row, cut)
  {
  }

  /** A new row is told as it is stored, its strings cut. */
  lemma {:induction false} ToldNew(x: Row, y: Row, told: Engine, e: Engine, a: Action)
    requires Mirrors(told, e) && Allowed(e, a) && !a.Answer? && !a.CutTail? && Allowed(told, CutAction(a))
    requires Act(e, a).0.rows == e.rows + [y] && Act(told, CutAction(a)).0.rows == told.rows + [x]
    ensures ToldRow(x, y, true)
  {
    hide Mirrored, Cut, CutCalls;
    assert (e.rows + [y])[|e.rows|] == y && (told.rows + [x])[|told.rows|] == x;
  }

  lemma {:induction false} CutExact(s: string)
    ensures Cut(s) == s <==> '\0' !in s
    decreases |s|
  {
    if s != "" {
      CutExact(s[1..]);
      assert s == [s[0]] + s[1..];
      if s[0] != '\0' {
        assert ([s[0]] + Cut(s[1..]))[1..] == Cut(s[1..]);
      }
    }
  }

  /** Prompts and calls without a NUL byte, from a row on. */
  predicate WholePrompts(rows: seq<Row>, from: nat) {
    forall k :: from <= k < |rows| && rows[k].PromptRow? ==> '\0' !in rows[k].text
  }

  predicate WholeCall(row: Row) {
    row.AssistantRow? ==> forall j :: 0 <= j < |row.calls| ==> '\0' !in row.calls[j].text
  }

  predicate WholeCalls(rows: seq<Row>, from: nat) {
    forall k :: from <= k < |rows| ==> WholeCall(rows[k])
  }

  lemma {:induction false} ToldCalls(told: Row, row: Row, cut: bool)
    requires told.AssistantRow? && row.AssistantRow? && ToldRow(told, row, cut)
    ensures CallTexts(told.calls) == CallTexts(row.calls) <==> !cut || WholeCall(row)
  {
    hide Cut;
    forall j | 0 <= j < |row.calls| ensures Cut(row.calls[j].text) == row.calls[j].text <==> '\0' !in row.calls[j].text {
      CutExact(row.calls[j].text);
    }
    if cut {
      assert forall j :: 0 <= j < |row.calls| ==>
        CallTexts(told.calls)[j] == Cut(row.calls[j].text) && CallTexts(row.calls)[j] == row.calls[j].text;
    }
  }

  /** Prompts and calls were told as they are stored exactly when none stored
      since the load has a NUL byte. */
  lemma {:induction false} ToldExact(told: seq<Row>, rows: seq<Row>, from: nat)
    requires SameShape(told, rows) && forall k :: 0 <= k < |rows| ==> ToldRow(told[k], rows[k], k >= from)
    ensures Prompts(RowsItems(told)) == Prompts(RowsItems(rows)) <==> WholePrompts(rows, from)
    ensures Calls(RowsItems(told)) == Calls(RowsItems(rows)) <==> WholeCalls(rows, from)
    decreases |rows|
  {
    hide RowsItems, Prompts, Calls, Log, Cut, WholeCall, CallTexts, ToldRow;
    if rows == [] {
      assert told == [];
    } else {
      var n := |rows| - 1;
      assert told == told[..n] + [told[n]] && rows == rows[..n] + [rows[n]];
      ToldExact(told[..n], rows[..n], from);
      RowsPush(told[..n], told[n], 0, true);
      RowsPush(rows[..n], rows[n], 0, true);
      ToldExactRow(told[n], rows[n], n >= from);
      WholeNext(rows, from);
      LastEqualIff(Prompts(RowsItems(told[..n])), if told[n].PromptRow? then [told[n].text] else [],
                   Prompts(RowsItems(rows[..n])), if rows[n].PromptRow? then [rows[n].text] else []);
      LastEqualIff(Calls(RowsItems(told[..n])), if told[n].AssistantRow? then CallTexts(told[n].calls) else [],
                   Calls(RowsItems(rows[..n])), if rows[n].AssistantRow? then CallTexts(rows[n].calls) else []);
    }
  }

  lemma {:induction false} LastEqualIff(a: seq<string>, x: seq<string>, b: seq<string>, y: seq<string>)
    requires |x| == |y|
    ensures a + x == b + y <==> a == b && x == y
  {
    if a + x == b + y {
      LastEqual(a, x, b, y);
    }
  }

  lemma {:induction false} WholeNext(rows: seq<Row>, from: nat)
    requires rows != []
    ensures var n := |rows| - 1;
            && (WholePrompts(rows, from)
                <==> WholePrompts(rows[..n], from) && (n >= from && rows[n].PromptRow? ==> '\0' !in rows[n].text))
            && (WholeCalls(rows, from) <==> WholeCalls(rows[..n], from) && (n >= from ==> WholeCall(rows[n])))
  {
    hide WholeCall;
  }

  lemma {:induction false} ToldExactRow(told: Row, row: Row, cut: bool)
    requires ToldRow(told, row, cut) && (told.PromptRow? <==> row.PromptRow?) && (told.AssistantRow? <==> row.AssistantRow?)
    requires told.AssistantRow? && row.AssistantRow? ==> |told.calls| == |row.calls|
    ensures told.PromptRow? && row.PromptRow? ==> (told.text == row.text <==> !cut || '\0' !in row.text)
    ensures told.AssistantRow? && row.AssistantRow? ==>
              (CallTexts(told.calls) == CallTexts(row.calls) <==> !cut || WholeCall(row))
    ensures !row.AssistantRow? ==> WholeCall(row)
  {
    hide Cut, CallTexts, WholeCall;
    if row.AssistantRow? {
      ToldCalls(told, row, cut);
    } else {
      NoCalls(row);
    }
    if row.PromptRow? {
      CutExact(row.text);
    }
  }

  lemma {:induction false} NoCalls(row: Row)
    requires !row.AssistantRow?
    ensures WholeCall(row)
  {
  }

  // ---- When nothing was cut or went astray ----

  /** Rows and stream are as they were told, but for what results say. */
  ghost predicate Whole(told: Engine, e: Engine) {
    && told.inFlight == e.inFlight && |told.rows| == |e.rows|
    && forall k :: 0 <= k < |e.rows| && !e.rows[k].ResultRow? ==> told.rows[k] == e.rows[k]
  }

  ghost predicate BooksTrue(since: Since, e: Engine) {
    && ToldSince(since.told.rows, e.rows, since.rows)
    && (!since.cut ==> Whole(since.told, e))
    && (!since.cut && !since.astray ==> Outputs(Backed(since.log)) == Outputs(Log(RowsItems(e.rows))))
  }

  lemma {:induction false} WholeKept(told: Engine, e: Engine, a: Action)
    requires Mirrors(told, e) && Whole(told, e) && Allowed(e, a) && !a.CutTail? && CutAction(a) == a
    requires a.Answer? || Allowed(told, CutAction(a))
    ensures Whole(Tell(told, a), Act(e, a).0)
  {
    hide Mirrored, Cut;
    if a.Persist? {
      assert CutCalls(a.calls) == a.calls;
    }
  }

  lemma {:induction false} BackedOne(log: seq<Told>, t: Told)
    ensures Backed(log + [t]) == Backed(log) + (if t.backed then [t] else [])
  {
    assert (log + [t])[..|log|] == log;
  }

  /** Rewriting the newest backed result rewrites the last of the backed. */
  lemma {:induction false} BackedLast(log: seq<Told>, out: string)
    requires LastBacked(log) >= 0
    ensures var i := LastBacked(log);
            var log' := log[i := log[i].(output := out)];
            && Backed(log) != []
            && Outputs(Backed(log')) == Outputs(Backed(log))[..|Backed(log)| - 1] + [out]
    decreases |log|
  {
    hide Outputs;
    var n := |log| - 1;
    var i := LastBacked(log);
    assert log == log[..n] + [log[n]];
    BackedOne(log[..n], log[n]);
    if i == n {
      assert log[i := log[i].(output := out)] == log[..n] + [log[n].(output := out)];
      BackedOne(log[..n], log[n].(output := out));
      OutputsJoin(Backed(log[..n]), [log[n]]);
      OutputsJoin(Backed(log[..n]), [log[n].(output := out)]);
      OutputsOne(log[n].(output := out));
      assert |Outputs(Backed(log[..n]))| == |Backed(log)| - 1;
    } else {
      BackedLast(log[..n], out);
      assert log[i := log[i].(output := out)] == log[..n][i := log[i].(output := out)] + [log[n]];
      BackedOne(log[..n][i := log[i].(output := out)], log[n]);
      assert Backed(log[..n]) + [] == Backed(log[..n]);
      var b := Backed(log[..n][i := log[i].(output := out)]);
      assert b + [] == b;
    }
  }

  lemma {:induction false} OutputsOne(t: Told)
    ensures Outputs([t]) == [t.output]
  {
  }

  /** What the rows' results say after one more row. */
  lemma {:induction false} RowOutputs(rows: seq<Row>, row: Row)
    ensures Outputs(Log(RowsItems(rows + [row])))
            == Outputs(Log(RowsItems(rows))) + (if row.ResultRow? then [row.output] else [])
  {
    hide Log, RowsItems, Outputs;
    RowsPush(rows, row, 0, true);
    if row.ResultRow? {
      OutputsJoin(Log(RowsItems(rows)), [Told(true, row.callId, row.output)]);
      OutputsOne(Told(true, row.callId, row.output));
    } else {
      assert Log(RowsItems(rows)) + [] == Log(RowsItems(rows));
      assert Outputs(Log(RowsItems(rows))) + [] == Outputs(Log(RowsItems(rows)));
    }
  }

  lemma {:induction false} OutputsAfterRow(since: Since, e: Engine, a: Action)
    requires Mirrors(since.told, e) && BooksTrue(since, e) && Allowed(e, a) && Allowed(since.told, CutAction(a))
    requires !a.Answer? && !a.CutTail? && CutAction(a) == a && !since.cut && !since.astray
    ensures Outputs(Backed(Books(since, e, a).log)) == Outputs(Log(RowsItems(Act(e, a).0.rows)))
  {
    hide Log, RowsItems, Outputs, Backed, Whole, Mirrored, Cut;
    var log := since.log;
    if a.Finish? {
      var t := Told(true, since.told.running.value.id, a.output);
      RowOutputs(e.rows, ResultRow(e.running.value.id, a.output));
      BackedOne(log, t);
      OutputsJoin(Backed(log), [t]);
      OutputsOne(t);
    } else if a.Drop? {
      BackedOne(log, Told(false, a.callId, a.error));
      assert Backed(log) + [] == Backed(log);
    } else if a.Persist? || a.Prompt? || (a.Stop? && e.running.Some?) {
      var row := Act(e, a).0.rows[|e.rows|];
      RowOutputs(e.rows, row);
      assert Outputs(Log(RowsItems(e.rows))) + [] == Outputs(Log(RowsItems(e.rows)));
    }
  }

  lemma {:induction false} OutputsAfterAnswer(since: Since, e: Engine, a: Action)
    requires BooksTrue(since, e) && Allowed(e, a) && a.Answer? && CutAction(a) == a && !since.cut
    requires !Books(since, e, a).astray
    ensures Outputs(Backed(Books(since, e, a).log)) == Outputs(Log(RowsItems(Act(e, a).0.rows)))
  {
    hide Log, RowsItems, Outputs, Backed, Whole, Cut, NewestTold, LastBacked;
    var n := |e.rows| - 1;
    var c := Cut(e.rows[n].callId);
    BackedLast(since.log, a.output);
    assert e.rows == e.rows[..n] + [e.rows[n]];
    assert Act(e, a).0.rows == e.rows[..n] + [e.rows[n].(output := a.output)];
    RowOutputs(e.rows[..n], e.rows[n]);
    RowOutputs(e.rows[..n], e.rows[n].(output := a.output));
    var outs := Outputs(Log(RowsItems(e.rows[..n])));
    assert (outs + [e.rows[n].output])[..|outs|] == outs;
    assert |Outputs(Backed(since.log))| == |Backed(since.log)|;
  }

  lemma {:induction false} BooksRows(since: Since, e: Engine, a: Action)
    requires Allowed(e, a) && (a.Answer? || Allowed(since.told, CutAction(a)))
    ensures Books(since, e, a).rows == since.rows && Books(since, e, a).told == Tell(since.told, a)
  {
  }

  /** As long as nothing is cut, rows and stream are told as they are; if no
      answer goes astray either, so is what results say. */
  lemma {:induction false} BooksStayTrue(since: Since, e: Engine, a: Action)
    requires Mirrors(since.told, e) && BooksTrue(since, e) && Allowed(e, a) && !a.CutTail?
    requires a.Answer? || Allowed(since.told, CutAction(a))
    ensures BooksTrue(Books(since, e, a), Act(e, a).0)
  {
    hide Whole, Mirrors, Outputs, Backed, Log, RowsItems, Retold, NewestTold, LastBacked, Act, Cut, ToldSince;
    ToldSinceKept(since, e, a);
    BooksRows(since, e, a);
    if !Books(since, e, a).cut {
      WholeKept(since.told, e, a);
      if !Books(since, e, a).astray {
        if a.Answer? {
          OutputsAfterAnswer(since, e, a);
        } else {
          OutputsAfterRow(since, e, a);
        }
      }
    }
  }

  // ---- The load ----

  /** The engine as told at a load: rows and stream as the load shows them; the
      calls still open are told later. */
  function ToldLoad(e: Engine): Engine {
    e.(waiting := CutCalls(e.waiting), running := CutRunning(e.running))
  }

  /** The books a load begins with, with these messages on their way. */
  function BooksAt(e: Engine, evs: seq<Event>): Since {
    SinceAt(e, evs).(told := ToldLoad(e))
  }

  lemma {:induction false} LoadMirrors(e: Engine)
    requires EngineOk(e)
    ensures EngineOk(ToldLoad(e)) && Mirrors(ToldLoad(e), e) && Whole(ToldLoad(e), e)
    ensures ToldSince(ToldLoad(e).rows, e.rows, |e.rows|)
  {
  }

  lemma {:induction false} BackedAppend(a: seq<Told>, b: seq<Told>)
    requires NumBacked(b) == 0
    ensures Backed(a + b) == Backed(a)
    decreases |b|
  {
    if b == [] {
      assert a + b == a;
    } else {
      var n := |b| - 1;
      assert (a + b)[..|a| + n] == a + b[..n];
      BackedAppend(a, b[..n]);
      assert Backed(a) + [] == Backed(a);
    }
  }

  lemma {:induction false} DroppedUnbacked(evs: seq<Event>)
    ensures NumBacked(DroppedIn(evs)) == 0
    decreases |evs|
  {
    hide NumBacked;
    if evs == [] {
      NothingBacked();
    } else {
      var n := |evs| - 1;
      DroppedUnbacked(evs[..n]);
      if evs[n].ToolResult? && evs[n].gen == 0 {
        BackedPush(DroppedIn(evs[..n]), Told(false, evs[n].callId, evs[n].output));
      } else {
        assert DroppedIn(evs[..n]) + [] == DroppedIn(evs[..n]);
      }
    }
  }

  lemma {:induction false} NothingBacked()
    ensures NumBacked([]) == 0
  {
  }

  lemma {:induction false} LoadBooksTrue(e: Engine, evs: seq<Event>)
    requires EngineOk(e)
    ensures BooksTrue(BooksAt(e, evs), e)
  {
    hide Whole, Outputs, Backed, Log, RowsItems, ToldSince, DroppedIn, Tracked;
    LoadMirrors(e);
    DroppedUnbacked(evs);
    RowsBacked(e.rows);
    AllAreBacked(Log(RowsItems(e.rows)));
    BackedAppend(Log(RowsItems(e.rows)), DroppedIn(evs));
  }

  /** At a load it makes no difference how the open calls will be told. */
  lemma {:induction false} OpenCallsApart(w: Window, e: Engine, e': Engine, since: Since)
    requires Agreed(w, e, since) && since.rows == |e.rows| && since.quiet == |Open(e)| && |Open(e')| == |Open(e)|
    requires e' == e.(waiting := e'.waiting, running := e'.running) && (e'.running.Some? <==> e.running.Some?)
    ensures Agreed(w, e', since)
  {
    hide BytesOf, Prompts, Calls, Log, RowsItems, NumBacked, Entries, Stored, Plain, LiveLook, StoredLook, Late;
    assert e.rows[since.rows..] == [];
    NothingLive(since.quiet);
    forall step: nat ensures Kept(e, step) <==> Kept(e', step) {}
  }

  lemma {:induction false} ToldLoadAgrees(w: Window, e: Engine, since: Since)
    requires since.rows == |e.rows| && since.quiet == |Open(e)|
    ensures Agreed(w, ToldLoad(e), since) <==> Agreed(w, e, since)
  {
    hide Agreed, Cut;
    if Agreed(w, e, since) {
      OpenCallsApart(w, e, ToldLoad(e), since);
    }
    if Agreed(w, ToldLoad(e), since) {
      OpenCallsApart(w, ToldLoad(e), e, since);
    }
  }

  /** After a load and the messages that were on their way, the window agrees
      with the engine as told if and only if those messages were harmless. */
  lemma {:induction false} LoadJoins(e: Engine, evs: seq<Event>)
    requires EngineOk(e) && AllRecorded(e, evs)
    ensures Joined(HandleAll(Loaded(e), evs), BooksAt(e, evs), e) <==> Harmless(e, evs)
  {
    hide Agreed, Mirrors, EngineOk, AllRecorded, HandleAll, Harmless, Loaded, DroppedIn, Tracked, Log, RowsItems, Whole, ToldSince;
    var w, since := HandleAll(Loaded(e), evs), BooksAt(e, evs);
    LoadMirrors(e);
    LoadExact(e, evs);
    ToldLoadAgrees(w, e, since);
    if Agreed(w, e, since) {
      AgreedBooks(w, e, since, SinceAt(e, evs));
    } else if Agreed(w, e, SinceAt(e, evs)) {
      AgreedBooks(w, e, SinceAt(e, evs), since);
    }
  }

  /** With rows as told, prompts, calls and bytes are the stored ones. */
  lemma {:induction false} WholeRows(a: seq<Row>, b: seq<Row>)
    requires SameShape(a, b) && forall k :: 0 <= k < |b| && !b[k].ResultRow? ==> a[k] == b[k]
    ensures Prompts(RowsItems(a)) == Prompts(RowsItems(b)) && Calls(RowsItems(a)) == Calls(RowsItems(b))
    decreases |b|
  {
    hide RowsItems, Prompts, Calls, Log;
    if b == [] {
      assert a == [];
    } else {
      var n := |b| - 1;
      assert a == a[..n] + [a[n]] && b == b[..n] + [b[n]];
      WholeRows(a[..n], b[..n]);
      RowsPush(a[..n], a[n], 0, true);
      RowsPush(b[..n], b[n], 0, true);
    }
  }

  lemma {:induction false} AllAreBacked(log: seq<Told>)
    requires forall k :: 0 <= k < |log| ==> log[k].backed
    ensures Backed(log) == log
    decreases |log|
  {
    if log != [] {
      var n := |log| - 1;
      assert forall k :: 0 <= k < n ==> log[..n][k] == log[k];
      AllAreBacked(log[..n]);
      assert log == log[..n] + [log[n]];
    }
  }

  // ---- What was told, by what is stored ----

  lemma {:induction false} ToldSinceRows(told: seq<Row>, rows: seq<Row>, loaded: nat)
    requires ToldSince(told, rows, loaded)
    ensures Prompts(RowsItems(told)) == Prompts(RowsItems(rows)) <==> WholePrompts(rows, loaded)
    ensures Calls(RowsItems(told)) == Calls(RowsItems(rows)) <==> WholeCalls(rows, loaded)
  {
    ToldExact(told, rows, loaded);
  }

  /** The bytes that show are the stored and streamed ones exactly when each was
      told whole. */
  lemma {:induction false} BytesTold(items: seq<Item>, told: Engine, loaded: nat, e: Engine)
    requires BytesAgree(items, told, loaded) && Mirrors(told, e)
    ensures BytesAgree(items, e, loaded) <==> TellsBytes(told.rows, e.rows) && told.inFlight == e.inFlight
  {
    hide BytesOf;
    if BytesAgree(items, e, loaded) {
      forall k | 0 <= k < |e.rows| && told.rows[k].AssistantRow? && e.rows[k].AssistantRow?
        ensures told.rows[k].text == e.rows[k].text && told.rows[k].reasoning == e.rows[k].reasoning
      {
        var note := if k < loaded then e.rows[k].note else "";
        assert told.rows[k].text + note == e.rows[k].text + note;
        SameEnd(told.rows[k].text, e.rows[k].text, note);
      }
    }
    if TellsBytes(told.rows, e.rows) {
      forall k | 0 <= k < |e.rows| && e.rows[k].AssistantRow?
        ensures told.rows[k].text == e.rows[k].text && told.rows[k].reasoning == e.rows[k].reasoning
      {
        assert told.rows[k].AssistantRow?;
      }
    }
  }

  lemma {:induction false} SameEnd(a: string, b: string, c: string)
    requires a + c == b + c
    ensures a == b
  {
    assert |a| + |c| == |b| + |c|;
    assert a == (a + c)[..|a|] && b == (b + c)[..|b|];
  }

  lemma {:induction false} WholeTold(told: Engine, e: Engine)
    requires Mirrors(told, e) && Whole(told, e)
    ensures TellsBytes(told.rows, e.rows) && told.inFlight == e.inFlight
    ensures Prompts(RowsItems(told.rows)) == Prompts(RowsItems(e.rows))
    ensures Calls(RowsItems(told.rows)) == Calls(RowsItems(e.rows))
  {
    hide RowsItems, Prompts, Calls;
    WholeRows(told.rows, e.rows);
    forall i | 0 <= i < |e.rows| && e.rows[i].AssistantRow? ensures told.rows[i] == e.rows[i] {}
  }

  lemma {:induction false} TurnTold(told: Engine, e: Engine)
    requires Mirrors(told, e) && BetweenTurns(e)
    ensures BetweenTurns(told) && Open(told) == [] && Mirrored(told.rows, e.rows)
  {
  }

  lemma {:induction false} OwingSame(a: seq<Row>, b: seq<Row>)
    requires SameShape(a, b)
    ensures Owing(a) == Owing(b) && Skipped(a) == Skipped(b)
    decreases |a|
  {
    if a != [] {
      var n := |a| - 1;
      OwingSame(a[..n], b[..n]);
      assert a[n].LeftRow? <==> b[n].LeftRow?;
    }
  }

  /** Of two lists of the same shape, the same is said of their rests. */
  lemma {:induction false} RestShape(a: seq<Row>, b: seq<Row>, n: nat)
    requires SameShape(a, b) && n <= |a|
    ensures AllAnnounced(a[n..]) <==> AllAnnounced(b[n..])
    ensures SingleCalls(a[n..]) <==> SingleCalls(b[n..])
  {
    hide Owing, Skipped;
    var x, y := a[n..], b[n..];
    assert forall k :: 0 <= k < |x| ==> x[k] == a[n + k] && y[k] == b[n + k];
    OwingSame(x, y);
  }

  lemma {:induction false} RestNotes(a: seq<Row>, b: seq<Row>, n: nat)
    requires Mirrored(a, b) && n <= |a|
    ensures NoNotes(a[n..]) <==> NoNotes(b[n..])
  {
    var x, y := a[n..], b[n..];
    assert forall k :: 0 <= k < |x| ==> x[k] == a[n + k] && y[k] == b[n + k];
  }

  /** A row stands behind each result told, and says what was told. */
  ghost predicate TellsResults(log: seq<Told>, rows: seq<Row>) {
    var stored := Log(RowsItems(rows));
    |log| == |stored| && forall k :: 0 <= k < |log| ==> log[k].backed && log[k].output == stored[k].output
  }

  lemma {:induction false} ResultsTold(items: seq<Item>, told: Engine, log: seq<Told>, rows: seq<Row>)
    requires RowsAgree(items, told, log) && SameShape(told.rows, rows)
    ensures TellsResults(log, rows) <==> Outputs(log) == Outputs(Log(RowsItems(rows)))
  {
    hide Log, RowsItems, Prompts, Calls, NumBacked, SameShape;
    var stored := Log(RowsItems(rows));
    if Outputs(log) == Outputs(stored) {
      NoExtras(items, told, log, rows);
      assert |log| == |stored|;
      forall k | 0 <= k < |log| ensures log[k].output == stored[k].output {
        assert Outputs(log)[k] == Outputs(stored)[k];
      }
    }
  }

  /** When nothing was cut, no answer went astray and a row stands behind every
      result, all was told as it is stored. */
  lemma {:induction false} ToldWhole(since: Since, e: Engine)
    requires BooksTrue(since, e) && Mirrors(since.told, e) && !since.cut && !since.astray
    requires forall k :: 0 <= k < |since.log| ==> since.log[k].backed
    ensures TellsResults(since.log, e.rows) && TellsBytes(since.told.rows, e.rows)
    ensures WholePrompts(e.rows, since.rows) && WholeCalls(e.rows, since.rows)
  {
    hide RowsItems, Prompts, Calls, Log, Backed, WholePrompts, WholeCalls, TellsBytes, Whole, Mirrors, ToldSince;
    WholeTold(since.told, e);
    ToldSinceRows(since.told.rows, e.rows, since.rows);
    AllAreBacked(since.log);
    var stored := Log(RowsItems(e.rows));
    assert Outputs(since.log) == Outputs(stored);
    assert |since.log| == |stored|;
    forall k | 0 <= k < |since.log| ensures since.log[k].output == stored[k].output {
      assert Outputs(since.log)[k] == Outputs(stored)[k];
    }
  }

  /** A result no row stands behind stays until the next load, so that nothing
      told later makes the screen a reload again. The answer to a call without
      an id leaves one, and so does a dropped call. */
  lemma {:induction false} ExtraStays(since: Since, e: Engine, a: Action)
    requires Allowed(e, a) && (a.Answer? || Allowed(since.told, CutAction(a)))
    ensures Marks(since.log) <= Marks(Books(since, e, a).log)
    ensures (exists k :: 0 <= k < |since.log| && !since.log[k].backed)
            || a.Drop? || (a.Answer? && Cut(e.rows[|e.rows| - 1].callId) == "")
            ==> !TellsResults(Books(since, e, a).log, Act(e, a).0.rows)
  {
    hide Log, RowsItems, Cut, Act;
    var log' := Books(since, e, a).log;
    if a.Drop? || (a.Answer? && Cut(e.rows[|e.rows| - 1].callId) == "") {
      assert !log'[|since.log|].backed;
    }
    if k :| 0 <= k < |since.log| && !since.log[k].backed {
      assert Marks(since.log)[k] == Marks(log')[k];
    }
  }
}
