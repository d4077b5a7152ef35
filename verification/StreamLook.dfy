/** The transcript as it looks, bytes and entries together: when the live view
    is to the last byte what a reload would show. */
module StreamLook {
  import opened Wrappers
  import opened StreamEngine
  import opened StreamWindow
  import opened StreamReplay
  import opened StreamOrder

  /** One byte or one entry on screen; where one piece of bytes ends and the
      next of the same kind begins does not show. */
  datatype Atom = Char(step: nat, reasoning: bool, c: char) | Entry(item: Item)

  function Chars(step: nat, reasoning: bool, bytes: string): (r: seq<Atom>)
    ensures |r| == |bytes|
  {
    seq(|bytes|, i requires 0 <= i < |bytes| => Char(step, reasoning, bytes[i]))
  }

  function ItemPlain(it: Item): seq<Atom> {
    if it.Bytes? then Chars(it.step, it.reasoning, it.bytes)
    else if it.PromptItem? || it.CallItem? then [Entry(it)]
    else if it.ResultItem? then [Entry(RESULT)]
    else []
  }

  /** What rows stand behind, bytes and entries, but for what results say. */
  function Plain(items: seq<Item>): seq<Atom> {
    if items == [] then [] else Plain(items[..|items| - 1]) + ItemPlain(items[|items| - 1])
  }

  lemma {:induction false} CharsJoin(step: nat, reasoning: bool, a: string, b: string)
    ensures Chars(step, reasoning, a + b) == Chars(step, reasoning, a) + Chars(step, reasoning, b)
  {
  }

  lemma {:induction false} LookNone()
    ensures Plain([]) == []
  {
  }

  lemma {:induction false} LookPush(items: seq<Item>, it: Item)
    ensures Plain(items + [it]) == Plain(items) + ItemPlain(it)
  {
    assert (items + [it])[..|items|] == items;
  }

  lemma {:induction false} LookJoin(a: seq<Item>, b: seq<Item>)
    ensures Plain(a + b) == Plain(a) + Plain(b)
    decreases |b|
  {
    hide ItemPlain;
    if b == [] {
      assert a + b == a;
    } else {
      var n := |b| - 1;
      assert a + b == (a + b[..n]) + [b[n]] && b == b[..n] + [b[n]];
      LookJoin(a, b[..n]);
      LookPush(a + b[..n], b[n]);
      LookPush(b[..n], b[n]);
    }
  }

  lemma {:induction false} LookBytes(items: seq<Item>, p: nat, r: bool, d: string)
    ensures Plain(AddBytes(items, p, r, d)) == Plain(items) + Chars(p, r, d)
  {
    if d == "" {
      assert Plain(items) + Chars(p, r, d) == Plain(items);
    } else {
      LookPush(items, Bytes(p, r, d));
    }
  }

  function CallLook(texts: seq<string>): (r: seq<Atom>)
    ensures |r| == |texts|
  {
    seq(|texts|, i requires 0 <= i < |texts| => Entry(CallItem(texts[i])))
  }

  lemma {:induction false} LookCalls(calls: seq<Call>)
    ensures Plain(CallItems(calls)) == CallLook(CallTexts(calls))
    decreases |calls|
  {
    if calls != [] {
      var n := |calls| - 1;
      LookCalls(calls[..n]);
      assert CallItems(calls) == CallItems(calls[..n]) + [CallItem(calls[n].text)];
      LookPush(CallItems(calls[..n]), CallItem(calls[n].text));
      assert CallTexts(calls) == CallTexts(calls[..n]) + [calls[n].text];
    }
  }

  /** The look of a reply or a stream. */
  function ReplyLook(step: nat, reasoning: string, text: string): seq<Atom> {
    Chars(step, true, reasoning) + Chars(step, false, text)
  }

  function RowLook(row: Row): seq<Atom> {
    match row
    case PromptRow(t) => [Entry(PromptItem(t))]
    case AssistantRow(step, reasoning, text, note, calls) => ReplyLook(step, reasoning, text + note) + CallLook(CallTexts(calls))
    case ResultRow(_, _) => [Entry(RESULT)]
    case LeftRow => []
  }

  lemma {:induction false} LookReply(p: nat, r: string, t: string)
    ensures Plain(AddBytes(AddBytes([], p, true, r), p, false, t)) == ReplyLook(p, r, t)
  {
    LookBytes([], p, true, r);
    LookBytes(AddBytes([], p, true, r), p, false, t);
    assert [] + Chars(p, true, r) == Chars(p, true, r);
  }

  lemma {:induction false} LookRow(row: Row)
    ensures Plain(RowItems(row)) == RowLook(row)
  {
    hide AddBytes, CallItems, ReplyLook, CallLook, Plain;
    LookNone();
    if row.PromptRow? {
      LookPush([], PromptItem(row.text));
      assert [] + [PromptItem(row.text)] == [PromptItem(row.text)];
    } else if row.ResultRow? {
      var it := ResultItem(row.callId, row.output);
      LookPush([], it);
      assert [] + [it] == [it];
    } else if row.AssistantRow? {
      LookReply(row.step, row.reasoning, row.text + row.note);
      LookCalls(row.calls);
      LookJoin(AddBytes(AddBytes([], row.step, true, row.reasoning), row.step, false, row.text + row.note),
               CallItems(row.calls));
    }
  }

  /** The look of a reload of these rows. */
  function StoredLook(rows: seq<Row>): seq<Atom> {
    Plain(RowsItems(rows))
  }

  lemma {:induction false} StoredLookPush(rows: seq<Row>, row: Row)
    ensures StoredLook(rows + [row]) == StoredLook(rows) + RowLook(row)
  {
    hide RowItems, RowLook;
    assert (rows + [row])[..|rows|] == rows;
    LookJoin(RowsItems(rows), RowItems(row));
    LookRow(row);
  }

  lemma {:induction false} StoredLookNone()
    ensures StoredLook([]) == []
  {
  }

  lemma {:induction false} StoredLookJoin(a: seq<Row>, b: seq<Row>)
    ensures StoredLook(a + b) == StoredLook(a) + StoredLook(b)
    decreases |b|
  {
    hide StoredLook, RowLook;
    if b == [] {
      assert a + b == a;
      StoredLookNone();
    } else {
      var n := |b| - 1;
      assert a + b == (a + b[..n]) + [b[n]] && b == b[..n] + [b[n]];
      StoredLookJoin(a, b[..n]);
      StoredLookPush(a + b[..n], b[n]);
      StoredLookPush(b[..n], b[n]);
    }
  }

  // ---- The live look of rows stored since the load ----

  /** What a row adds to the live look, by what calls are quiet and owed. */
  function LiveLookStep(look: seq<Atom>, l: Live, row: Row): seq<Atom> {
    match row
    case PromptRow(t) => look + [Entry(PromptItem(t))]
    case AssistantRow(step, reasoning, text, _, _) => look + ReplyLook(step, reasoning, text)
    case ResultRow(_, _) =>
      if l.quiet == 0 && l.owed != [] then look + [Entry(CallItem(l.owed[0])), Entry(RESULT)] else look + [Entry(RESULT)]
    case LeftRow => if l.quiet == 0 && l.owed != [] then look + [Entry(CallItem(l.owed[0]))] else look
  }

  function LiveLook(rows: seq<Row>, quiet: nat): seq<Atom> {
    if rows == [] then []
    else
      var n := |rows| - 1;
      LiveLookStep(LiveLook(rows[..n], quiet), LiveFold(rows[..n], quiet), rows[n])
  }

  lemma {:induction false} LiveLookPush(rows: seq<Row>, row: Row, quiet: nat)
    ensures LiveLook(rows + [row], quiet) == LiveLookStep(LiveLook(rows, quiet), LiveFold(rows, quiet), row)
  {
    assert (rows + [row])[..|rows|] == rows;
  }

  predicate NoNotes(rows: seq<Row>) {
    forall k :: 0 <= k < |rows| && rows[k].AssistantRow? ==> rows[k].note == ""
  }

  lemma {:induction false} SingleLookStep(look: seq<Atom>, l: Live, row: Row, shown: seq<Atom>)
    requires look + CallLook(l.owed) == shown && |l.owed| <= 1 && (l.quiet > 0 ==> l.owed == [])
    requires row.ResultRow? || row.LeftRow? || l.owed == []
    requires row.AssistantRow? ==> |row.calls| <= 1 && row.note == ""
    ensures LiveLookStep(look, l, row) + CallLook(LiveStep(l, row).owed) == shown + RowLook(row)
  {
    hide ReplyLook;
    assert CallLook([]) == [] && look + [] == look;
    var look' := LiveLookStep(look, l, row);
    assert look' + [] == look';
    if row.AssistantRow? {
      assert row.text + row.note == row.text;
    } else if Announces(l, row) {
      assert CallLook(l.owed) == [Entry(CallItem(l.owed[0]))];
      assert LiveStep(l, row).owed == [];
      assert look' == look + CallLook(l.owed) + RowLook(row);
    } else if row.LeftRow? {
      assert shown + [] == shown;
    }
  }

  lemma {:induction false} NoLook(quiet: nat)
    ensures CallLook([]) == [] && LiveLook([], quiet) == []
  {
  }

  /** One call at a time, each announced, and no notes: the looks agree,
      but for a call not shown yet. */
  lemma {:induction false} SingleLook(rows: seq<Row>, quiet: nat)
    requires Skipped(rows) == 0 && SingleCalls(rows) && NoNotes(rows)
    ensures LiveLook(rows, quiet) + CallLook(LiveFold(rows, quiet).owed) == StoredLook(rows)
    decreases |rows|
  {
    hide StoredLook, LiveFold, LiveLook, CallLook;
    if rows == [] {
      StoredLookNone();
      NothingLive(quiet);
      NoLook(quiet);
    } else {
      SingleLook(rows[..|rows| - 1], quiet);
      SingleLookNext(rows, quiet);
    }
  }

  lemma {:induction false} SingleLookNext(rows: seq<Row>, quiet: nat)
    requires rows != [] && Skipped(rows) == 0 && SingleCalls(rows) && NoNotes(rows)
    requires var front := rows[..|rows| - 1];
             LiveLook(front, quiet) + CallLook(LiveFold(front, quiet).owed) == StoredLook(front)
    ensures LiveLook(rows, quiet) + CallLook(LiveFold(rows, quiet).owed) == StoredLook(rows)
  {
    hide StoredLook, LiveLookStep, RowLook, LiveStep, LiveFold, LiveLook, CallLook;
    var n := |rows| - 1;
    SingleAgrees(rows[..n], quiet);
    OwedCount(rows[..n], quiet);
    assert rows == rows[..n] + [rows[n]];
    StoredLookPush(rows[..n], rows[n]);
    LivePush(rows[..n], rows[n], quiet);
    LiveLookPush(rows[..n], rows[n], quiet);
    SingleLookStep(LiveLook(rows[..n], quiet), LiveFold(rows[..n], quiet), rows[n], StoredLook(rows[..n]));
  }

  // ---- What a look tells ----

  /** The bytes of one step, from the look. */
  function CharsOf(look: seq<Atom>, step: nat, reasoning: bool): string {
    if look == [] then ""
    else
      var n := |look| - 1;
      CharsOf(look[..n], step, reasoning)
      + (if look[n].Char? && look[n].step == step && look[n].reasoning == reasoning then [look[n].c] else "")
  }

  /** Reasoning of a step shows after text of it. */
  predicate Late(look: seq<Atom>, step: nat) {
    look != [] &&
    var n := |look| - 1;
    Late(look[..n], step)
    || (look[n].Char? && look[n].step == step && look[n].reasoning && CharsOf(look[..n], step, false) != "")
  }

  lemma {:induction false} CharsOfJoin(a: seq<Atom>, b: seq<Atom>, step: nat, reasoning: bool)
    ensures CharsOf(a + b, step, reasoning) == CharsOf(a, step, reasoning) + CharsOf(b, step, reasoning)
    decreases |b|
  {
    if b == [] {
      assert a + b == a;
    } else {
      var n := |b| - 1;
      assert (a + b)[..|a| + n] == a + b[..n];
      CharsOfJoin(a, b[..n], step, reasoning);
    }
  }

  lemma {:induction false} CharsOfChars(p: nat, r: bool, d: string, step: nat, reasoning: bool)
    ensures CharsOf(Chars(p, r, d), step, reasoning) == if p == step && r == reasoning then d else ""
    decreases |d|
  {
    if d != "" {
      var n := |d| - 1;
      CharsOfChars(p, r, d[..n], step, reasoning);
      assert Chars(p, r, d)[..n] == Chars(p, r, d[..n]);
      assert d == d[..n] + [d[n]];
    }
  }

  lemma {:induction false} LookTellsBytes(items: seq<Item>, step: nat, reasoning: bool)
    ensures CharsOf(Plain(items), step, reasoning) == BytesOf(items, step, reasoning)
    decreases |items|
  {
    hide CharsOf, Chars;
    if items == [] {
      assert CharsOf([], step, reasoning) == "" by { NoChars(step, reasoning); }
    } else {
      var n := |items| - 1;
      LookTellsBytes(items[..n], step, reasoning);
      CharsOfJoin(Plain(items[..n]), ItemPlain(items[n]), step, reasoning);
      var it := items[n];
      if it.Bytes? {
        CharsOfChars(it.step, it.reasoning, it.bytes, step, reasoning);
      } else {
        OneEntry(ItemPlain(it), step, reasoning);
      }
    }
  }

  lemma {:induction false} NoChars(step: nat, reasoning: bool)
    ensures CharsOf([], step, reasoning) == ""
  {
  }

  lemma {:induction false} OneEntry(look: seq<Atom>, step: nat, reasoning: bool)
    requires look == [] || (|look| == 1 && look[0].Entry?)
    ensures CharsOf(look, step, reasoning) == ""
  {
    if look != [] {
      assert look[..0] == [];
    }
  }

  lemma {:induction false} LateJoin(a: seq<Atom>, b: seq<Atom>, step: nat)
    ensures Late(a, step) ==> Late(a + b, step)
    ensures CharsOf(a, step, false) != "" && CharsOf(b, step, true) != "" ==> Late(a + b, step)
    ensures !Late(a, step) && CharsOf(b, step, true) == "" ==> !Late(a + b, step)
    ensures CharsOf(a, step, false) == "" && !Late(a, step) && !Late(b, step) ==> !Late(a + b, step)
    decreases |b|
  {
    if b == [] {
      assert a + b == a;
    } else {
      var n := |b| - 1;
      assert (a + b)[..|a| + n] == a + b[..n];
      LateJoin(a, b[..n], step);
      CharsOfJoin(a, b[..n], step, false);
    }
  }

  // ---- What shows, results with what they say ----

  function SeenLook(it: Item): seq<Atom> {
    if it.Bytes? then Chars(it.step, it.reasoning, it.bytes)
    else if Seen(it) == [] then []
    else [Entry(Seen(it)[0])]
  }

  /** The whole look. */
  function Look(items: seq<Item>): seq<Atom> {
    if items == [] then [] else Look(items[..|items| - 1]) + SeenLook(items[|items| - 1])
  }

  /** The entries, from the look. */
  function EntriesOf(look: seq<Atom>): seq<Item> {
    if look == [] then []
    else
      var n := |look| - 1;
      EntriesOf(look[..n]) + (if look[n].Entry? then [look[n].item] else [])
  }

  lemma {:induction false} EntriesOfJoin(a: seq<Atom>, b: seq<Atom>)
    ensures EntriesOf(a + b) == EntriesOf(a) + EntriesOf(b)
    decreases |b|
  {
    if b == [] {
      assert a + b == a;
    } else {
      var n := |b| - 1;
      assert (a + b)[..|a| + n] == a + b[..n];
      EntriesOfJoin(a, b[..n]);
    }
  }

  lemma {:induction false} CharsNoEntries(p: nat, r: bool, d: string)
    ensures EntriesOf(Chars(p, r, d)) == []
    decreases |d|
  {
    if d != "" {
      var n := |d| - 1;
      CharsNoEntries(p, r, d[..n]);
      assert Chars(p, r, d)[..n] == Chars(p, r, d[..n]);
    }
  }

  lemma {:induction false} NoEntriesOf()
    ensures EntriesOf([]) == []
  {
  }

  lemma {:induction false} OneEntryOf(look: seq<Atom>)
    requires look == [] || (|look| == 1 && look[0].Entry?)
    ensures EntriesOf(look) == if look == [] then [] else [look[0].item]
  {
    if look != [] {
      assert look[..0] == [];
    }
  }

  /** A look tells the bytes of every step, and what is visible. */
  lemma {:induction false} LookTells(items: seq<Item>, step: nat, reasoning: bool)
    ensures CharsOf(Look(items), step, reasoning) == BytesOf(items, step, reasoning)
    ensures EntriesOf(Look(items)) == Visible(items)
    decreases |items|
  {
    hide CharsOf, Chars, EntriesOf, Seen;
    if items == [] {
      NoChars(step, reasoning);
      NoEntriesOf();
    } else {
      var n := |items| - 1;
      LookTells(items[..n], step, reasoning);
      CharsOfJoin(Look(items[..n]), SeenLook(items[n]), step, reasoning);
      EntriesOfJoin(Look(items[..n]), SeenLook(items[n]));
      var it := items[n];
      if it.Bytes? {
        CharsOfChars(it.step, it.reasoning, it.bytes, step, reasoning);
        CharsNoEntries(it.step, it.reasoning, it.bytes);
        assert Seen(it) == [] by { BytesUnseen(it); }
      } else {
        OneEntry(SeenLook(it), step, reasoning);
        OneEntryOf(SeenLook(it));
        SeenOne(it);
      }
    }
  }

  lemma {:induction false} BytesUnseen(it: Item)
    requires it.Bytes?
    ensures Seen(it) == []
  {
  }

  lemma {:induction false} SeenOne(it: Item)
    ensures |Seen(it)| <= 1
  {
  }

  /** The look without what results say. */
  function Erase(look: seq<Atom>): (r: seq<Atom>)
    ensures |r| == |look|
  {
    seq(|look|, i requires 0 <= i < |look| =>
      if look[i].Entry? && look[i].item.ResultItem? then Entry(RESULT) else look[i])
  }

  lemma {:induction false} EraseJoin(a: seq<Atom>, b: seq<Atom>)
    ensures Erase(a + b) == Erase(a) + Erase(b)
  {
  }

  /** And with it put in, last to last. */
  function FillLook(look: seq<Atom>, outs: seq<string>): seq<Atom> {
    if look == [] then []
    else
      var n := |look| - 1;
      if look[n] == Entry(RESULT) && outs != []
      then FillLook(look[..n], outs[..|outs| - 1]) + [Entry(ResultItem("", outs[|outs| - 1]))]
      else FillLook(look[..n], outs) + [look[n]]
  }

  lemma {:induction false} FillChars(look: seq<Atom>, p: nat, r: bool, d: string, outs: seq<string>)
    ensures FillLook(look + Chars(p, r, d), outs) == FillLook(look, outs) + Chars(p, r, d)
    decreases |d|
  {
    if d == "" {
      assert look + Chars(p, r, d) == look;
    } else {
      var n := |d| - 1;
      FillChars(look, p, r, d[..n], outs);
      assert Chars(p, r, d) == Chars(p, r, d[..n]) + [Char(p, r, d[n])];
      assert (look + Chars(p, r, d))[..|look| + n] == look + Chars(p, r, d[..n]);
    }
  }

  lemma {:induction false} EraseChars(p: nat, r: bool, d: string)
    ensures Erase(Chars(p, r, d)) == Chars(p, r, d)
  {
  }

  /** With a row behind every result, the look and the plain look tell each
      other, but for the outputs. */
  lemma {:induction false} LookPlain(items: seq<Item>)
    requires forall k :: 0 <= k < |Log(items)| ==> Log(items)[k].backed
    ensures Erase(Look(items)) == Plain(items) && Look(items) == FillLook(Plain(items), Outputs(Log(items)))
    decreases |items|
  {
    hide Log, Chars, Erase, FillLook;
    if items == [] {
      NothingFilled();
      NothingShows(0, true);
    } else {
      var n := |items| - 1;
      var front, it := items[..n], items[n];
      assert items == front + [it];
      OneItem(front, it, 0, true);
      var log := Log(front);
      assert forall k :: 0 <= k < |log| ==> log[k] == Log(items)[k];
      assert ToldOf(it) != [] ==> ToldOf(it)[0] == Log(items)[|log|];
      LookPlain(front);
      EraseJoin(Look(front), SeenLook(it));
      FilledOne(front, it, log);
    }
  }

  lemma {:induction false} NothingFilled()
    ensures FillLook([], []) == [] && Erase([]) == []
  {
  }

  lemma {:induction false} FilledOne(front: seq<Item>, it: Item, log: seq<Told>)
    requires ToldOf(it) != [] ==> ToldOf(it)[0].backed
    requires Erase(Look(front)) == Plain(front) && Look(front) == FillLook(Plain(front), Outputs(log))
    ensures Erase(SeenLook(it)) == ItemPlain(it)
    ensures Look(front) + SeenLook(it) == FillLook(Plain(front) + ItemPlain(it), Outputs(log + ToldOf(it)))
  {
    hide Look, Plain, Chars;
    if it.Bytes? {
      EraseChars(it.step, it.reasoning, it.bytes);
      FillChars(Plain(front), it.step, it.reasoning, it.bytes, Outputs(log));
      assert log + [] == log;
    } else if it.ResultItem? {
      assert (Plain(front) + [Entry(RESULT)])[..|Plain(front)|] == Plain(front);
      assert Outputs(log + ToldOf(it)) == Outputs(log) + [it.output];
      assert (Outputs(log) + [it.output])[..|log|] == Outputs(log);
    } else if it.PromptItem? || it.CallItem? {
      assert (Plain(front) + [Entry(it)])[..|Plain(front)|] == Plain(front);
      assert log + [] == log;
    } else {
      assert log + [] == log && Plain(front) + [] == Plain(front) && Look(front) + [] == Look(front);
    }
  }

  // ---- One event only adds ----

  /** Which results show, but not what they say. */
  function Marks(log: seq<Told>): (r: seq<(bool, string)>)
    ensures |r| == |log|
  {
    seq(|log|, i requires 0 <= i < |log| => (log[i].backed, log[i].callId))
  }

  lemma {:induction false} HandleGrows(w: Window, ev: Event, step: nat, r: bool)
    ensures var items, items' := w.items, Handle(w, ev).items;
            && BytesOf(items, step, r) <= BytesOf(items', step, r)
            && Prompts(items) <= Prompts(items') && Calls(items) <= Calls(items')
            && Marks(Log(items)) <= Marks(Log(items'))
  {
    hide BytesOf, Prompts, Calls, Log, AddBytes;
    var w' := Handle(w, ev);
    if w'.items != w.items {
      if ev.TextDelta? || ev.ReasoningDelta? {
        AddedBytes(w.items, ev.step, ev.ReasoningDelta?, ev.delta, step, r);
      } else if ev.ToolResult? && ev.replacing && ev.callId != "" && NewestShown(w.items, ev.callId) >= 0 {
        RewrittenItem(w.items, NewestShown(w.items, ev.callId), ev.output, step, r);
      } else {
        OneItem(w.items, w'.items[|w.items|], step, r);
      }
    }
  }

  lemma {:induction false} RewrittenPlain(items: seq<Item>, i: nat, out: string)
    requires i < |items| && IsResult(items[i])
    ensures Plain(items[i := items[i].(output := out)]) == Plain(items)
    decreases |items|
  {
    hide Plain;
    var n := |items| - 1;
    var items' := items[i := items[i].(output := out)];
    assert items == items[..n] + [items[n]];
    LookPush(items[..n], items[n]);
    if i < n {
      RewrittenPlain(items[..n], i, out);
      assert items' == items[..n][i := items[i].(output := out)] + [items[n]];
      LookPush(items[..n][i := items[i].(output := out)], items[n]);
    } else {
      assert items' == items[..n] + [items[n].(output := out)];
      LookPush(items[..n], items[n].(output := out));
    }
  }

  lemma {:induction false} AnswerPlain(items: seq<Item>, gen: nat, c: string, out: string)
    ensures Plain(ShowResult(items, gen, c, out, true)) == Plain(items)
  {
    hide Plain, NewestShown;
    var i := NewestShown(items, c);
    if c != "" && i >= 0 {
      RewrittenPlain(items, i, out);
    } else {
      LookPush(items, ExtraItem(c, out));
      assert Plain(items) + [] == Plain(items);
    }
  }

  lemma {:induction false} LateGrows(w: Window, ev: Event, step: nat)
    ensures Late(Plain(w.items), step) ==> Late(Plain(Handle(w, ev).items), step)
  {
    hide Late, Plain, AddBytes, Chars, ItemPlain, NewestShown;
    var w' := Handle(w, ev);
    if w'.items != w.items {
      if ev.TextDelta? || ev.ReasoningDelta? {
        LookBytes(w.items, ev.step, ev.ReasoningDelta?, ev.delta);
        LateJoin(Plain(w.items), Chars(ev.step, ev.ReasoningDelta?, ev.delta), step);
      } else if ev.ToolResult? && ev.replacing && ev.callId != "" && NewestShown(w.items, ev.callId) >= 0 {
        RewrittenPlain(w.items, NewestShown(w.items, ev.callId), ev.output);
      } else {
        LookPush(w.items, w'.items[|w.items|]);
        LateJoin(Plain(w.items), ItemPlain(w'.items[|w.items|]), step);
      }
    }
  }

  // ---- The look and the engine ----

  function OpenLook(s: Option<Stream>): seq<Atom> {
    match s case None => [] case Some(f) => ReplyLook(f.step, f.reasoning, f.text)
  }

  /** The running call, if it has shown. */
  function RunningLook(e: Engine, quiet: nat): seq<Atom> {
    if e.running.Some? && quiet == 0 then [Entry(CallItem(e.running.value.text))] else []
  }

  ghost predicate StrayOk(items: seq<Item>, e: Engine, since: Since) {
    since.stray ==> exists step: nat, r: bool :: step < e.nextStep && !Kept(e, step) && BytesOf(items, step, r) != ""
  }

  ghost predicate MixedOk(items: seq<Item>, since: Since) {
    since.mixed ==> exists step: nat :: Late(Plain(items), step)
  }

  /** The plain look: what was loaded, the rows since, what streams, the
      running call; unless bytes came that a reload would not show so. */
  ghost predicate PlainOk(items: seq<Item>, e: Engine, since: Since) {
    since.rows <= |e.rows|
    && (!since.mixed && !since.stray ==>
          var rest := e.rows[since.rows..];
          Plain(items) == StoredLook(e.rows[..since.rows]) + LiveLook(rest, since.quiet) + OpenLook(e.inFlight)
                          + RunningLook(e, LiveFold(rest, since.quiet).quiet))
  }

  ghost predicate LookAgrees(items: seq<Item>, e: Engine, since: Since) {
    StrayOk(items, e, since) && MixedOk(items, since) && PlainOk(items, e, since)
  }

  lemma {:induction false} UnkeptStays(e: Engine, a: Action, step: nat)
    requires EngineOk(e) && Allowed(e, a) && !a.Answer? && step < e.nextStep && !Kept(e, step)
    ensures step < Act(e, a).0.nextStep && !Kept(Act(e, a).0, step)
  {
    var e' := Act(e, a).0;
    forall i | 0 <= i < |e'.rows| && e'.rows[i].AssistantRow? ensures e'.rows[i].step != step {
      if i < |e.rows| {
        assert e'.rows[i] == e.rows[i];
      }
    }
  }

  lemma {:induction false} StrayKept(w: Window, e: Engine, a: Action, since: Since)
    requires EngineOk(e) && Agree(w, e, since) && Allowed(e, a) && !a.Answer? && StrayOk(w.items, e, since)
    ensures StrayOk(Follow(w, e, a).items, Act(e, a).0, Later(since, e, a))
  {
    hide BytesOf, Kept, RowsItems, Prompts, Log, NumBacked, AddBytes;
    var w', e' := Follow(w, e, a), Act(e, a).0;
    if since.stray {
      var step: nat, r: bool :| step < e.nextStep && !Kept(e, step) && BytesOf(w.items, step, r) != "";
      UnkeptStays(e, a, step);
      FollowGrows(w, e, a, step, r);
      assert BytesOf(w'.items, step, r) != "";
    } else if Later(since, e, a).stray {
      var f := e.inFlight.value;
      AbortedUnkept(e, a);
      assert w'.items == w.items;
      assert BytesOf(w'.items, f.step, false) != "" || BytesOf(w'.items, f.step, true) != "";
    }
  }

  lemma {:induction false} AbortedUnkept(e: Engine, a: Action)
    requires EngineOk(e) && Allowed(e, a) && a.Abort?
    ensures var p := e.inFlight.value.step; p < Act(e, a).0.nextStep && !Kept(Act(e, a).0, p)
  {
  }

  lemma {:induction false} FollowGrows(w: Window, e: Engine, a: Action, step: nat, r: bool)
    requires Allowed(e, a)
    ensures BytesOf(w.items, step, r) <= BytesOf(Follow(w, e, a).items, step, r)
    ensures Late(Plain(w.items), step) ==> Late(Plain(Follow(w, e, a).items), step)
  {
    hide BytesOf, Late, Plain, Handle, Allowed, Act, Prompts, Calls, Log, Marks;
    if Act(e, a).1.Some? {
      HandleGrows(w, Act(e, a).1.value, step, r);
      LateGrows(w, Act(e, a).1.value, step);
    }
  }

  lemma {:induction false} MixedKept(w: Window, e: Engine, a: Action, since: Since)
    requires EngineOk(e) && Agree(w, e, since) && Allowed(e, a) && MixedOk(w.items, since)
    ensures MixedOk(Follow(w, e, a).items, Later(since, e, a))
  {
    hide BytesOf, Late, Plain, RowsItems, Prompts, Log, NumBacked, AddBytes, Chars;
    if since.mixed {
      var step: nat :| Late(Plain(w.items), step);
      FollowGrows(w, e, a, step, true);
    } else if Later(since, e, a).mixed {
      var p := e.inFlight.value.step;
      LookTellsBytes(w.items, p, false);
      LookBytes(w.items, p, true, a.delta);
      CharsOfChars(p, true, a.delta, p, true);
      LateJoin(Plain(w.items), Chars(p, true, a.delta), p);
      assert Late(Plain(Follow(w, e, a).items), p);
    }
  }

  // ---- The plain look, action by action ----

  lemma {:induction false} EmptyLook(step: nat)
    ensures ReplyLook(step, "", "") == []
  {
  }

  lemma {:induction false} PlainStream(w: Window, e: Engine, a: Action, since: Since)
    requires EngineOk(e) && Agree(w, e, since) && PlainOk(w.items, e, since) && Allowed(e, a)
    requires a.Begin? || a.Again? || a.Abort? || a.Text? || a.Reason? || a.Drop?
    ensures PlainOk(Follow(w, e, a).items, Act(e, a).0, Later(since, e, a))
  {
    hide Plain, LiveLook, LiveFold, StoredLook, BytesAgree, RowsAgree, AddBytes, ReplyLook;
    if a.Begin? {
      EmptyLook(e.nextStep);
    } else if a.Abort? {
      EmptyLook(e.inFlight.value.step);
    } else if a.Text? || a.Reason? {
      PlainDelta(w, e, a, since);
    } else if a.Drop? {
      LookPush(w.items, ExtraItem(a.callId, a.error));
      assert Plain(w.items) + [] == Plain(w.items);
    }
  }

  lemma {:induction false} PlainDelta(w: Window, e: Engine, a: Action, since: Since)
    requires EngineOk(e) && Agree(w, e, since) && PlainOk(w.items, e, since) && Allowed(e, a) && (a.Text? || a.Reason?)
    ensures PlainOk(Follow(w, e, a).items, Act(e, a).0, Later(since, e, a))
  {
    hide Plain, LiveLook, LiveFold, StoredLook, BytesAgree, RowsAgree, AddBytes, Chars;
    var f := e.inFlight.value;
    LookBytes(w.items, f.step, a.Reason?, a.delta);
    if a.Text? {
      CharsJoin(f.step, false, f.text, a.delta);
    } else if a.delta == "" {
      assert f.reasoning + a.delta == f.reasoning;
      assert Chars(f.step, true, "") == [] by { NoBytes(f.step, true); }
    } else if f.text == "" {
      CharsJoin(f.step, true, f.reasoning, a.delta);
      NoBytes(f.step, false);
    }
  }

  lemma {:induction false} NoBytes(step: nat, r: bool)
    ensures Chars(step, r, "") == []
  {
  }

  lemma {:induction false} PlainPersist(w: Window, e: Engine, a: Action, since: Since)
    requires EngineOk(e) && Agree(w, e, since) && PlainOk(w.items, e, since) && Allowed(e, a) && a.Persist?
    ensures PlainOk(Follow(w, e, a).items, Act(e, a).0, since)
  {
    hide Plain, LiveLook, LiveFold, StoredLook, BytesAgree, RowsAgree, ReplyLook;
    var row := Act(e, a).0.rows[|e.rows|];
    RestPush(e, row, since);
    LiveLookPush(e.rows[since.rows..], row, since.quiet);
  }

  lemma {:induction false} PlainPrompt(w: Window, e: Engine, a: Action, since: Since)
    requires EngineOk(e) && Agree(w, e, since) && PlainOk(w.items, e, since) && Allowed(e, a) && a.Prompt?
    ensures PlainOk(Follow(w, e, a).items, Act(e, a).0, since)
  {
    hide Plain, LiveLook, LiveFold, StoredLook, BytesAgree, RowsAgree, ReplyLook;
    var row := PromptRow(a.text);
    RestPush(e, row, since);
    LiveLookPush(e.rows[since.rows..], row, since.quiet);
    LookPush(w.items, PromptItem(a.text));
  }

  lemma {:induction false} PlainAnnounce(w: Window, e: Engine, a: Action, since: Since)
    requires EngineOk(e) && OrderAgrees(w.items, w.rowGen, e, since) && PlainOk(w.items, e, since) && Allowed(e, a)
    requires a.Announce?
    ensures PlainOk(Follow(w, e, a).items, Act(e, a).0, since)
  {
    hide Plain, LiveLook, LiveFold, StoredLook, Entries, Stored, ReplyLook;
    LookPush(w.items, CallItem(e.waiting[0].text));
    assert Open(e) != [];
  }

  lemma {:induction false} PlainFinish(w: Window, e: Engine, a: Action, since: Since)
    requires EngineOk(e) && OrderAgrees(w.items, w.rowGen, e, since) && PlainOk(w.items, e, since) && Allowed(e, a)
    requires a.Finish? && w.rowGen <= e.rowGen
    ensures PlainOk(Follow(w, e, a).items, Act(e, a).0, Later(since, e, a))
  {
    hide Plain, LiveLook, LiveFold, StoredLook, Entries, Stored, ReplyLook, CallTexts;
    var row := ResultRow(e.running.value.id, a.output);
    var rest := e.rows[since.rows..];
    RestPush(e, row, since);
    LiveLookPush(rest, row, since.quiet);
    LivePush(rest, row, since.quiet);
    OwedCount(rest, since.quiet);
    LookPush(w.items, ResultItem(e.running.value.id, a.output));
    OpenRunning(e);
    assert Open(e) == [e.running.value] + e.waiting;
  }

  lemma {:induction false} PlainStop(w: Window, e: Engine, a: Action, since: Since)
    requires EngineOk(e) && OrderAgrees(w.items, w.rowGen, e, since) && PlainOk(w.items, e, since) && Allowed(e, a)
    requires a.Stop?
    ensures PlainOk(Follow(w, e, a).items, Act(e, a).0, since)
  {
    hide Plain, LiveLook, LiveFold, StoredLook, Entries, Stored, ReplyLook, CallTexts;
    if e.running.Some? {
      var rest := e.rows[since.rows..];
      RestPush(e, LeftRow, since);
      LiveLookPush(rest, LeftRow, since.quiet);
      LivePush(rest, LeftRow, since.quiet);
      OwedCount(rest, since.quiet);
      OpenRunning(e);
      assert Open(e) == [e.running.value] + e.waiting;
    }
  }

  lemma {:induction false} AnswerLook(w: Window, e: Engine, since: Since, c: string, out: string)
    requires LookAgrees(w.items, e, since) && w.rowGen <= e.rowGen
    ensures LookAgrees(Handle(w, ToolResult(e.rowGen + 1, c, out, true)).items, Answered(e), since)
  {
    hide Plain, LiveLook, LiveFold, StoredLook, BytesOf, Late, ShowResult, Prompts, Calls, Log;
    AnswerPlain(w.items, e.rowGen + 1, c, out);
    ShownTold(w.items, e.rowGen + 1, c, out);
    if since.stray {
      var step: nat, r: bool :| step < e.nextStep && !Kept(e, step) && BytesOf(w.items, step, r) != "";
      assert !Kept(Answered(e), step);
    }
  }

  /** The look does not depend on the rest of the books. */
  lemma {:induction false} LookOnly(items: seq<Item>, e: Engine, since: Since, since': Since)
    requires LookAgrees(items, e, since) && since'.rows == since.rows && since'.quiet == since.quiet
    requires since'.mixed == since.mixed && since'.stray == since.stray
    ensures LookAgrees(items, e, since')
  {
    hide Plain, LiveLook, LiveFold, StoredLook, BytesOf, Late, Kept;
  }

  lemma {:induction false} PlainKept(w: Window, e: Engine, a: Action, since: Since)
    requires EngineOk(e) && Agree(w, e, since) && OrderAgrees(w.items, w.rowGen, e, since) && Allowed(e, a) && !a.CutTail? && !a.Answer?
    requires PlainOk(w.items, e, since)
    ensures PlainOk(Follow(w, e, a).items, Act(e, a).0, Later(since, e, a))
  {
    hide EngineOk, OrderAgrees, Allowed, PlainOk, BytesAgree, RowsAgree;
    if a.Persist? {
      PlainPersist(w, e, a, since);
    } else if a.Prompt? {
      PlainPrompt(w, e, a, since);
    } else if a.Announce? {
      PlainAnnounce(w, e, a, since);
    } else if a.Finish? {
      PlainFinish(w, e, a, since);
    } else if a.Stop? {
      PlainStop(w, e, a, since);
    } else {
      PlainStream(w, e, a, since);
    }
  }

  /** Every action told as it is keeps what is said of the look. */
  lemma {:induction false} LookKept(w: Window, e: Engine, a: Action, since: Since)
    requires EngineOk(e) && Agree(w, e, since) && OrderAgrees(w.items, w.rowGen, e, since) && Allowed(e, a) && !a.CutTail? && !a.Answer?
    requires LookAgrees(w.items, e, since)
    ensures LookAgrees(Follow(w, e, a).items, Act(e, a).0, Later(since, e, a))
  {
    hide EngineOk, Agree, OrderAgrees, Allowed, PlainOk, StrayOk, MixedOk;
    StrayKept(w, e, a, since);
    MixedKept(w, e, a, since);
    PlainKept(w, e, a, since);
  }

  // ---- The load ----

  lemma {:induction false} LoadLook(e: Engine)
    ensures Plain(Loaded(e).items) == StoredLook(e.rows) + OpenLook(e.inFlight)
  {
    hide Plain, ReplyLook, AddBytes, RowsItems;
    LookJoin(RowsItems(e.rows), StreamItems(e.inFlight));
    if e.inFlight.Some? {
      var f := e.inFlight.value;
      LookReply(f.step, f.reasoning, f.text);
    } else {
      assert Plain([]) == [] by { LookNone(); }
    }
  }

  lemma {:induction false} LoadLookAgrees(e: Engine)
    requires EngineOk(e)
    ensures LookAgrees(Loaded(e).items, e, SinceLoad(e))
  {
    hide Plain, ReplyLook, StoredLook, LiveLook, LiveFold, Kept, BytesOf, Late, EngineOk, Loaded, OpenLook;
    LoadLook(e);
    NoLook(|Open(e)|);
    NothingLive(|Open(e)|);
    assert e.rows[..|e.rows|] == e.rows && e.rows[|e.rows|..] == [];
  }

  /** In a reload no reasoning shows after text of its step. */
  lemma {:induction false} StoredNotLate(e: Engine, rows: seq<Row>, step: nat)
    requires EngineOk(e) && rows <= e.rows
    ensures !Late(StoredLook(rows), step)
    decreases |rows|
  {
    hide Late, StoredLook, CharsOf, RowLook;
    if rows == [] {
      StoredLookNone();
      assert !Late([], step) by { NotLate(step); }
    } else {
      var n := |rows| - 1;
      StoredNotLate(e, rows[..n], step);
      assert rows == rows[..n] + [rows[n]];
      StoredLookPush(rows[..n], rows[n]);
      RowChars(rows[n], step);
      LateJoin(StoredLook(rows[..n]), RowLook(rows[n]), step);
      LookTellsBytes(RowsItems(rows[..n]), step, false);
      assert StoredLook(rows[..n]) == Plain(RowsItems(rows[..n])) by { StoredLookIs(rows[..n]); }
      if rows[n].AssistantRow? && rows[n].step == step {
        RowsBytes(e, rows[..n], step, false);
      }
    }
  }

  lemma {:induction false} StoredLookIs(rows: seq<Row>)
    ensures StoredLook(rows) == Plain(RowsItems(rows))
  {
  }

  lemma {:induction false} NotLate(step: nat)
    ensures !Late([], step)
  {
  }

  /** A row's own look is never late, and has no chars of other steps. */
  lemma {:induction false} RowChars(row: Row, step: nat)
    ensures !Late(RowLook(row), step)
    ensures !(row.AssistantRow? && row.step == step) ==> CharsOf(RowLook(row), step, true) == ""
  {
    hide Late, CharsOf, Chars, CallLook;
    if row.AssistantRow? {
      ReplyChars(row.step, row.reasoning, row.text + row.note, step);
      CallChars(CallTexts(row.calls), step);
      LateJoin(ReplyLook(row.step, row.reasoning, row.text + row.note), CallLook(CallTexts(row.calls)), step);
      CharsOfJoin(ReplyLook(row.step, row.reasoning, row.text + row.note), CallLook(CallTexts(row.calls)), step, true);
    } else if row.LeftRow? {
      NoChars(step, true);
      NotLate(step);
    } else {
      OneEntry(RowLook(row), step, true);
      assert !Late(RowLook(row), step) by { OneNotLate(RowLook(row), step); }
    }
  }

  lemma {:induction false} OneNotLate(look: seq<Atom>, step: nat)
    requires |look| == 1 && look[0].Entry?
    ensures !Late(look, step)
  {
    assert look[..0] == [];
  }

  lemma {:induction false} CallChars(calls: seq<string>, step: nat)
    ensures CharsOf(CallLook(calls), step, true) == "" && !Late(CallLook(calls), step)
    decreases |calls|
  {
    if calls != [] {
      var n := |calls| - 1;
      CallChars(calls[..n], step);
      assert CallLook(calls)[..n] == CallLook(calls[..n]);
    }
  }

  lemma {:induction false} KindNotLate(p: nat, r: bool, d: string, step: nat)
    ensures !Late(Chars(p, r, d), step)
    decreases |d|
  {
    if d != "" {
      var n := |d| - 1;
      KindNotLate(p, r, d[..n], step);
      assert Chars(p, r, d)[..n] == Chars(p, r, d[..n]);
      CharsOfChars(p, r, d[..n], step, false);
    }
  }

  lemma {:induction false} ReplyChars(p: nat, reasoning: string, text: string, step: nat)
    ensures !Late(ReplyLook(p, reasoning, text), step)
    ensures CharsOf(ReplyLook(p, reasoning, text), step, true) == if p == step then reasoning else ""
  {
    hide Late, CharsOf, Chars;
    var a, b := Chars(p, true, reasoning), Chars(p, false, text);
    KindNotLate(p, true, reasoning, step);
    CharsOfChars(p, false, text, step, true);
    CharsOfChars(p, true, reasoning, step, true);
    CharsOfJoin(a, b, step, true);
    LateJoin(a, b, step);
    assert reasoning + "" == reasoning;
  }

  // ---- Exactly when the view looks like a reload ----

  /** Row by row: what a reply streamed was told whole, or came out shorter. */
  predicate Mirrored(told: seq<Row>, rows: seq<Row>) {
    SameShape(told, rows)
    && forall k :: 0 <= k < |rows| && told[k].AssistantRow? && rows[k].AssistantRow? ==>
         && told[k].step == rows[k].step && told[k].note == rows[k].note
         && Shorter(told[k].text, rows[k].text) && Shorter(told[k].reasoning, rows[k].reasoning)
  }

  /** Each reply's bytes were told as they are stored. */
  predicate TellsBytes(told: seq<Row>, rows: seq<Row>)
    requires |told| == |rows|
  {
    forall k :: 0 <= k < |rows| && told[k].AssistantRow? && rows[k].AssistantRow? ==>
      told[k].text == rows[k].text && told[k].reasoning == rows[k].reasoning
  }

  /** Everything was told as it is stored. */
  predicate TellsStored(since: Since, told: seq<Row>, rows: seq<Row>) {
    |told| == |rows| && TellsEntries(since, told, rows) && TellsBytes(told, rows)
  }

  lemma {:induction false} StoredLookSame(told: seq<Row>, rows: seq<Row>)
    requires Mirrored(told, rows) && TellsBytes(told, rows)
    requires Prompts(RowsItems(told)) == Prompts(RowsItems(rows)) && Calls(RowsItems(told)) == Calls(RowsItems(rows))
    ensures StoredLook(told) == StoredLook(rows)
    decreases |rows|
  {
    hide RowsItems, StoredLook, Calls, Prompts, Log, RowLook;
    if rows == [] {
      assert told == [];
    } else {
      var n := |rows| - 1;
      assert told == told[..n] + [told[n]] && rows == rows[..n] + [rows[n]];
      RowsPush(told[..n], told[n], 0, true);
      RowsPush(rows[..n], rows[n], 0, true);
      ShapeStored(told[..n], rows[..n]);
      LastEqual(Prompts(RowsItems(told[..n])), if told[n].PromptRow? then [told[n].text] else [],
                Prompts(RowsItems(rows[..n])), if rows[n].PromptRow? then [rows[n].text] else []);
      LastEqual(Calls(RowsItems(told[..n])), if told[n].AssistantRow? then CallTexts(told[n].calls) else [],
                Calls(RowsItems(rows[..n])), if rows[n].AssistantRow? then CallTexts(rows[n].calls) else []);
      StoredLookSame(told[..n], rows[..n]);
      StoredLookPush(told[..n], told[n]);
      StoredLookPush(rows[..n], rows[n]);
      RowLookSame(told[n], rows[n]);
    }
  }

  lemma {:induction false} RowLookSame(a: Row, b: Row)
    requires (a.PromptRow? <==> b.PromptRow?) && (a.AssistantRow? <==> b.AssistantRow?) && (a.ResultRow? <==> b.ResultRow?)
    requires a.PromptRow? && b.PromptRow? ==> a.text == b.text
    requires a.AssistantRow? && b.AssistantRow? ==>
               CallTexts(a.calls) == CallTexts(b.calls) && a.step == b.step && a.note == b.note && a.text == b.text
               && a.reasoning == b.reasoning
    ensures RowLook(a) == RowLook(b)
  {
  }

  /** Between turns, with the books kept of an engine as told: the view looks
      to the last byte like a reload of what is stored if and only if, since the
      load, no reply made more than one call, every call was announced, no
      reply has a note, no step's reasoning showed after text of it, no bytes
      showed of a step that was not stored in the end, and everything was told
      as it is stored. */
  lemma {:induction false} LookExact(w: Window, told: Engine, since: Since, e: Engine)
    requires EngineOk(told) && EngineOk(e) && Agree(w, told, since) && OrderAgrees(w.items, w.rowGen, told, since)
    requires LookAgrees(w.items, told, since) && BetweenTurns(told) && BetweenTurns(e) && Mirrored(told.rows, e.rows)
    ensures var rest := told.rows[since.rows..];
            Look(w.items) == Look(Loaded(e).items)
            <==> SingleCalls(rest) && AllAnnounced(rest) && NoNotes(rest) && !since.mixed && !since.stray
                 && TellsStored(since, told.rows, e.rows)
  {
    hide Look, Visible, BytesOf, RowsItems, Late, SingleCalls, AllAnnounced, NoNotes, StoredLook, LiveLook, LiveFold,
      Entries, Stored, Prompts, Calls, Log, Kept, EngineOk, Plain, TellsEntries, TellsBytes, NumBacked, StrayOk, MixedOk, PlainOk;
    var rest := told.rows[since.rows..];
    assert Open(told) == [];
    StoredOrder(w.items, w.rowGen, told, since, e.rows);
    LookTells(w.items, 0, true);
    LookTells(Loaded(e).items, 0, true);
    assert Loaded(e).items == RowsItems(e.rows) by { assert RowsItems(e.rows) + [] == RowsItems(e.rows); }
    if Look(w.items) == Look(Loaded(e).items) {
      LookSame(w.items, told, since, e);
    }
    if SingleCalls(rest) && AllAnnounced(rest) && NoNotes(rest) && !since.mixed && !since.stray
       && TellsStored(since, told.rows, e.rows) {
      PlainSame(w.items, told, since, e);
    }
  }

  /** A backed log as long as there are stored results has no extra one. */
  lemma {:induction false} NoExtras(items: seq<Item>, told: Engine, log: seq<Told>, rows: seq<Row>)
    requires RowsAgree(items, told, log) && SameShape(told.rows, rows) && Outputs(log) == Outputs(Log(RowsItems(rows)))
    ensures forall k :: 0 <= k < |Log(items)| ==> Log(items)[k].backed
  {
    hide Log, Prompts, Calls, RowsItems, NumBacked, SameShape;
    ShapeStored(told.rows, rows);
    AllBacked(log);
  }

  lemma {:induction false} PlainSame(items: seq<Item>, told: Engine, since: Since, e: Engine)
    requires PlainOk(items, told, since) && RowsAgree(items, told, since.log) && BetweenTurns(told) && BetweenTurns(e)
    requires !since.mixed && !since.stray && Mirrored(told.rows, e.rows) && TellsStored(since, told.rows, e.rows)
    requires var rest := told.rows[since.rows..]; SingleCalls(rest) && AllAnnounced(rest) && NoNotes(rest)
    ensures Look(items) == Look(Loaded(e).items)
  {
    hide Look, Plain, StoredLook, LiveLook, LiveFold, SingleCalls, NoNotes, CallLook, Loaded, Log, Prompts, Calls, RowsItems,
      NumBacked, SameShape, TellsBytes, Outputs, FillLook, Erase;
    var head, rest := told.rows[..since.rows], told.rows[since.rows..];
    SingleLook(rest, since.quiet);
    OwedCount(rest, since.quiet);
    assert LiveFold(rest, since.quiet).owed == [];
    NoLook(since.quiet);
    assert LiveLook(rest, since.quiet) + [] == LiveLook(rest, since.quiet);
    StoredLookJoin(head, rest);
    assert told.rows == head + rest;
    StoredLookSame(told.rows, e.rows);
    LoadLook(e);
    assert StoredLook(e.rows) + [] == StoredLook(e.rows);
    NoExtras(items, told, since.log, e.rows);
    LoadedLog(e);
    RowsBacked(e.rows);
    LookPlain(items);
    LookPlain(Loaded(e).items);
  }

  lemma {:induction false} LoadedLog(e: Engine)
    requires e.inFlight.None?
    ensures Log(Loaded(e).items) == Log(RowsItems(e.rows))
  {
    assert RowsItems(e.rows) + [] == RowsItems(e.rows);
  }

  /** An equal look has the same bytes of every step, so no stray ones, no note
      missing, none told short, and no reasoning out of its place. */
  lemma {:induction false} LookSame(items: seq<Item>, told: Engine, since: Since, e: Engine)
    requires EngineOk(told) && EngineOk(e) && BytesAgree(items, told, since.rows) && RowsAgree(items, told, since.log)
    requires LookAgrees(items, told, since) && BetweenTurns(told) && BetweenTurns(e) && Mirrored(told.rows, e.rows)
    requires Look(items) == Look(Loaded(e).items) && since.rows <= |told.rows|
    ensures NoNotes(told.rows[since.rows..]) && !since.mixed && !since.stray && TellsBytes(told.rows, e.rows)
  {
    hide Look, Plain, BytesOf, RowsItems, Late, StoredLook, LiveLook, LiveFold, Kept, PlainOk, EngineOk, StreamItems, Prompts,
      Calls, Log, NumBacked, Visible;
    forall step: nat, r: bool ensures BytesOf(items, step, r) == BytesOf(Loaded(e).items, step, r) {
      LookTells(items, step, r);
      LookTells(Loaded(e).items, step, r);
    }
    LoadLook(e);
    assert StoredLook(e.rows) + [] == StoredLook(e.rows);
    if since.stray {
      var step: nat, r: bool :| !Kept(told, step) && BytesOf(items, step, r) != "";
      KeptSame(told, e, step);
      UnkeptEmpty(e, step, r);
      assert false;
    }
    SamePlain(items, told, since.log, e);
    if since.mixed {
      var step: nat :| Late(Plain(items), step);
      StoredNotLate(e, e.rows, step);
      assert false;
    }
    LoadBytesAgree(e);
    SameReplies(items, told, since.rows, e);
  }

  lemma {:induction false} SamePlain(items: seq<Item>, told: Engine, log: seq<Told>, e: Engine)
    requires RowsAgree(items, told, log) && SameShape(told.rows, e.rows) && e.inFlight.None?
    requires Look(items) == Look(Loaded(e).items)
    ensures Plain(items) == Plain(Loaded(e).items)
  {
    hide Look, Plain, RowsItems, Prompts, Calls, Log, NumBacked, Visible, Outputs, Loaded, SameShape;
    LookTells(items, 0, true);
    LookTells(Loaded(e).items, 0, true);
    VisibleOutputs(items);
    VisibleOutputs(Loaded(e).items);
    LoadedLog(e);
    NoExtras(items, told, log, e.rows);
    RowsBacked(e.rows);
    LookPlain(items);
    LookPlain(Loaded(e).items);
  }

  lemma {:induction false} KeptSame(told: Engine, e: Engine, step: nat)
    requires BetweenTurns(told) && BetweenTurns(e) && Mirrored(told.rows, e.rows) && !Kept(told, step)
    ensures !Kept(e, step)
  {
    forall i | 0 <= i < |e.rows| && e.rows[i].AssistantRow? ensures e.rows[i].step != step {
      assert told.rows[i].AssistantRow? && told.rows[i].step == e.rows[i].step;
    }
  }

  lemma {:induction false} SameReplies(items: seq<Item>, told: Engine, loaded: nat, e: Engine)
    requires BytesAgree(items, told, loaded) && BytesAgree(Loaded(e).items, e, |e.rows|)
    requires Mirrored(told.rows, e.rows) && loaded <= |told.rows|
    requires forall step: nat, r: bool :: BytesOf(items, step, r) == BytesOf(Loaded(e).items, step, r)
    ensures NoNotes(told.rows[loaded..]) && TellsBytes(told.rows, e.rows)
  {
    hide BytesOf, Loaded;
    forall k | 0 <= k < |e.rows| && told.rows[k].AssistantRow? && e.rows[k].AssistantRow?
      ensures told.rows[k].text == e.rows[k].text && told.rows[k].reasoning == e.rows[k].reasoning
      ensures k >= loaded ==> told.rows[k].note == ""
    {
      var t, row := told.rows[k], e.rows[k];
      assert t.text + (if k < loaded then t.note else "") == row.text + row.note;
      assert |t.text + (if k < loaded then t.note else "")| == |t.text| + (if k < loaded then |t.note| else 0);
      assert |row.text + row.note| == |row.text| + |row.note|;
      assert t.text <= t.text + (if k < loaded then t.note else "");
    }
    var rest := told.rows[loaded..];
    forall k | 0 <= k < |rest| && rest[k].AssistantRow? ensures rest[k].note == "" {
      assert rest[k] == told.rows[loaded + k];
    }
  }

  lemma {:induction false} UnkeptEmpty(e: Engine, step: nat, r: bool)
    requires EngineOk(e) && !Kept(e, step)
    ensures BytesOf(Loaded(e).items, step, r) == ""
  {
    LoadBytes(e, step, r);
    RowsBytes(e, e.rows, step, r);
  }
}
