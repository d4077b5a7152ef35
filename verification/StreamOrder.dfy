/** The order in which prompts, calls and results show: a reload shows all
    calls of a reply before its results, the live view each call just before
    its own result. A call the turn ended without announcing never shows live. */
module StreamOrder {
  import opened Wrappers
  import opened StreamEngine
  import opened StreamWindow
  import opened StreamReplay

  /** A result, whatever it says. */
  const RESULT := ResultItem("", "")

  function EntryOf(it: Item): seq<Item> {
    if it.PromptItem? || it.CallItem? then [it] else if it.ResultItem? then [RESULT] else []
  }

  /** What rows stand behind, bytes and what results say apart. */
  function Entries(items: seq<Item>): seq<Item> {
    if items == [] then [] else Entries(items[..|items| - 1]) + EntryOf(items[|items| - 1])
  }

  lemma {:induction false} EntriesJoin(a: seq<Item>, b: seq<Item>)
    ensures Entries(a + b) == Entries(a) + Entries(b)
    decreases |b|
  {
    hide EntryOf;
    if b == [] {
      assert a + b == a;
    } else {
      var n := |b| - 1;
      assert (a + b)[..|a| + n] == a + b[..n];
      EntriesJoin(a, b[..n]);
    }
  }

  lemma {:induction false} EntriesPush(items: seq<Item>, it: Item)
    ensures Entries(items + [it]) == Entries(items) + EntryOf(it)
  {
    assert (items + [it])[..|items|] == items;
  }

  lemma {:induction false} EntriesBytes(items: seq<Item>, p: nat, r: bool, d: string)
    ensures Entries(AddBytes(items, p, r, d)) == Entries(items)
  {
    if d != "" {
      EntriesPush(items, Bytes(p, r, d));
    }
  }

  lemma {:induction false} EntriesCalls(calls: seq<Call>)
    ensures Entries(CallItems(calls)) == CallItems(calls)
    decreases |calls|
  {
    if calls != [] {
      var n := |calls| - 1;
      EntriesCalls(calls[..n]);
      assert CallItems(calls)[..n] == CallItems(calls[..n]);
      assert CallItems(calls) == CallItems(calls[..n]) + [CallItem(calls[n].text)];
    }
  }

  /** Calls that show, by what shows of them. */
  function CallEntries(texts: seq<string>): (r: seq<Item>)
    ensures |r| == |texts|
  {
    seq(|texts|, i requires 0 <= i < |texts| => CallItem(texts[i]))
  }

  lemma {:induction false} CallsByText(calls: seq<Call>)
    ensures CallItems(calls) == CallEntries(CallTexts(calls))
  {
  }

  /** Entries say all that is said of prompts and calls. */
  lemma {:induction false} EntriesSay(items: seq<Item>)
    ensures Calls(Entries(items)) == Calls(items) && Prompts(Entries(items)) == Prompts(items)
    decreases |items|
  {
    if items != [] {
      var n := |items| - 1;
      EntriesSay(items[..n]);
      OneItem(items[..n], items[n], 0, true);
      assert items == items[..n] + [items[n]];
      EntriesPush(items[..n], items[n]);
      if EntryOf(items[n]) != [] {
        OneItem(Entries(items[..n]), EntryOf(items[n])[0], 0, true);
        assert EntryOf(items[n]) == [EntryOf(items[n])[0]];
      } else {
        assert Entries(items[..n]) + [] == Entries(items[..n]);
      }
    }
  }

  function RowEntries(row: Row): seq<Item> {
    match row
    case PromptRow(t) => [PromptItem(t)]
    case AssistantRow(_, _, _, _, calls) => CallItems(calls)
    case ResultRow(_, _) => [RESULT]
    case LeftRow => []
  }

  /** The entries a reload shows. */
  function Stored(rows: seq<Row>): seq<Item> {
    Entries(RowsItems(rows))
  }

  lemma {:induction false} StoredPush(rows: seq<Row>, row: Row)
    ensures Stored(rows + [row]) == Stored(rows) + RowEntries(row)
  {
    assert (rows + [row])[..|rows|] == rows;
    EntriesJoin(RowsItems(rows), RowItems(row));
    RowEntriesAre(row);
  }

  lemma {:induction false} RowEntriesAre(row: Row)
    ensures Entries(RowItems(row)) == RowEntries(row)
  {
    match row
    case PromptRow(t) => EntriesPush([], PromptItem(t)); assert [] + [PromptItem(t)] == [PromptItem(t)];
    case ResultRow(c, o) => EntriesPush([], ResultItem(c, o)); assert [] + [ResultItem(c, o)] == [ResultItem(c, o)];
    case LeftRow =>
    case AssistantRow(p, r, t, note, calls) =>
      var items := AddBytes(AddBytes([], p, true, r), p, false, t + note);
      EntriesBytes([], p, true, r);
      EntriesBytes(AddBytes([], p, true, r), p, false, t + note);
      EntriesJoin(items, CallItems(calls));
      EntriesCalls(calls);
  }

  lemma {:induction false} NothingStored()
    ensures Stored([]) == []
  {
  }

  lemma {:induction false} StoredJoin(a: seq<Row>, b: seq<Row>)
    ensures Stored(a + b) == Stored(a) + Stored(b)
    decreases |b|
  {
    hide Entries, RowsItems;
    if b == [] {
      assert a + b == a;
      NothingStored();
    } else {
      var n := |b| - 1;
      assert a + b == (a + b[..n]) + [b[n]] && b == b[..n] + [b[n]];
      StoredJoin(a, b[..n]);
      StoredPush(a + b[..n], b[n]);
      StoredPush(b[..n], b[n]);
    }
  }

  // ---- The live order ----

  /** `quiet` calls were already shown by the load and owe only their result;
      `owed` are calls that show when they are announced. */
  datatype Live = Live(items: seq<Item>, quiet: nat, owed: seq<string>)

  /** The next prompt or reply ends the turn: what is owed never shows. A call
      announced and left without a result shows, and ends the turn too. */
  function LiveStep(l: Live, row: Row): Live {
    match row
    case PromptRow(t) => Live(l.items + [PromptItem(t)], 0, [])
    case AssistantRow(_, _, _, _, calls) => Live(l.items, 0, CallTexts(calls))
    case ResultRow(_, _) =>
      if l.quiet > 0 then l.(items := l.items + [RESULT], quiet := l.quiet - 1)
      else if l.owed != [] then l.(items := l.items + [CallItem(l.owed[0]), RESULT], owed := l.owed[1..])
      else l.(items := l.items + [RESULT])
    case LeftRow => Live(if l.quiet == 0 && l.owed != [] then l.items + [CallItem(l.owed[0])] else l.items, 0, [])
  }

  function LiveFold(rows: seq<Row>, quiet: nat): Live {
    if rows == [] then Live([], quiet, []) else LiveStep(LiveFold(rows[..|rows| - 1], quiet), rows[|rows| - 1])
  }

  /** How many calls of the newest reply were not announced yet. */
  function Owing(rows: seq<Row>): nat {
    if rows == [] then 0
    else
      var n := |rows| - 1;
      match rows[n]
      case PromptRow(_) => 0
      case AssistantRow(_, _, _, _, calls) => |calls|
      case ResultRow(_, _) => if Owing(rows[..n]) > 0 then Owing(rows[..n]) - 1 else 0
      case LeftRow => 0
  }

  /** How many calls a turn ended without announcing. */
  function Skipped(rows: seq<Row>): nat {
    if rows == [] then 0
    else
      var n := |rows| - 1;
      Skipped(rows[..n])
      + (if rows[n].ResultRow? then 0
         else if rows[n].LeftRow? then if Owing(rows[..n]) > 0 then Owing(rows[..n]) - 1 else 0
         else Owing(rows[..n]))
  }

  /** Every call of these replies was announced. */
  predicate AllAnnounced(rows: seq<Row>) {
    Owing(rows) == 0 && Skipped(rows) == 0
  }

  predicate SingleCalls(rows: seq<Row>) {
    forall k :: 0 <= k < |rows| && rows[k].AssistantRow? ==> |rows[k].calls| <= 1
  }

  lemma {:induction false} LivePush(rows: seq<Row>, row: Row, quiet: nat)
    ensures LiveFold(rows + [row], quiet) == LiveStep(LiveFold(rows, quiet), row)
  {
    assert (rows + [row])[..|rows|] == rows;
  }

  lemma {:induction false} NothingLive(quiet: nat)
    ensures LiveFold([], quiet) == Live([], quiet, [])
  {
  }

  lemma {:induction false} OwedCount(rows: seq<Row>, quiet: nat)
    ensures var l := LiveFold(rows, quiet); |l.owed| == Owing(rows) && (l.quiet > 0 ==> l.owed == [])
    decreases |rows|
  {
    if rows != [] {
      OwedCount(rows[..|rows| - 1], quiet);
    }
  }

  // ---- Which calls show ----

  /** The row announces the first of the calls owed. */
  predicate Announces(l: Live, row: Row) {
    (row.ResultRow? || row.LeftRow?) && l.quiet == 0 && l.owed != []
  }

  lemma {:induction false} StepCalls(l: Live, row: Row)
    ensures Calls(LiveStep(l, row).items) == Calls(l.items) + (if Announces(l, row) then [l.owed[0]] else [])
  {
    if row.PromptRow? {
      OneItem(l.items, PromptItem(row.text), 0, true);
    } else if row.ResultRow? {
      OneItem(l.items, RESULT, 0, true);
      if l.quiet == 0 && l.owed != [] {
        var c := CallItem(l.owed[0]);
        assert l.items + [c, RESULT] == (l.items + [c]) + [RESULT];
        OneItem(l.items, c, 0, true);
        OneItem(l.items + [c], RESULT, 0, true);
      }
    } else if row.LeftRow? && l.quiet == 0 && l.owed != [] {
      OneItem(l.items, CallItem(l.owed[0]), 0, true);
    }
  }

  lemma {:induction false} RowCalls(rows: seq<Row>, row: Row)
    ensures Calls(Stored(rows + [row])) == Calls(Stored(rows)) + (if row.AssistantRow? then CallTexts(row.calls) else [])
  {
    hide Entries, RowsItems;
    EntriesSay(RowsItems(rows + [row]));
    EntriesSay(RowsItems(rows));
    RowsPush(rows, row, 0, true);
  }

  /** One more row: what shows, what is owed and what is stored of calls. */
  lemma {:induction false} CallsNext(rows: seq<Row>, quiet: nat)
    requires rows != []
    ensures var n := |rows| - 1;
            var l, l' := LiveFold(rows[..n], quiet), LiveFold(rows, quiet);
            && Calls(l'.items) == (if Announces(l, rows[n]) then Calls(l.items) + [l.owed[0]] else Calls(l.items))
            && l'.owed == (if rows[n].AssistantRow? then CallTexts(rows[n].calls)
                           else if rows[n].PromptRow? || rows[n].LeftRow? then []
                           else if Announces(l, rows[n]) then l.owed[1..] else l.owed)
            && Calls(Stored(rows)) == (if rows[n].AssistantRow? then Calls(Stored(rows[..n])) + CallTexts(rows[n].calls)
                                       else Calls(Stored(rows[..n])))
  {
    hide Entries, RowsItems, Stored, Calls;
    var n := |rows| - 1;
    var l := LiveFold(rows[..n], quiet);
    StepCalls(l, rows[n]);
    assert rows == rows[..n] + [rows[n]];
    RowCalls(rows[..n], rows[n]);
    assert Calls(l.items) + [] == Calls(l.items);
    assert Calls(Stored(rows[..n])) + [] == Calls(Stored(rows[..n]));
  }

  /** No call shows twice or from nowhere. */
  lemma {:induction false} CallsOnce(rows: seq<Row>, quiet: nat)
    ensures var l := LiveFold(rows, quiet); multiset(Calls(l.items)) + multiset(l.owed) <= multiset(Calls(Stored(rows)))
    decreases |rows|
  {
    hide LiveFold, Stored, Calls;
    if rows == [] {
      NothingStored();
      NothingLive(quiet);
      NothingShows(0, true);
    } else {
      var n := |rows| - 1;
      CallsOnce(rows[..n], quiet);
      CallsNext(rows, quiet);
      var l, stored := LiveFold(rows[..n], quiet), Calls(Stored(rows[..n]));
      if Announces(l, rows[n]) {
        TakeOwed(Calls(l.items), l.owed, stored);
      } else if !rows[n].ResultRow? {
        OweMore(Calls(l.items), l.owed, stored, if rows[n].AssistantRow? then CallTexts(rows[n].calls) else []);
        assert stored + [] == stored;
      }
    }
  }

  /** As many are missing as are still owed or were skipped. */
  lemma {:induction false} CallsMissing(rows: seq<Row>, quiet: nat)
    ensures |Calls(LiveFold(rows, quiet).items)| + Owing(rows) + Skipped(rows) == |Calls(Stored(rows))|
    decreases |rows|
  {
    hide LiveFold, Stored, Calls;
    if rows == [] {
      NothingStored();
      NothingLive(quiet);
      NothingShows(0, true);
    } else {
      CallsMissing(rows[..|rows| - 1], quiet);
      CallsNext(rows, quiet);
      OwedCount(rows, quiet);
      OwedCount(rows[..|rows| - 1], quiet);
    }
  }

  lemma {:induction false} CallsSame(rows: seq<Row>, quiet: nat)
    requires Skipped(rows) == 0
    ensures var l := LiveFold(rows, quiet); Calls(l.items) + l.owed == Calls(Stored(rows))
    decreases |rows|
  {
    hide LiveFold, Stored, Calls;
    if rows == [] {
      NothingStored();
      NothingLive(quiet);
      NothingShows(0, true);
    } else {
      var n := |rows| - 1;
      CallsSame(rows[..n], quiet);
      CallsNext(rows, quiet);
      OwedCount(rows[..n], quiet);
      var l, stored := LiveFold(rows[..n], quiet), Calls(Stored(rows[..n]));
      assert l.owed == [] ==> Calls(l.items) + l.owed == Calls(l.items);
      assert l.owed != [] ==> (Calls(l.items) + [l.owed[0]]) + l.owed[1..] == Calls(l.items) + l.owed;
      assert |l.owed| == 1 ==> l.owed[1..] == [];
    }
  }

  /** The live view's calls are the stored ones exactly when each was
      announced. */
  lemma {:induction false} CallsExact(rows: seq<Row>, quiet: nat)
    ensures Calls(LiveFold(rows, quiet).items) == Calls(Stored(rows)) <==> AllAnnounced(rows)
  {
    hide LiveFold, Stored, Calls, Owing, Skipped;
    CallsMissing(rows, quiet);
    if AllAnnounced(rows) {
      CallsSame(rows, quiet);
      OwedCount(rows, quiet);
      assert Calls(LiveFold(rows, quiet).items) + [] == Calls(LiveFold(rows, quiet).items);
    }
  }

  lemma {:induction false} TakeOwed(shown: seq<string>, owed: seq<string>, stored: seq<string>)
    requires multiset(shown) + multiset(owed) <= multiset(stored) && owed != []
    ensures multiset(shown + [owed[0]]) + multiset(owed[1..]) <= multiset(stored)
    ensures shown + owed == stored ==> (shown + [owed[0]]) + owed[1..] == stored
  {
    assert owed == [owed[0]] + owed[1..];
  }

  lemma {:induction false} OweMore(shown: seq<string>, owed: seq<string>, stored: seq<string>, calls: seq<string>)
    requires multiset(shown) + multiset(owed) <= multiset(stored)
    ensures multiset(shown) + multiset(calls) <= multiset(stored + calls)
    ensures shown + owed == stored && owed == [] ==> shown + calls == stored + calls
  {
    assert multiset(shown) <= multiset(stored);
    assert owed == [] ==> shown + owed == shown;
  }

  // ---- When the orders agree ----

  lemma {:induction false} SingleStep(l: Live, row: Row, shown: seq<Item>)
    requires l.items + CallEntries(l.owed) == shown && |l.owed| <= 1 && (l.quiet > 0 ==> l.owed == [])
    requires row.ResultRow? || row.LeftRow? || l.owed == []
    requires row.AssistantRow? ==> |row.calls| <= 1
    ensures var l' := LiveStep(l, row);
            && l'.items + CallEntries(l'.owed) == shown + RowEntries(row)
            && |l'.owed| <= 1 && (l'.quiet > 0 ==> l'.owed == [])
  {
    var l' := LiveStep(l, row);
    assert CallEntries([]) == [];
    assert l.items + CallEntries([]) == l.items;
    if row.AssistantRow? {
      CallsByText(row.calls);
    } else if Announces(l, row) {
      assert CallEntries(l.owed) == [CallItem(l.owed[0])];
      assert l'.owed == [];
      assert l'.items == l.items + CallEntries(l.owed) + RowEntries(row);
      assert l'.items + CallEntries([]) == l'.items;
    } else {
      assert l'.items + CallEntries([]) == l'.items;
      assert row.LeftRow? ==> shown + [] == shown;
    }
  }

  /** One call at a time: the orders agree, but for a call not shown yet. */
  lemma {:induction false} SingleAgrees(rows: seq<Row>, quiet: nat)
    requires Skipped(rows) == 0 && SingleCalls(rows)
    ensures var l := LiveFold(rows, quiet);
            && l.items + CallEntries(l.owed) == Stored(rows)
            && |l.owed| <= 1 && (l.quiet > 0 ==> l.owed == [])
    decreases |rows|
  {
    if rows == [] {
      assert CallEntries([]) == [];
    } else {
      hide Entries, RowsItems, LiveStep, RowEntries, Stored, CallEntries;
      var n := |rows| - 1;
      SingleAgrees(rows[..n], quiet);
      OwedCount(rows[..n], quiet);
      assert rows == rows[..n] + [rows[n]];
      StoredPush(rows[..n], rows[n]);
      SingleStep(LiveFold(rows[..n], quiet), rows[n], Stored(rows[..n]));
    }
  }

  lemma {:induction false} LiveGrows(rows: seq<Row>, quiet: nat, n: nat)
    requires n <= |rows|
    ensures LiveFold(rows[..n], quiet).items <= LiveFold(rows, quiet).items
    decreases |rows| - n
  {
    if n < |rows| {
      assert rows[..n + 1][..n] == rows[..n];
      LiveGrows(rows, quiet, n + 1);
    } else {
      assert rows[..n] == rows;
    }
  }

  lemma {:induction false} StoredGrows(rows: seq<Row>, n: nat)
    requires n <= |rows|
    ensures Stored(rows[..n]) <= Stored(rows)
    decreases |rows| - n
  {
    if n < |rows| {
      assert rows[..n + 1] == rows[..n] + [rows[n]];
      StoredPush(rows[..n], rows[n]);
      StoredGrows(rows, n + 1);
    } else {
      assert rows[..n] == rows;
    }
  }

  lemma {:induction false} SkippedGrows(rows: seq<Row>, n: nat)
    requires n <= |rows|
    ensures Skipped(rows[..n]) <= Skipped(rows)
    ensures n < |rows| && !rows[n].ResultRow? && !rows[n].LeftRow? ==> Owing(rows[..n]) <= Skipped(rows)
    ensures n < |rows| && rows[n].LeftRow? ==> Owing(rows[..n]) <= Skipped(rows) + 1
    decreases |rows| - n
  {
    if n < |rows| {
      assert rows[..n + 1][..n] == rows[..n];
      SkippedGrows(rows, n + 1);
    } else {
      assert rows[..n] == rows;
    }
  }

  lemma {:induction false} FirstMany(rows: seq<Row>) returns (j: nat)
    requires !SingleCalls(rows)
    ensures j < |rows| && rows[j].AssistantRow? && |rows[j].calls| > 1 && SingleCalls(rows[..j])
  {
    j := 0;
    while !(rows[j].AssistantRow? && |rows[j].calls| > 1)
      invariant j < |rows|
      invariant forall k :: 0 <= k < j && rows[k].AssistantRow? ==> |rows[k].calls| <= 1
      invariant exists k :: j <= k < |rows| && rows[k].AssistantRow? && |rows[k].calls| > 1
      decreases |rows| - j
    {
      j := j + 1;
    }
  }

  /** The live order is the stored order exactly when no reply stored since the
      load made more than one call, and every one was announced. */
  lemma {:induction false} OrderExact(rows: seq<Row>, quiet: nat)
    ensures LiveFold(rows, quiet).items == Stored(rows) <==> SingleCalls(rows) && AllAnnounced(rows)
  {
    hide Stored, LiveFold;
    CallsExact(rows, quiet);
    OwedCount(rows, quiet);
    if AllAnnounced(rows) {
      if SingleCalls(rows) {
        SingleAgrees(rows, quiet);
        assert LiveFold(rows, quiet).items + CallEntries([]) == LiveFold(rows, quiet).items;
      } else {
        var j := FirstMany(rows);
        ManyDiffers(rows, quiet, j);
      }
    }
  }

  /** A reload shows the second call right after the first. */
  lemma {:induction false} SecondStored(rows: seq<Row>, j: nat)
    requires j < |rows| && rows[j].AssistantRow? && |rows[j].calls| > 1
    ensures var n := |Stored(rows[..j])|; n + 1 < |Stored(rows)| && Stored(rows)[n + 1].CallItem?
  {
    hide Stored;
    var head, calls := Stored(rows[..j]), CallItems(rows[j].calls);
    assert rows[..j + 1] == rows[..j] + [rows[j]];
    StoredPush(rows[..j], rows[j]);
    StoredGrows(rows, j + 1);
    assert (head + calls)[|head| + 1] == calls[1];
  }

  /** The live view shows a result there. */
  lemma {:induction false} SecondLive(rows: seq<Row>, quiet: nat, j: nat)
    requires AllAnnounced(rows)
    requires j < |rows| && rows[j].AssistantRow? && |rows[j].calls| > 1
    ensures var n := |LiveFold(rows[..j], quiet).items|;
            n + 1 < |LiveFold(rows, quiet).items| && LiveFold(rows, quiet).items[n + 1].ResultItem?
  {
    hide LiveFold, Skipped;
    var l := LiveFold(rows[..j], quiet);
    assert rows[..j + 1] == rows[..j] + [rows[j]];
    LivePush(rows[..j], rows[j], quiet);
    assert Owing(rows[..j + 1]) == |rows[j].calls|;
    assert j + 1 < |rows| by {
      assert rows[..|rows|] == rows;
    }
    SkippedGrows(rows, j + 1);
    assert rows[j + 1].ResultRow?;
    assert rows[..j + 2] == rows[..j + 1] + [rows[j + 1]];
    LivePush(rows[..j + 1], rows[j + 1], quiet);
    LiveGrows(rows, quiet, j + 2);
    assert LiveFold(rows[..j + 2], quiet).items[|l.items| + 1].ResultItem?;
  }

  lemma {:induction false} ManyDiffers(rows: seq<Row>, quiet: nat, j: nat)
    requires AllAnnounced(rows)
    requires j < |rows| && rows[j].AssistantRow? && |rows[j].calls| > 1 && SingleCalls(rows[..j])
    ensures LiveFold(rows, quiet).items != Stored(rows)
  {
    hide Stored, LiveFold, Skipped, Owing;
    SkippedGrows(rows, j);
    SingleAgrees(rows[..j], quiet);
    OwedCount(rows[..j], quiet);
    var l := LiveFold(rows[..j], quiet);
    assert l.items + CallEntries([]) == l.items;
    SecondStored(rows, j);
    SecondLive(rows, quiet, j);
  }

  /** A reply with two calls: live, each call is followed by its result;
      reloaded, both calls come first. */
  lemma {:induction false} TwoCallsDiffer(a: Call, b: Call, x: string, y: string)
    ensures var rows := [AssistantRow(0, "", "", "", [a, b]), ResultRow(a.id, x), ResultRow(b.id, y)];
            && AllAnnounced(rows)
            && LiveFold(rows, 0).items == [CallItem(a.text), RESULT, CallItem(b.text), RESULT]
            && Stored(rows) == [CallItem(a.text), CallItem(b.text), RESULT, RESULT]
  {
    hide Entries, RowsItems, LiveFold, Stored;
    var r0, r1, r2 := AssistantRow(0, "", "", "", [a, b]), ResultRow(a.id, x), ResultRow(b.id, y);
    NothingLive(0);
    NothingStored();
    LivePush([], r0, 0);
    StoredPush([], r0);
    assert [] + [r0] == [r0] && CallTexts([a, b]) == [a.text, b.text];
    LivePush([r0], r1, 0);
    StoredPush([r0], r1);
    assert [r0] + [r1] == [r0, r1] && [a.text, b.text][1..] == [b.text];
    LivePush([r0, r1], r2, 0);
    StoredPush([r0, r1], r2);
    assert [r0, r1] + [r2] == [r0, r1, r2];
    OwingStep([], r0);
    OwingStep([r0], r1);
    OwingStep([r0, r1], r2);
  }

  lemma {:induction false} OwingStep(rows: seq<Row>, row: Row)
    ensures Owing(rows + [row]) == (match row
                                    case PromptRow(_) => 0
                                    case AssistantRow(_, _, _, _, calls) => |calls|
                                    case ResultRow(_, _) => if Owing(rows) > 0 then Owing(rows) - 1 else 0
                                    case LeftRow => 0)
    ensures row.ResultRow? ==> Skipped(rows + [row]) == Skipped(rows)
    ensures row.PromptRow? || row.AssistantRow? ==> Skipped(rows + [row]) == Skipped(rows) + Owing(rows)
    ensures row.LeftRow? && Owing(rows) <= 1 ==> Skipped(rows + [row]) == Skipped(rows)
  {
    assert (rows + [row])[..|rows|] == rows;
  }

  // ---- The live order and the engine ----

  /** What the transcript shows of entries: those loaded, then the live order
      of the rows since, then the call that is running. While a turn has calls
      open, the rows since the load tell which. */
  ghost predicate OrderAgrees(items: seq<Item>, g: nat, e: Engine, since: Since) {
    since.rows <= |e.rows| &&
    var l := LiveFold(e.rows[since.rows..], since.quiet);
    && (Open(e) != [] && l.quiet > 0 ==> l.quiet == |Open(e)| && e.assistantGen <= g)
    && (Open(e) != [] && l.quiet == 0 ==> l.owed == CallTexts(Open(e)) && e.assistantGen > g)
    && Entries(items) == Stored(e.rows[..since.rows]) + l.items
                         + (if e.running.Some? && l.quiet == 0 then [CallItem(e.running.value.text)] else [])
  }

  lemma {:induction false} OrderLoad(e: Engine)
    requires EngineOk(e)
    ensures OrderAgrees(Loaded(e).items, e.rowGen, e, SinceLoad(e))
  {
    hide Entries, RowsItems, AddBytes, Log;
    EntriesJoin(RowsItems(e.rows), StreamItems(e.inFlight));
    assert e.rows[..|e.rows|] == e.rows;
    NoEntries(e.inFlight);
  }

  lemma {:induction false} NoEntries(s: Option<Stream>)
    ensures Entries(StreamItems(s)) == []
  {
    if s.Some? {
      var f := s.value;
      EntriesBytes([], f.step, true, f.reasoning);
      EntriesBytes(AddBytes([], f.step, true, f.reasoning), f.step, false, f.text);
    }
  }

  /** Actions that store no row and announce no call. */
  lemma {:induction false} OrderStream(w: Window, e: Engine, a: Action, since: Since)
    requires EngineOk(e) && OrderAgrees(w.items, w.rowGen, e, since) && Allowed(e, a)
    requires a.Begin? || a.Again? || a.Abort? || a.Text? || a.Reason? || a.Drop?
    ensures OrderAgrees(Follow(w, e, a).items, w.rowGen, Act(e, a).0, since)
  {
    hide Entries, LiveFold, AddBytes, Stored;
    if a.Text? || a.Reason? {
      EntriesBytes(w.items, e.inFlight.value.step, a.Reason?, a.delta);
    } else if a.Drop? {
      EntriesPush(w.items, ExtraItem(a.callId, a.error));
    }
  }

  lemma {:induction false} RestPush(e: Engine, row: Row, since: Since)
    requires since.rows <= |e.rows|
    ensures (e.rows + [row])[since.rows..] == e.rows[since.rows..] + [row]
    ensures (e.rows + [row])[..since.rows] == e.rows[..since.rows]
  {
  }

  lemma {:induction false} OrderPersist(w: Window, e: Engine, a: Action, since: Since)
    requires EngineOk(e) && OrderAgrees(w.items, w.rowGen, e, since) && Allowed(e, a) && w.rowGen <= e.rowGen
    requires a.Persist?
    ensures OrderAgrees(Follow(w, e, a).items, w.rowGen, Act(e, a).0, since)
  {
    hide Entries, LiveFold, Stored;
    var row := Act(e, a).0.rows[|e.rows|];
    RestPush(e, row, since);
    LivePush(e.rows[since.rows..], row, since.quiet);
    assert Open(Act(e, a).0) == a.calls;
  }

  lemma {:induction false} OrderPrompt(w: Window, e: Engine, a: Action, since: Since)
    requires EngineOk(e) && OrderAgrees(w.items, w.rowGen, e, since) && Allowed(e, a) && w.rowGen <= e.rowGen
    requires a.Prompt?
    ensures OrderAgrees(Follow(w, e, a).items, w.rowGen, Act(e, a).0, since)
  {
    hide Entries, LiveFold, Stored;
    var row := PromptRow(a.text);
    RestPush(e, row, since);
    LivePush(e.rows[since.rows..], row, since.quiet);
    EntriesPush(w.items, PromptItem(a.text));
  }

  lemma {:induction false} OrderAnnounce(w: Window, e: Engine, a: Action, since: Since)
    requires EngineOk(e) && OrderAgrees(w.items, w.rowGen, e, since) && Allowed(e, a)
    requires a.Announce?
    ensures OrderAgrees(Follow(w, e, a).items, w.rowGen, Act(e, a).0, since)
  {
    hide Entries, LiveFold, Stored;
    EntriesPush(w.items, CallItem(e.waiting[0].text));
    assert Open(Act(e, a).0) == Open(e);
  }

  lemma {:induction false} OpenRunning(e: Engine)
    requires e.running.Some?
    ensures CallTexts(Open(e)) == [e.running.value.text] + CallTexts(e.waiting)
  {
    assert Open(e) == [e.running.value] + e.waiting;
  }

  lemma {:induction false} OrderFinish(w: Window, e: Engine, a: Action, since: Since)
    requires EngineOk(e) && OrderAgrees(w.items, w.rowGen, e, since) && Allowed(e, a) && w.rowGen <= e.rowGen
    requires a.Finish?
    ensures OrderAgrees(Follow(w, e, a).items, w.rowGen, Act(e, a).0, since)
  {
    hide Entries, LiveFold, Stored, CallTexts;
    var row := ResultRow(e.running.value.id, a.output);
    var rest := e.rows[since.rows..];
    RestPush(e, row, since);
    LivePush(rest, row, since.quiet);
    OwedCount(rest, since.quiet);
    EntriesPush(w.items, ResultItem(e.running.value.id, a.output));
    OpenRunning(e);
    assert Open(e) == [e.running.value] + e.waiting && Open(Act(e, a).0) == e.waiting;
  }

  lemma {:induction false} OrderStop(w: Window, e: Engine, a: Action, since: Since)
    requires EngineOk(e) && OrderAgrees(w.items, w.rowGen, e, since) && Allowed(e, a) && a.Stop?
    ensures OrderAgrees(Follow(w, e, a).items, w.rowGen, Act(e, a).0, since)
  {
    hide Entries, LiveFold, Stored, CallTexts;
    if e.running.Some? {
      RestPush(e, LeftRow, since);
      LivePush(e.rows[since.rows..], LeftRow, since.quiet);
      OpenRunning(e);
    }
  }

  lemma {:induction false} RewrittenEntry(items: seq<Item>, i: nat, out: string)
    requires i < |items| && IsResult(items[i])
    ensures Entries(items[i := items[i].(output := out)]) == Entries(items)
    decreases |items|
  {
    hide Entries;
    var n := |items| - 1;
    var items' := items[i := items[i].(output := out)];
    assert items == items[..n] + [items[n]];
    EntriesPush(items[..n], items[n]);
    if i < n {
      RewrittenEntry(items[..n], i, out);
      assert items' == items[..n][i := items[i].(output := out)] + [items[n]];
      EntriesPush(items[..n][i := items[i].(output := out)], items[n]);
    } else {
      assert items' == items[..n] + [items[n].(output := out)];
      EntriesPush(items[..n], items[n].(output := out));
    }
  }

  /** An answer changes what a result says, not which entries there are. */
  lemma {:induction false} AnswerEntries(items: seq<Item>, gen: nat, c: string, out: string)
    ensures Entries(ShowResult(items, gen, c, out, true)) == Entries(items)
  {
    hide Entries, NewestShown;
    var i := NewestShown(items, c);
    if c != "" && i >= 0 {
      RewrittenEntry(items, i, out);
    } else {
      EntriesPush(items, ExtraItem(c, out));
      assert Entries(items) + [] == Entries(items);
    }
  }

  lemma {:induction false} AnswerOrder(w: Window, e: Engine, since: Since, c: string, out: string)
    requires OrderAgrees(w.items, w.rowGen, e, since) && w.rowGen <= e.rowGen
    ensures OrderAgrees(Handle(w, ToolResult(e.rowGen + 1, c, out, true)).items, w.rowGen, Answered(e), since)
  {
    hide Entries, LiveFold, Stored, ShowResult;
    AnswerEntries(w.items, e.rowGen + 1, c, out);
    assert Open(Answered(e)) == Open(e);
  }

  /** Every action told as it is keeps the order. */
  lemma {:induction false} OrderKept(w: Window, e: Engine, a: Action, since: Since)
    requires EngineOk(e) && OrderAgrees(w.items, w.rowGen, e, since) && Allowed(e, a) && w.rowGen <= e.rowGen
    requires !a.CutTail? && !a.Answer?
    ensures OrderAgrees(Follow(w, e, a).items, w.rowGen, Act(e, a).0, since)
  {
    hide EngineOk, OrderAgrees, Allowed;
    if a.Persist? {
      OrderPersist(w, e, a, since);
    } else if a.Prompt? {
      OrderPrompt(w, e, a, since);
    } else if a.Announce? {
      OrderAnnounce(w, e, a, since);
    } else if a.Finish? {
      OrderFinish(w, e, a, since);
    } else if a.Stop? {
      OrderStop(w, e, a, since);
    } else {
      OrderStream(w, e, a, since);
    }
  }

  /** The order does not depend on the rest of the books. */
  lemma {:induction false} BooksOnly(items: seq<Item>, g: nat, e: Engine, since: Since, since': Since)
    requires OrderAgrees(items, g, e, since) && since'.rows == since.rows && since'.quiet == since.quiet
    ensures OrderAgrees(items, g, e, since')
  {
    hide Entries, LiveFold, Stored;
  }

  // ---- What the user sees ----

  function Seen(it: Item): seq<Item> {
    if it.PromptItem? || it.CallItem? then [it] else if IsResult(it) then [ResultItem("", it.output)] else []
  }

  /** The entries as they look: an extra result looks like any, and ids do not
      show. */
  function Visible(items: seq<Item>): seq<Item> {
    if items == [] then [] else Visible(items[..|items| - 1]) + Seen(items[|items| - 1])
  }

  function Outputs(log: seq<Told>): (r: seq<string>)
    ensures |r| == |log|
  {
    seq(|log|, i requires 0 <= i < |log| => log[i].output)
  }

  lemma {:induction false} OutputsJoin(a: seq<Told>, b: seq<Told>)
    ensures Outputs(a + b) == Outputs(a) + Outputs(b)
  {
  }

  lemma {:induction false} VisiblePush(items: seq<Item>, it: Item)
    ensures Visible(items + [it]) == Visible(items) + Seen(it)
  {
    assert (items + [it])[..|items|] == items;
  }

  /** What is visible says what the results say. */
  lemma {:induction false} VisibleOutputs(items: seq<Item>)
    ensures Outputs(Log(Visible(items))) == Outputs(Log(items))
    decreases |items|
  {
    hide Log, Outputs, Visible;
    if items == [] {
      assert Visible(items) == [] by { NothingVisible(); }
    } else {
      var n := |items| - 1;
      VisibleOutputs(items[..n]);
      assert items == items[..n] + [items[n]];
      VisiblePush(items[..n], items[n]);
      OneItem(items[..n], items[n], 0, true);
      OutputsJoin(Log(items[..n]), ToldOf(items[n]));
      var before := Visible(items[..n]);
      if Seen(items[n]) == [] {
        assert before + [] == before && Log(items[..n]) + [] == Log(items[..n]);
      } else {
        var it := Seen(items[n])[0];
        assert Seen(items[n]) == [it];
        OneItem(before, it, 0, true);
        OutputsJoin(Log(before), ToldOf(it));
        assert Outputs(ToldOf(it)) == Outputs(ToldOf(items[n])) by { SameOutput(it, items[n]); }
      }
    }
  }

  lemma {:induction false} NothingVisible()
    ensures Visible([]) == []
  {
  }

  lemma {:induction false} SameOutput(a: Item, b: Item)
    requires Seen(b) == [a]
    ensures Outputs(ToldOf(a)) == Outputs(ToldOf(b))
  {
  }

  /** Entries with the outputs put in, last to last. */
  function Fill(entries: seq<Item>, outs: seq<string>): seq<Item> {
    if entries == [] then []
    else
      var n := |entries| - 1;
      if entries[n] == RESULT && outs != []
      then Fill(entries[..n], outs[..|outs| - 1]) + [ResultItem("", outs[|outs| - 1])]
      else Fill(entries[..n], outs) + [entries[n]]
  }

  /** With a row behind every result, what is visible is the entries with their
      outputs, and without outputs the entries. */
  lemma {:induction false} VisibleFilled(items: seq<Item>)
    requires forall k :: 0 <= k < |Log(items)| ==> Log(items)[k].backed
    ensures Visible(items) == Fill(Entries(items), Outputs(Log(items)))
    ensures Entries(Visible(items)) == Entries(items)
    decreases |items|
  {
    hide Log, Entries, Visible;
    if items == [] {
      NothingShows(0, true);
      NothingVisible();
      NothingEntered();
    } else {
      var n := |items| - 1;
      assert items == items[..n] + [items[n]];
      OneItem(items[..n], items[n], 0, true);
      EntriesPush(items[..n], items[n]);
      VisiblePush(items[..n], items[n]);
      var log := Log(items[..n]);
      assert forall k :: 0 <= k < |log| ==> log[k] == Log(items)[k];
      VisibleFilled(items[..n]);
      assert ToldOf(items[n]) != [] ==> ToldOf(items[n])[0] == Log(items)[|log|];
      if items[n].ResultItem? {
        assert Entries(items)[..|Entries(items[..n])|] == Entries(items[..n]);
        assert Outputs(Log(items))[..|log|] == Outputs(log);
        EntriesPush(Visible(items[..n]), ResultItem("", items[n].output));
      } else if items[n].PromptItem? || items[n].CallItem? {
        assert Entries(items)[..|Entries(items[..n])|] == Entries(items[..n]);
        assert log + [] == log;
        EntriesPush(Visible(items[..n]), items[n]);
      } else {
        assert log + [] == log && Entries(items[..n]) + [] == Entries(items[..n]);
        assert Visible(items[..n]) + [] == Visible(items[..n]);
      }
    }
  }

  lemma {:induction false} NothingEntered()
    ensures Entries([]) == [] && Fill([], []) == []
  {
  }

  // ---- Rows as told and as stored ----

  /** Row by row the same kind, and as many calls. */
  predicate SameShape(a: seq<Row>, b: seq<Row>) {
    |a| == |b| && forall k :: 0 <= k < |a| ==>
      && (a[k].PromptRow? <==> b[k].PromptRow?) && (a[k].AssistantRow? <==> b[k].AssistantRow?)
      && (a[k].ResultRow? <==> b[k].ResultRow?)
      && (a[k].AssistantRow? ==> |a[k].calls| == |b[k].calls|)
  }

  /** Then there are as many calls and results, and with the same prompts and
      calls the entries are the same. */
  lemma {:induction false} ShapeStored(a: seq<Row>, b: seq<Row>)
    requires SameShape(a, b)
    ensures |Calls(RowsItems(a))| == |Calls(RowsItems(b))| && |Log(RowsItems(a))| == |Log(RowsItems(b))|
    ensures |Prompts(RowsItems(a))| == |Prompts(RowsItems(b))|
    ensures Prompts(RowsItems(a)) == Prompts(RowsItems(b)) && Calls(RowsItems(a)) == Calls(RowsItems(b)) ==>
              Stored(a) == Stored(b)
    decreases |a|
  {
    hide RowsItems, Stored, Calls, Prompts, Log, RowEntries;
    if a == [] {
      assert b == [];
    } else {
      var n := |a| - 1;
      assert a == a[..n] + [a[n]] && b == b[..n] + [b[n]];
      assert SameShape(a[..n], b[..n]);
      ShapeStored(a[..n], b[..n]);
      RowsPush(a[..n], a[n], 0, true);
      RowsPush(b[..n], b[n], 0, true);
      StoredPush(a[..n], a[n]);
      StoredPush(b[..n], b[n]);
      if Prompts(RowsItems(a)) == Prompts(RowsItems(b)) && Calls(RowsItems(a)) == Calls(RowsItems(b)) {
        LastEqual(Prompts(RowsItems(a[..n])), if a[n].PromptRow? then [a[n].text] else [],
                  Prompts(RowsItems(b[..n])), if b[n].PromptRow? then [b[n].text] else []);
        LastEqual(Calls(RowsItems(a[..n])), if a[n].AssistantRow? then CallTexts(a[n].calls) else [],
                  Calls(RowsItems(b[..n])), if b[n].AssistantRow? then CallTexts(b[n].calls) else []);
        RowEntriesSame(a[n], b[n]);
      }
    }
  }

  lemma {:induction false} LastEqual(a: seq<string>, x: seq<string>, b: seq<string>, y: seq<string>)
    requires a + x == b + y && |x| == |y|
    ensures a == b && x == y
  {
    assert |a| == |b|;
    assert a == (a + x)[..|a|] && b == (b + y)[..|b|];
    assert x == (a + x)[|a|..] && y == (b + y)[|b|..];
  }

  lemma {:induction false} RowEntriesSame(a: Row, b: Row)
    requires (a.PromptRow? <==> b.PromptRow?) && (a.AssistantRow? <==> b.AssistantRow?) && (a.ResultRow? <==> b.ResultRow?)
    requires a.PromptRow? && b.PromptRow? ==> a.text == b.text
    requires a.AssistantRow? && b.AssistantRow? ==> CallTexts(a.calls) == CallTexts(b.calls)
    ensures RowEntries(a) == RowEntries(b)
  {
    if a.AssistantRow? {
      CallsByText(a.calls);
      CallsByText(b.calls);
    }
  }

  /** Prompts, calls and results were told as they are stored, and no others. */
  predicate TellsEntries(since: Since, told: seq<Row>, rows: seq<Row>) {
    && Prompts(RowsItems(told)) == Prompts(RowsItems(rows)) && Calls(RowsItems(told)) == Calls(RowsItems(rows))
    && Outputs(since.log) == Outputs(Log(RowsItems(rows)))
  }

  /** When no call is open, the view looks in its entries exactly like a reload
      of these rows if no reply since the load made more than one call, every
      call was announced, and prompts, calls and results were told as they are
      stored. */
  lemma {:induction false} StoredOrder(items: seq<Item>, g: nat, e: Engine, since: Since, rows: seq<Row>)
    requires OrderAgrees(items, g, e, since) && RowsAgree(items, e, since.log) && Open(e) == [] && SameShape(e.rows, rows)
    ensures var rest := e.rows[since.rows..];
            Visible(items) == Visible(RowsItems(rows))
            <==> SingleCalls(rest) && AllAnnounced(rest) && TellsEntries(since, e.rows, rows)
  {
    hide Entries, LiveFold, Stored, SingleCalls, AllAnnounced, Visible, Log, Prompts, Calls, RowsItems, SameShape,
      NumBacked, Outputs, Fill;
    VisibleOutputs(items);
    VisibleOutputs(RowsItems(rows));
    ShapeStored(e.rows, rows);
    AllBacked(since.log);
    RowsBacked(rows);
    if Outputs(since.log) == Outputs(Log(RowsItems(rows))) {
      assert |since.log| == |Log(RowsItems(rows))|;
      VisibleFilled(items);
      VisibleFilled(RowsItems(rows));
      EntriesSay(items);
      EntriesSay(RowsItems(rows));
      StoredIs(rows);
      StoredCalls(items, g, e, since, rows);
      EntriesExact(items, g, e, since);
    }
  }

  /** The entries are the stored ones exactly when each reply's one call was
      announced. */
  lemma {:induction false} EntriesExact(items: seq<Item>, g: nat, e: Engine, since: Since)
    requires OrderAgrees(items, g, e, since) && Open(e) == []
    ensures since.rows <= |e.rows|
    ensures Entries(items) == Stored(e.rows)
            <==> SingleCalls(e.rows[since.rows..]) && AllAnnounced(e.rows[since.rows..])
  {
    hide Entries, LiveFold, Stored, SingleCalls, AllAnnounced;
    var head, rest := e.rows[..since.rows], e.rows[since.rows..];
    assert e.rows == head + rest;
    StoredJoin(head, rest);
    OrderExact(rest, since.quiet);
    var l := LiveFold(rest, since.quiet);
    assert Entries(items) == Stored(head) + l.items;
    assert (Stored(head) + l.items)[|Stored(head)|..] == l.items;
    assert (Stored(head) + Stored(rest))[|Stored(head)|..] == Stored(rest);
  }

  lemma {:induction false} StoredIs(rows: seq<Row>)
    ensures Stored(rows) == Entries(RowsItems(rows))
  {
  }

  /** The calls that show are the stored ones exactly when every call of a
      reply since the load was announced, and told as it is stored. */
  lemma {:induction false} StoredCalls(items: seq<Item>, g: nat, e: Engine, since: Since, rows: seq<Row>)
    requires OrderAgrees(items, g, e, since) && Open(e) == [] && SameShape(e.rows, rows)
    ensures since.rows <= |e.rows|
    ensures Calls(items) == Calls(RowsItems(rows))
            <==> AllAnnounced(e.rows[since.rows..]) && Calls(RowsItems(e.rows)) == Calls(RowsItems(rows))
  {
    hide Entries, LiveFold, Stored, RowsItems, Calls, Prompts, Log, SameShape, Skipped, Owing;
    var head, rest := e.rows[..since.rows], e.rows[since.rows..];
    assert e.rows == head + rest;
    StoredJoin(head, rest);
    CallsExact(rest, since.quiet);
    CallsMissing(rest, since.quiet);
    ShapeStored(e.rows, rows);
    var l := LiveFold(rest, since.quiet);
    EntriesSay(items);
    EntriesSay(RowsItems(e.rows));
    StoredIs(e.rows);
    assert Entries(items) == Stored(head) + l.items;
    ListsJoin(Stored(head), l.items);
    ListsJoin(Stored(head), Stored(rest));
    var first := Calls(Stored(head));
    assert (first + Calls(l.items))[|first|..] == Calls(l.items);
    assert (first + Calls(Stored(rest)))[|first|..] == Calls(Stored(rest));
  }

  /** At any time, open calls or not: each call shows at most as often as it is
      stored. */
  lemma {:induction false} CallsBounded(items: seq<Item>, g: nat, e: Engine, since: Since)
    requires OrderAgrees(items, g, e, since)
    ensures multiset(Calls(items)) <= multiset(Calls(RowsItems(e.rows)))
  {
    hide Entries, LiveFold, RowsItems, Calls, Prompts, Stored;
    var head, rest := e.rows[..since.rows], e.rows[since.rows..];
    assert e.rows == head + rest;
    StoredJoin(head, rest);
    StoredIs(e.rows);
    CallsOnce(rest, since.quiet);
    var l := LiveFold(rest, since.quiet);
    EntriesSay(items);
    EntriesSay(RowsItems(e.rows));
    ListsJoin(Stored(head), l.items);
    ListsJoin(Stored(head), Stored(rest));
    if e.running.Some? && l.quiet == 0 {
      var c := CallItem(e.running.value.text);
      OneItem(Stored(head) + l.items, c, 0, true);
      OpenRunning(e);
      assert multiset(l.owed) == multiset{e.running.value.text} + multiset(CallTexts(e.waiting));
    } else {
      assert Entries(items) == Stored(head) + l.items;
    }
  }
}
