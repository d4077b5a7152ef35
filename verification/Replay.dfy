/** The transcript a session is reloaded into: each row, and each complete
    checkpoint's summary where its boundary was. */
module Replay {
  import opened History
  import opened Store
  import opened StoreRuns

  datatype Shown = RowShown(row: Message) | SummaryShown(cp: Checkpoint)

  /** The summaries due after a row, from the k-th on. */
  function Due(cps: seq<Checkpoint>, k: nat, seq_: int): (r: nat)
    requires k <= |cps|
    ensures k <= r <= |cps|
    decreases |cps| - k
  {
    if k < |cps| && seq_ >= cps[k].through then Due(cps, k + 1, seq_) else k
  }

  function Summaries(cps: seq<Checkpoint>): (r: seq<Shown>)
    ensures |r| == |cps|
  {
    seq(|cps|, i requires 0 <= i < |cps| => SummaryShown(cps[i]))
  }

  /** How many summaries the rows have let through. */
  function Passed(rows: seq<Message>, cps: seq<Checkpoint>): (k: nat)
    ensures k <= |cps|
  {
    if rows == [] then 0 else Due(cps, Passed(rows[..|rows| - 1], cps), rows[|rows| - 1].seq_)
  }

  function Replayed(rows: seq<Message>, cps: seq<Checkpoint>): seq<Shown> {
    if rows == [] then []
    else
      var n := |rows| - 1;
      var k := Passed(rows[..n], cps);
      Replayed(rows[..n], cps) + [RowShown(rows[n])] + Summaries(cps[k..Due(cps, k, rows[n].seq_)])
  }

  method LoadTranscript(rows: seq<Message>, cps: seq<Checkpoint>) returns (out: seq<Shown>)
    ensures out == Replayed(rows, cps)
  {
    hide Due, Summaries;
    out := [];
    var cpIdx: nat := 0;
    for i := 0 to |rows|
      invariant out == Replayed(rows[..i], cps) && cpIdx == Passed(rows[..i], cps)
    {
      assert rows[..i + 1][..i] == rows[..i];
      out := out + [RowShown(rows[i])];
      out, cpIdx := ShowDue(cps, cpIdx, rows[i].seq_, out);
    }
    assert rows[..|rows|] == rows;
  }

  method ShowDue(cps: seq<Checkpoint>, from: nat, seq_: int, before: seq<Shown>) returns (out: seq<Shown>, cpIdx: nat)
    requires from <= |cps|
    ensures cpIdx == Due(cps, from, seq_) && out == before + Summaries(cps[from..cpIdx])
  {
    out, cpIdx := before, from;
    while cpIdx < |cps| && seq_ >= cps[cpIdx].through
      invariant from <= cpIdx <= |cps| && Due(cps, cpIdx, seq_) == Due(cps, from, seq_)
      invariant out == before + Summaries(cps[from..cpIdx])
    {
      out := out + [SummaryShown(cps[cpIdx])];
      cpIdx := cpIdx + 1;
    }
  }

  // ---- What the transcript holds ----

  function RowsOf(out: seq<Shown>): seq<Message> {
    if out == [] then []
    else
      var n := |out| - 1;
      RowsOf(out[..n]) + (if out[n].RowShown? then [out[n].row] else [])
  }

  function CpsOf(out: seq<Shown>): seq<Checkpoint> {
    if out == [] then []
    else
      var n := |out| - 1;
      CpsOf(out[..n]) + (if out[n].SummaryShown? then [out[n].cp] else [])
  }

  lemma {:induction false} OfSummaries(out: seq<Shown>, cps: seq<Checkpoint>)
    ensures RowsOf(out + Summaries(cps)) == RowsOf(out) && CpsOf(out + Summaries(cps)) == CpsOf(out) + cps
    decreases |cps|
  {
    if cps == [] {
      assert out + Summaries(cps) == out;
    } else {
      var n := |cps| - 1;
      OfSummaries(out, cps[..n]);
      var all := out + Summaries(cps);
      assert all[..|all| - 1] == out + Summaries(cps[..n]);
      assert cps == cps[..n] + [cps[n]];
    }
  }

  /** Whatever rows and checkpoints there are, every row shows once, in order,
      and so does each summary the rows let through. */
  lemma {:induction false} ReplayHolds(rows: seq<Message>, cps: seq<Checkpoint>)
    ensures RowsOf(Replayed(rows, cps)) == rows
    ensures CpsOf(Replayed(rows, cps)) == cps[..Passed(rows, cps)]
    decreases |rows|
  {
    hide Due, Summaries;
    if rows != [] {
      var n := |rows| - 1;
      ReplayHolds(rows[..n], cps);
      var k := Passed(rows[..n], cps);
      var k' := Due(cps, k, rows[n].seq_);
      var head := Replayed(rows[..n], cps);
      assert (head + [RowShown(rows[n])])[..|head|] == head;
      OfSummaries(head + [RowShown(rows[n])], cps[k..k']);
      assert cps[..k] + cps[k..k'] == cps[..k'];
      assert rows == rows[..n] + [rows[n]];
    }
  }

  // ---- With rows 1 to n and rising boundaries ----

  predicate Chain(cps: seq<Checkpoint>, n: nat) {
    && (forall k :: 0 <= k < |cps| ==> 0 < cps[k].through <= n)
    && (forall j, k :: 0 <= j < k < |cps| ==> cps[j].through < cps[k].through)
  }

  /** Each row lets at most the one summary through whose boundary it is. */
  lemma {:induction false} DueOne(cps: seq<Checkpoint>, n: nat, k: nat, seq_: int)
    requires Chain(cps, n) && k <= |cps|
    requires forall j :: k <= j < |cps| ==> cps[j].through >= seq_
    ensures Due(cps, k, seq_) == if k < |cps| && cps[k].through == seq_ then k + 1 else k
  {
  }

  lemma {:induction false} PlacesAfterRows(rows: seq<Message>, cps: seq<Checkpoint>, n: nat, all: seq<Message>)
    requires rows <= all && n == |all| && forall i :: 0 <= i < |all| ==> all[i].seq_ == i + 1
    requires Chain(cps, n)
    ensures var k, out := Passed(rows, cps), Replayed(rows, cps);
            && |out| == |rows| + k
            && (forall j :: 0 <= j < |cps| ==> (j < k <==> cps[j].through <= |rows|))
            && (forall j :: 0 <= j < k ==>
                  0 < cps[j].through + j < |out|
                  && out[cps[j].through + j] == SummaryShown(cps[j])
                  && out[cps[j].through + j - 1] == RowShown(all[cps[j].through - 1]))
    decreases |rows|
  {
    hide Due;
    if rows != [] {
      var m := |rows| - 1;
      PlacesAfterRows(rows[..m], cps, n, all);
      var k := Passed(rows[..m], cps);
      assert rows[m] == all[m];
      DueOne(cps, n, k, rows[m].seq_);
      var k' := Passed(rows, cps);
      var before := Replayed(rows[..m], cps) + [RowShown(rows[m])];
      var out := Replayed(rows, cps);
      assert out == before + Summaries(cps[k..k']);
      assert |before| == m + k + 1;
      if k' == k + 1 {
        assert cps[k].through == m + 1;
        assert out[m + 1 + k] == SummaryShown(cps[k]);
        assert out[m + k] == RowShown(rows[m]);
      }
      forall j | 0 <= j < k
        ensures out[cps[j].through + j] == SummaryShown(cps[j])
                && out[cps[j].through + j - 1] == RowShown(all[cps[j].through - 1])
      {
        assert cps[j].through + j < |before| - 1;
      }
    }
  }

  // ---- After every run ----

  lemma {:induction false} PlacedLast(sorted: seq<Checkpoint>, cp: Checkpoint)
    requires sorted == [] || sorted[|sorted| - 1].through <= cp.through
    ensures Placed(sorted, cp) == sorted + [cp]
  {
  }

  lemma {:induction false} OrderedChain(cps: seq<Checkpoint>, n: nat)
    requires Chain(cps, n)
    ensures Ordered(cps) == cps
    decreases |cps|
  {
    hide Placed;
    if cps != [] {
      var m := |cps| - 1;
      OrderedChain(cps[..m], n);
      PlacedLast(cps[..m], cps[m]);
      assert cps == cps[..m] + [cps[m]];
    }
  }

  lemma {:induction false} CompletesFrom(cps: seq<Checkpoint>)
    ensures forall cp :: cp in Completes(cps) ==> cp in cps && cp.status.Complete?
    decreases |cps|
  {
    if cps != [] {
      CompletesFrom(cps[..|cps| - 1]);
      assert forall cp :: cp in cps[..|cps| - 1] ==> cp in cps;
    }
  }

  lemma {:induction false} CompletesChain(flight: Flight, cps: seq<Checkpoint>, n: nat)
    requires PairsOk(flight, cps) && forall k :: 0 <= k < |cps| ==> 0 < cps[k].through <= n
    ensures Chain(Completes(cps), n)
    decreases |cps|
  {
    hide PairOk;
    if cps != [] {
      var m := |cps| - 1;
      CompletesChain(flight, cps[..m], n);
      CompletesFrom(cps[..m]);
      if cps[m].status.Complete? {
        var done := Completes(cps[..m]);
        forall j | 0 <= j < |done| ensures done[j].through < cps[m].through {
          assert done[j] in cps[..m];
          var i :| 0 <= i < m && cps[..m][i] == done[j];
          assert PairOk(flight, cps[i], cps[m]);
          PairRises(flight, cps[i], cps[m]);
        }
      }
    }
  }

  lemma {:induction false} PairRises(flight: Flight, a: Checkpoint, b: Checkpoint)
    requires PairOk(flight, a, b) && a.status.Complete? && b.status.Complete?
    ensures a.through < b.through
  {
  }

  /** After every run, reloading shows each row once and in order, and the
      summary of each complete checkpoint exactly once, right after the row
      its boundary names. */
  lemma {:induction false} ReplayExact(steps: seq<Timed>, s: State)
    requires Run(NEW, steps, s)
    ensures var cps := Ordered(Completes(s.cps));
            var out := Replayed(s.rows, cps);
            && cps == Completes(s.cps)
            && RowsOf(out) == s.rows && CpsOf(out) == cps
            && (forall j :: 0 <= j < |cps| ==>
                  0 < cps[j].through <= |s.rows| && cps[j].through + j < |out|
                  && out[cps[j].through + j] == SummaryShown(cps[j])
                  && out[cps[j].through + j - 1] == RowShown(s.rows[cps[j].through - 1]))
  {
    hide Run, PairsOk, EntryOk, WellFormed, Ordered, Completes, Passed, Replayed;
    NewSound();
    RunKeeps(NEW, steps, s);
    forall k | 0 <= k < |s.cps| ensures 0 < s.cps[k].through <= |s.rows| {
      BoundaryInside(s, k);
    }
    CompletesChain(s.flight, s.cps, |s.rows|);
    var cps := Completes(s.cps);
    OrderedChain(cps, |s.rows|);
    ReplayHolds(s.rows, cps);
    PlacesAfterRows(s.rows, cps, |s.rows|, s.rows);
    assert cps != [] ==> cps[|cps| - 1].through <= |s.rows|;
    assert Passed(s.rows, cps) == |cps|;
    assert cps[..|cps|] == cps;
  }

  lemma {:induction false} BoundaryInside(s: State, k: nat)
    requires EntriesOk(s) && k < |s.cps|
    ensures 0 < s.cps[k].through <= |s.rows|
  {
  }
}
