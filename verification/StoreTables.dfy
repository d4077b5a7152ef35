/** What the store's statements do to each row and each checkpoint, and what a
    start-up sweep leaves of a run's summaries. */
module StoreTables {
  import opened History
  import opened Store
  import opened StoreRuns

  // ---- Which checkpoints are pruned ----

  /** The statement decides record by record: one list after the other. */
  lemma {:induction false} PrunedJoin(a: seq<Checkpoint>, b: seq<Checkpoint>, olderThan: int)
    ensures Pruned(a + b, olderThan) == Pruned(a, olderThan) + Pruned(b, olderThan)
    decreases |b|
  {
    if b == [] {
      assert a + b == a;
    } else {
      var n := |b| - 1;
      assert (a + b)[..|a| + n] == a + b[..n];
      PrunedJoin(a, b[..n], olderThan);
    }
  }

  lemma {:induction false} PrunedOne(cp: Checkpoint, olderThan: int)
    ensures cp.status == Complete || cp.updated >= olderThan ==> Pruned([cp], olderThan) == [cp]
    ensures cp.status != Complete && cp.updated < olderThan ==> Pruned([cp], olderThan) == []
  {
    assert [cp][..0] == [];
  }

  /** A checkpoint is still there exactly when it is complete or recent enough,
      as often as before, and those kept stay in order. */
  lemma {:induction false} PrunedExact(cps: seq<Checkpoint>, olderThan: int, cp: Checkpoint)
    ensures cp in Pruned(cps, olderThan) <==> cp in cps && (cp.status == Complete || cp.updated >= olderThan)
    ensures multiset(Pruned(cps, olderThan))[cp]
            == if cp.status == Complete || cp.updated >= olderThan then multiset(cps)[cp] else 0
    ensures forall k :: 0 <= k <= |cps| ==> Pruned(cps, olderThan) == Pruned(cps[..k], olderThan) + Pruned(cps[k..], olderThan)
    decreases |cps|
  {
    hide Pruned;
    forall k | 0 <= k <= |cps|
      ensures Pruned(cps, olderThan) == Pruned(cps[..k], olderThan) + Pruned(cps[k..], olderThan)
    {
      assert cps == cps[..k] + cps[k..];
      PrunedJoin(cps[..k], cps[k..], olderThan);
    }
    if cps == [] {
      PrunedNone(olderThan);
    } else {
      var n := |cps| - 1;
      PrunedExact(cps[..n], olderThan, cp);
      assert cps[n..] == [cps[n]] && cps == cps[..n] + [cps[n]];
      PrunedOne(cps[n], olderThan);
    }
  }

  lemma {:induction false} PrunedNone(olderThan: int)
    ensures Pruned([], olderThan) == []
  {
  }

  // ---- Summaries ----

  lemma {:induction false} CompletesPush(cps: seq<Checkpoint>, cp: Checkpoint)
    ensures Completes(cps + [cp]) == Completes(cps) + (if cp.status == Complete then [cp] else [])
  {
    assert (cps + [cp])[..|cps|] == cps;
  }

  /** No summary is pruned, however old. */
  lemma {:induction false} SummariesKept(cps: seq<Checkpoint>, olderThan: int)
    ensures Completes(Pruned(cps, olderThan)) == Completes(cps)
    decreases |cps|
  {
    hide Completes;
    if cps != [] {
      var n := |cps| - 1;
      SummariesKept(cps[..n], olderThan);
      assert cps == cps[..n] + [cps[n]];
      CompletesPush(cps[..n], cps[n]);
      if cps[n].status.Complete? || cps[n].updated >= olderThan {
        CompletesPush(Pruned(cps[..n], olderThan), cps[n]);
      } else {
        assert Completes(cps[..n]) + [] == Completes(cps[..n]);
        assert Pruned(cps[..n], olderThan) + [] == Pruned(cps[..n], olderThan);
      }
    }
  }

  function WithoutStale(cps: seq<Checkpoint>, floor: int): (r: seq<Checkpoint>)
    ensures |r| == |cps|
  {
    seq(|cps|, i requires 0 <= i < |cps| =>
      if cps[i].status.Complete? && cps[i].through != floor then cps[i].(context := "") else cps[i])
  }

  lemma {:induction false} CompletesCleared(cps: seq<Checkpoint>, floor: int)
    ensures Completes(WithoutStale(cps, floor)) == WithoutStale(Completes(cps), floor)
    decreases |cps|
  {
    hide Completes;
    if cps == [] {
      assert Completes([]) == [] by { NoneComplete(); }
    } else {
      var n := |cps| - 1;
      CompletesCleared(cps[..n], floor);
      var w := WithoutStale(cps, floor);
      assert w == WithoutStale(cps[..n], floor) + [w[n]] && cps == cps[..n] + [cps[n]];
      CompletesPush(WithoutStale(cps[..n], floor), w[n]);
      CompletesPush(cps[..n], cps[n]);
    }
  }

  lemma {:induction false} CompletesAre(cps: seq<Checkpoint>)
    ensures forall k :: 0 <= k < |Completes(cps)| ==> Completes(cps)[k].status.Complete? && Completes(cps)[k] in cps
    ensures forall k :: 0 <= k < |cps| && cps[k].status.Complete? ==> cps[k] in Completes(cps)
    decreases |cps|
  {
    if cps != [] {
      var n := |cps| - 1;
      CompletesAre(cps[..n]);
      assert forall k :: 0 <= k < n ==> cps[k] == cps[..n][k];
      forall k | 0 <= k < |Completes(cps)| ensures Completes(cps)[k].status.Complete? && Completes(cps)[k] in cps {
        if k < |Completes(cps[..n])| {
          assert Completes(cps)[k] == Completes(cps[..n])[k];
        }
      }
      forall k | 0 <= k < |cps| && cps[k].status.Complete? ensures cps[k] in Completes(cps) {
        if k < n {
          assert cps[..n][k] in Completes(cps[..n]);
        }
      }
    }
  }

  lemma {:induction false} FloorAtLeast(a: seq<Checkpoint>, b: seq<Checkpoint>)
    requires Completes(a) == Completes(b) && Latest(a) >= 0
    ensures Latest(b) >= 0 && Floor(a) <= Floor(b)
  {
    hide Completes;
    CompletesAre(a);
    CompletesAre(b);
    var cp := a[Latest(a)];
    assert cp in Completes(b);
    assert cp in b;
    var j :| 0 <= j < |b| && b[j] == cp;
  }

  /** A start-up sweep, whatever its age limit: each summary is still there, in
      order, with its id, its boundary and its times. The newest keeps its
      context, every other loses it. */
  lemma {:induction false} SweepKeepsSummaries(s: State, olderThan: int, now: int)
    ensures var was, left := Completes(s.cps), Completes(Do(s, Sweep(olderThan), now).cps);
            && |left| == |was|
            && forall k :: 0 <= k < |was| ==>
                 && left[k].id == was[k].id && left[k].through == was[k].through && left[k].summary == was[k].summary
                 && left[k].created == was[k].created && left[k].updated == was[k].updated
                 && left[k].context == (if was[k].through == Floor(s.cps) then was[k].context else "")
  {
    hide Pruned, Completes, Floor;
    var kept := Pruned(s.cps, olderThan);
    SummariesKept(s.cps, olderThan);
    if Latest(s.cps) >= 0 || Latest(kept) >= 0 {
      FloorBoth(s.cps, kept);
    } else {
      FloorNone(s.cps);
      FloorNone(kept);
    }
    assert ContextsCleared(kept) == WithoutStale(kept, Floor(kept));
    CompletesCleared(kept, Floor(kept));
    CompletesAre(s.cps);
  }

  lemma {:induction false} FloorBoth(a: seq<Checkpoint>, b: seq<Checkpoint>)
    requires Completes(a) == Completes(b) && (Latest(a) >= 0 || Latest(b) >= 0)
    ensures Floor(a) == Floor(b)
  {
    if Latest(a) >= 0 {
      FloorAtLeast(a, b);
      FloorAtLeast(b, a);
    } else {
      FloorAtLeast(b, a);
    }
  }

  lemma {:induction false} FloorNone(cps: seq<Checkpoint>)
    ensures Latest(cps) < 0 ==> Floor(cps) == 0
  {
  }

  /** So after every run a sweep leaves the latest checkpoint as it was, and the
      model's context with it. */
  lemma {:induction false} SweepKeepsContext(steps: seq<Timed>, s: State, olderThan: int, now: int)
    requires Run(NEW, steps, s) && Latest(s.cps) >= 0 && now >= s.clock
    ensures var s' := Do(s, Sweep(olderThan), now);
            && Latest(s'.cps) >= 0 && s'.cps[Latest(s'.cps)] == s.cps[Latest(s.cps)]
            && Applied(s'.rows, s'.cps[Latest(s'.cps)]) == Applied(s.rows, s.cps[Latest(s.cps)])
  {
    hide Run, Pruned, Applied, EntriesOk, RowsOk, Latest;
    NewSound();
    RunKeeps(NEW, steps, s);
    SweepKeeps(s, olderThan, now);
    var cp := s.cps[Latest(s.cps)];
    var kept := Pruned(s.cps, olderThan);
    SummariesKept(s.cps, olderThan);
    FloorBoth(s.cps, kept);
    PrunedExact(s.cps, olderThan, cp);
    var j :| 0 <= j < |kept| && kept[j] == cp;
    var cps' := ContextsCleared(kept);
    assert cps'[j] == cp;
    LatestOnly(s.flight, cps', j, kept);
  }

  lemma {:induction false} LatestOnly(flight: Flight, cps: seq<Checkpoint>, j: nat, was: seq<Checkpoint>)
    requires PairsOk(flight, cps) && cps == ContextsCleared(was) && j < |cps|
    requires cps[j].status.Complete? && cps[j].through == Floor(was)
    ensures Latest(cps) == j
  {
    assert forall k :: 0 <= k < |cps| ==> cps[k].through == was[k].through && cps[k].status == was[k].status;
    assert cps[Latest(cps)].through >= cps[j].through;
    assert was[Latest(cps)].through <= Floor(was);
    forall a, b | 0 <= a < b < |cps| && cps[a].status.Complete? && cps[b].status.Complete?
      ensures cps[a].through < cps[b].through
    {
      assert PairOk(flight, cps[a], cps[b]);
    }
  }

  /** How many contexts a sweep clears: of the complete checkpoints below the
      floor, those that had one. */
  lemma {:induction false} ClearedCount(cps: seq<Checkpoint>, floor: int)
    ensures StaleContexts(cps, floor) == |Changed(cps, WithoutStale(cps, floor))|
    decreases |cps|
  {
    if cps != [] {
      var n := |cps| - 1;
      ClearedCount(cps[..n], floor);
      assert WithoutStale(cps, floor)[..n] == WithoutStale(cps[..n], floor);
    }
  }

  /** The places where two lists differ. */
  function Changed(a: seq<Checkpoint>, b: seq<Checkpoint>): seq<nat>
    requires |a| == |b|
  {
    if a == [] then []
    else
      var n := |a| - 1;
      Changed(a[..n], b[..n]) + (if a[n] != b[n] then [n] else [])
  }

  // ---- What a writer stores ----

  /** A new row holds what its writer gave and a number above all others. */
  lemma {:induction false} RowHolds(rows: seq<Message>, d: Draft, id: nat, now: int)
    ensures var row := NewRow(rows, d, id, now);
            && row.id == id && row.kind == d.kind && row.created == now
            && Data(row.parsed, row.text, row.attachments, row.calls, row.raw) == d.data
            && (rows == [] ==> row.seq_ == 1) && forall k :: 0 <= k < |rows| ==> rows[k].seq_ < row.seq_
  {
  }

  /** A rewrite changes the data of the rows with that number, nothing else. */
  lemma {:induction false} RowRewritten(rows: seq<Message>, seq_: int, d: Data, k: nat)
    requires k < |rows|
    ensures var row, was := Rewritten(rows, seq_, d)[k], rows[k];
            && row.id == was.id && row.seq_ == was.seq_ && row.kind == was.kind && row.created == was.created
            && Data(row.parsed, row.text, row.attachments, row.calls, row.raw)
               == if was.seq_ == seq_ then d else Data(was.parsed, was.text, was.attachments, was.calls, was.raw)
  {
  }

  /** A compaction that finds a boundary past the floor takes a pending
      checkpoint with it and with its context, after all others; one that finds
      none changes no table. */
  lemma {:induction false} CheckpointTaken(s: State, tokens: int, context: string, now: int)
    ensures var s', t := Do(s, Compact(tokens, context), now), Split(s.rows, tokens, Floor(s.cps));
            && s'.rows == s.rows && |s'.cps| == |s.cps| + (if t < 0 then 0 else 1)
            && (forall k :: 0 <= k < |s.cps| ==> s'.cps[k] == s.cps[k])
            && (t >= 0 ==>
                  var cp := s'.cps[|s.cps|];
                  && cp.through == t && cp.context == context && cp.summary == "" && cp.status == Pending
                  && cp.created == now && cp.updated == now && s'.flight == Summarising(cp.id) && cp.id == s.nextId < s'.nextId)
  {
    hide Split, Floor;
  }

  /** A commit stores the summary with the checkpoint of its compaction, one
      given up stores none; no other checkpoint changes. */
  lemma {:induction false} SummaryStored(s: State, a: Action, now: int, k: nat)
    requires Enabled(s, a, now) && (a.Commit? || a.GiveUp?) && k < |s.cps|
    ensures var cps := Do(s, a, now).cps;
            && |cps| == |s.cps| && Do(s, a, now).rows == s.rows
            && cps[k].id == s.cps[k].id && cps[k].through == s.cps[k].through && cps[k].context == s.cps[k].context
            && cps[k].created == s.cps[k].created
            && cps[k].summary == (if a.Commit? && s.flight.id == s.cps[k].id then a.summary else s.cps[k].summary)
            && cps[k].status == (if s.flight.id != s.cps[k].id then s.cps[k].status
                                 else if a.Commit? then Status.Complete else Failed)
            && cps[k].updated == (if s.flight.id != s.cps[k].id then s.cps[k].updated else now)
  {
  }
}
