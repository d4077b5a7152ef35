/** A session's store over whole runs: turns, compactions that take a while,
    crashes, sweeps at start-up, and retries. Writes to the session come one
    after the other, with a clock that never runs back. */
module StoreRuns {
  import opened History
  import opened Store

  /** The compaction in progress, whose pending row was inserted. */
  datatype Flight = Idle | Summarising(id: nat)

  /** `saw` keeps, per checkpoint, the ids of the rows there were when it was
      taken. */
  datatype State = State(rows: seq<Message>, cps: seq<Checkpoint>, saw: map<nat, seq<nat>>, flight: Flight,
                         nextId: nat, clock: int)

  datatype Action =
    | Append(draft: Draft)
    | Rewrite(seq_: int, data: Data)
    | Compact(tokens: int, context: string)
    | Commit(summary: string)
    | GiveUp
    | Crash
    | Retry
    | Sweep(olderThan: int)

  function Ids(rows: seq<Message>): (r: seq<nat>)
    ensures |r| == |rows|
  {
    seq(|rows|, i requires 0 <= i < |rows| => rows[i].id)
  }

  function LastPrompt(rows: seq<Message>): (s: int)
    ensures s == -1 || exists k :: 0 <= k < |rows| && rows[k].seq_ == s && rows[k].kind.User?
  {
    if rows == [] then -1
    else
      var n := |rows| - 1;
      if rows[n].kind.User? then rows[n].seq_
      else
        var s := LastPrompt(rows[..n]);
        assert forall k :: 0 <= k < n ==> rows[..n][k] == rows[k];
        s
  }

  /** A tool result is appended only after its reply or another result; one
      compaction at a time. */
  predicate Enabled(s: State, a: Action, now: int) {
    && now >= s.clock
    && match a
       case Append(d) =>
         d.kind.ToolResult? ==>
           s.rows != [] && (s.rows[|s.rows| - 1].kind.Assistant? || s.rows[|s.rows| - 1].kind.ToolResult?)
       case Compact(_, _) => s.flight.Idle?
       case Commit(_) => s.flight.Summarising?
       case GiveUp => s.flight.Summarising?
       case _ => true
  }

  function Do(s: State, a: Action, now: int): State {
    var t := s.(clock := now);
    match a
    case Append(d) => t.(rows := s.rows + [NewRow(s.rows, d, s.nextId, now)], nextId := s.nextId + 1)
    case Rewrite(k, data) => t.(rows := Rewritten(s.rows, k, data))
    case Compact(tokens, context) =>
      var through := Split(s.rows, tokens, Floor(s.cps));
      if through < 0 then t
      else t.(cps := s.cps + [Checkpoint(s.nextId, through, "", context, Pending, now, now)],
              saw := s.saw[s.nextId := Ids(s.rows)], flight := Summarising(s.nextId), nextId := s.nextId + 1)
    case Commit(summary) =>
      if s.flight.Summarising? then t.(cps := Marked(s.cps, s.flight.id, now, Complete, summary), flight := Idle) else t
    case GiveUp =>
      if s.flight.Summarising? then t.(cps := Marked(s.cps, s.flight.id, now, Failed, ""), flight := Idle) else t
    case Crash => t.(flight := Idle)
    case Retry =>
      var k := LastPrompt(s.rows);
      if k < 0 then t
      else t.(rows := RowsUpTo(s.rows, k), cps := Surviving(s.cps, k, TimeOf(s.rows, k)))
    case Sweep(olderThan) => t.(cps := ContextsCleared(Pruned(s.cps, olderThan)))
  }

  // ---- Invariant ----

  ghost predicate RowsOk(rows: seq<Message>, nextId: nat, clock: int) {
    && (forall i :: 0 <= i < |rows| ==> rows[i].seq_ == i + 1 && rows[i].id < nextId && rows[i].created <= clock)
    && (forall i, j :: 0 <= i < j < |rows| ==> rows[i].id != rows[j].id && rows[i].created <= rows[j].created)
    && WellFormed(rows)
  }

  /** The checkpoint saw only rows that are all still there, and one more than
      its boundary at least, where an exchange starts. */
  ghost predicate EntryOk(rows: seq<Message>, saw: map<nat, seq<nat>>, nextId: nat, clock: int, flight: Flight,
                          cp: Checkpoint) {
    && cp.id < nextId && cp.id in saw && cp.created <= clock
    && saw[cp.id] <= Ids(rows)
    && 0 < cp.through < |saw[cp.id]|
    && rows[|saw[cp.id]| - 1].created <= cp.created
    && !rows[cp.through].kind.ToolResult?
    && (flight == Summarising(cp.id) ==> !cp.status.Complete?)
  }

  /** A checkpoint and a later one. */
  ghost predicate PairOk(flight: Flight, a: Checkpoint, b: Checkpoint) {
    && a.id != b.id && a.created <= b.created && flight != Summarising(a.id)
    && (a.status.Complete? && (b.status.Complete? || flight == Summarising(b.id)) ==> a.through < b.through)
  }

  ghost predicate PairsOk(flight: Flight, cps: seq<Checkpoint>) {
    forall j, k :: 0 <= j < k < |cps| ==> PairOk(flight, cps[j], cps[k])
  }

  ghost predicate EntriesOk(s: State) {
    forall k :: 0 <= k < |s.cps| ==> EntryOk(s.rows, s.saw, s.nextId, s.clock, s.flight, s.cps[k])
  }

  ghost predicate Sound(s: State) {
    && RowsOk(s.rows, s.nextId, s.clock)
    && EntriesOk(s)
    && PairsOk(s.flight, s.cps)
    && (s.flight.Summarising? ==> s.flight.id < s.nextId)
  }

  const NEW := State([], [], map[], Idle, 0, 0)

  // ---- Rows ----

  lemma {:induction false} MaxIsCount(rows: seq<Message>)
    requires forall i :: 0 <= i < |rows| ==> rows[i].seq_ == i + 1
    ensures MaxSeq(rows) == |rows|
    decreases |rows|
  {
    if rows != [] {
      MaxIsCount(rows[..|rows| - 1]);
    }
  }

  lemma {:induction false} UpToIsPrefix(rows: seq<Message>, k: int)
    requires forall i :: 0 <= i < |rows| ==> rows[i].seq_ == i + 1
    requires 0 <= k <= |rows|
    ensures RowsUpTo(rows, k) == rows[..k]
    decreases |rows|
  {
    if k == |rows| {
      NoneCut(rows, k);
      assert rows[..k] == rows;
    } else {
      var n := |rows| - 1;
      UpToIsPrefix(rows[..n], k);
      assert rows[..n][..k] == rows[..k];
      assert RowsUpTo(rows, k) == RowsUpTo(rows[..n], k) + [];
    }
  }

  lemma {:induction false} NoneCut(rows: seq<Message>, k: int)
    requires forall i :: 0 <= i < |rows| ==> rows[i].seq_ <= k
    ensures RowsUpTo(rows, k) == rows
    decreases |rows|
  {
    if rows != [] {
      NoneCut(rows[..|rows| - 1], k);
      assert rows == rows[..|rows| - 1] + [rows[|rows| - 1]];
    }
  }

  lemma {:induction false} TimeAt(rows: seq<Message>, k: int, from: nat)
    requires forall i :: 0 <= i < |rows| ==> rows[i].seq_ == from + i + 1
    requires from < k <= from + |rows|
    ensures TimeOf(rows, k) == rows[k - from - 1].created
    decreases |rows|
  {
    if rows[0].seq_ != k {
      assert forall i :: 0 <= i < |rows| - 1 ==> rows[1..][i] == rows[i + 1];
      TimeAt(rows[1..], k, from + 1);
    }
  }

  lemma {:induction false} RegionAt(rows: seq<Message>, k: nat)
    requires (forall i :: 0 <= i < |rows| ==> rows[i].seq_ == i + 1) && k <= |rows|
    ensures Increasing(rows) && Region(rows, k) == rows[k..]
  {
    FrontRows(rows, k);
    hide FirstAfter;
    var f := FirstAfter(rows, k);
    assert f > 0 ==> rows[f - 1].seq_ == f;
    assert f < |rows| ==> rows[f].seq_ == f + 1;
  }

  // ---- Each action ----

  lemma {:induction false} AppendKeeps(s: State, d: Draft, now: int)
    requires Sound(s) && Enabled(s, Append(d), now)
    ensures Sound(Do(s, Append(d), now))
    ensures var row := Do(s, Append(d), now).rows[|s.rows|]; row.seq_ == |s.rows| + 1
  {
    var s' := Do(s, Append(d), now);
    MaxIsCount(s.rows);
    forall k | 0 <= k < |s.cps| ensures EntryOk(s'.rows, s'.saw, s'.nextId, s'.clock, s'.flight, s'.cps[k]) {
      var cp := s.cps[k];
      assert EntryOk(s.rows, s.saw, s.nextId, s.clock, s.flight, cp);
      assert Ids(s'.rows) == Ids(s.rows) + [s.nextId];
    }
  }

  lemma {:induction false} RewriteKeeps(s: State, k: int, data: Data, now: int)
    requires Sound(s) && Enabled(s, Rewrite(k, data), now)
    ensures Sound(Do(s, Rewrite(k, data), now))
  {
    var s' := Do(s, Rewrite(k, data), now);
    assert Ids(s'.rows) == Ids(s.rows);
    assert WellFormed(s'.rows) by {
      forall i | 0 <= i < |s'.rows| ensures s'.rows[i].kind == s.rows[i].kind {}
    }
    forall i | 0 <= i < |s.cps| ensures EntryOk(s'.rows, s'.saw, s'.nextId, s'.clock, s'.flight, s'.cps[i]) {
      assert EntryOk(s.rows, s.saw, s.nextId, s.clock, s.flight, s.cps[i]);
    }
  }

  /** The boundary a compaction finds: above every complete one, and where an
      exchange starts. */
  lemma {:induction false} BoundaryFound(s: State, tokens: int)
    requires Sound(s)
    ensures 0 <= Floor(s.cps) <= |s.rows| && Region(s.rows, Floor(s.cps)) == s.rows[Floor(s.cps)..]
    ensures WellFormed(s.rows[Floor(s.cps)..]) && Increasing(s.rows)
    ensures var t := Split(s.rows, tokens, Floor(s.cps));
            t >= 0 ==> Floor(s.cps) < t < |s.rows| && !s.rows[t].kind.ToolResult?
  {
    hide Split, Cut, Region, BudgetBytes;
    var f := Floor(s.cps);
    if Latest(s.cps) >= 0 {
      assert EntryOk(s.rows, s.saw, s.nextId, s.clock, s.flight, s.cps[Latest(s.cps)]);
    }
    RegionAt(s.rows, f);
    var t := Split(s.rows, tokens, f);
    if t >= 0 {
      SplitProgress(s.rows, tokens, f);
      SplitInside(s.rows, tokens, f);
      RegionAt(s.rows, t);
      assert s.rows[t..][0] == s.rows[t];
    }
  }

  lemma {:induction false} SplitInside(rows: seq<Message>, tokens: int, f: nat)
    requires (forall i :: 0 <= i < |rows| ==> rows[i].seq_ == i + 1) && f <= |rows|
    requires Region(rows, f) == rows[f..] && Split(rows, tokens, f) >= 0
    ensures Split(rows, tokens, f) < |rows|
  {
  }

  /** Fresh ids: older checkpoints know nothing of the new one. */
  lemma {:induction false} OthersStay(s: State, cp: Checkpoint, s': State)
    requires EntryOk(s.rows, s.saw, s.nextId, s.clock, s.flight, cp)
    requires s'.rows == s.rows && s'.saw == s.saw[s.nextId := Ids(s.rows)] && s'.nextId == s.nextId + 1
    requires s'.clock >= s.clock && s'.flight == Summarising(s.nextId)
    ensures EntryOk(s'.rows, s'.saw, s'.nextId, s'.clock, s'.flight, cp)
  {
  }

  lemma {:induction false} NewEntry(s: State, s': State, cp: Checkpoint)
    requires RowsOk(s.rows, s.nextId, s.clock) && 0 < cp.through < |s.rows| && !s.rows[cp.through].kind.ToolResult?
    requires s'.rows == s.rows && s'.saw == s.saw[s.nextId := Ids(s.rows)] && s'.nextId == s.nextId + 1
    requires s'.clock == cp.created >= s.clock && cp.id == s.nextId && cp.status.Pending?
    ensures EntryOk(s'.rows, s'.saw, s'.nextId, s'.clock, s'.flight, cp)
  {
  }

  lemma {:induction false} CompactKeeps(s: State, tokens: int, context: string, now: int)
    requires Sound(s) && Enabled(s, Compact(tokens, context), now)
    ensures Sound(Do(s, Compact(tokens, context), now))
  {
    hide Split, WellFormed, EntryOk, Floor, Region, Increasing;
    BoundaryFound(s, tokens);
    var s' := Do(s, Compact(tokens, context), now);
    if Split(s.rows, tokens, Floor(s.cps)) >= 0 {
      var cp := s'.cps[|s.cps|];
      NewEntry(s, s', cp);
      forall k | 0 <= k < |s.cps|
        ensures EntryOk(s'.rows, s'.saw, s'.nextId, s'.clock, s'.flight, s.cps[k]) && PairOk(s'.flight, s.cps[k], cp)
      {
        OthersStay(s, s.cps[k], s');
        BelowFloor(s, k);
      }
      assert s'.cps == s.cps + [cp];
      PairsPush(s.flight, s'.flight, s.cps, cp);
    } else {
      LaterOk(s, now);
    }
  }

  lemma {:induction false} BelowFloor(s: State, k: nat)
    requires EntriesOk(s) && k < |s.cps|
    ensures s.cps[k].status.Complete? ==> s.cps[k].through <= Floor(s.cps)
    ensures s.cps[k].id < s.nextId && s.cps[k].created <= s.clock
  {
  }

  lemma {:induction false} PairsPush(flight: Flight, flight': Flight, cps: seq<Checkpoint>, cp: Checkpoint)
    requires PairsOk(flight, cps) && flight.Idle?
    requires forall k :: 0 <= k < |cps| ==> PairOk(flight', cps[k], cp)
    requires flight'.Summarising? && flight'.id == cp.id
    ensures PairsOk(flight', cps + [cp])
  {
  }

  lemma {:induction false} LaterOk(s: State, now: int)
    requires Sound(s) && now >= s.clock
    ensures Sound(s.(clock := now))
  {
  }

  lemma {:induction false} EndKeeps(s: State, a: Action, now: int)
    requires Sound(s) && Enabled(s, a, now) && (a.Commit? || a.GiveUp? || a.Crash?)
    ensures Sound(Do(s, a, now))
  {
    hide WellFormed, EntryOk, PairOk;
    var s' := Do(s, a, now);
    forall k | 0 <= k < |s'.cps| ensures EntryOk(s'.rows, s'.saw, s'.nextId, s'.clock, s'.flight, s'.cps[k]) {
      EntryEnds(s, s', s.cps[k], s'.cps[k]);
    }
    forall j, k | 0 <= j < k < |s'.cps| ensures PairOk(s'.flight, s'.cps[j], s'.cps[k]) {
      assert PairOk(s.flight, s.cps[j], s.cps[k]);
      PairEnds(s.flight, s.cps[j], s.cps[k], s'.cps[j], s'.cps[k]);
    }
  }

  lemma {:induction false} EntryEnds(s: State, s': State, cp: Checkpoint, cp': Checkpoint)
    requires EntryOk(s.rows, s.saw, s.nextId, s.clock, s.flight, cp)
    requires s'.rows == s.rows && s'.saw == s.saw && s'.nextId == s.nextId && s'.clock >= s.clock && s'.flight.Idle?
    requires cp'.id == cp.id && cp'.through == cp.through && cp'.created == cp.created
    ensures EntryOk(s'.rows, s'.saw, s'.nextId, s'.clock, s'.flight, cp')
  {
  }

  lemma {:induction false} PairEnds(flight: Flight, a: Checkpoint, b: Checkpoint, a': Checkpoint, b': Checkpoint)
    requires PairOk(flight, a, b)
    requires a'.id == a.id && a'.through == a.through && a'.created == a.created
    requires b'.id == b.id && b'.through == b.through && b'.created == b.created
    requires a'.status.Complete? ==> a.status.Complete? || flight == Summarising(a.id)
    requires b'.status.Complete? ==> b.status.Complete? || flight == Summarising(b.id)
    ensures PairOk(Idle, a', b')
  {
  }

  /** A checkpoint outlives a retry exactly when it was taken before the
      prompt's row was written; then it saw no row past the prompt. */
  lemma {:induction false} OutlivesExactly(s: State, cp: Checkpoint, p: int)
    requires RowsOk(s.rows, s.nextId, s.clock) && 0 < p <= |s.rows|
    requires EntryOk(s.rows, s.saw, s.nextId, s.clock, s.flight, cp)
    ensures Outlives(cp, p, s.rows[p - 1].created) <==> cp.created < s.rows[p - 1].created
    ensures cp.created < s.rows[p - 1].created ==> |s.saw[cp.id]| <= p
  {
  }

  lemma {:induction false} AllSurvive(cps: seq<Checkpoint>, p: int, time: int)
    requires forall k :: 0 <= k < |cps| ==> Outlives(cps[k], p, time)
    ensures Surviving(cps, p, time) == cps
    decreases |cps|
  {
    hide Outlives;
    if cps != [] {
      var n := |cps| - 1;
      AllSurvive(cps[..n], p, time);
      assert cps == cps[..n] + [cps[n]];
    }
  }

  lemma {:induction false} FirstSurvive(cps: seq<Checkpoint>, p: int, time: int, m: nat)
    requires m <= |cps|
    requires forall k :: 0 <= k < |cps| ==> (k < m <==> Outlives(cps[k], p, time))
    ensures Surviving(cps, p, time) == cps[..m]
    decreases |cps|
  {
    hide Outlives;
    if m == |cps| {
      AllSurvive(cps, p, time);
      assert cps[..m] == cps;
    } else {
      var n := |cps| - 1;
      FirstSurvive(cps[..n], p, time, m);
      assert cps[..n][..m] == cps[..m];
      assert !Outlives(cps[n], p, time);
    }
  }

  /** Taken in order of time: the first few were taken before it. */
  lemma {:induction false} TakenBefore(cps: seq<Checkpoint>, time: int) returns (m: nat)
    requires forall j, k :: 0 <= j < k < |cps| ==> cps[j].created <= cps[k].created
    ensures m <= |cps| && forall k :: 0 <= k < |cps| ==> (k < m <==> cps[k].created < time)
  {
    m := |cps|;
    while m > 0 && cps[m - 1].created >= time
      invariant m <= |cps| && forall k :: m <= k < |cps| ==> cps[k].created >= time
    {
      m := m - 1;
    }
  }

  /** What a retry leaves: the rows up to the last prompt, and the checkpoints
      taken before that prompt was written. */
  lemma {:induction false} RetryCuts(s: State, now: int) returns (p: nat, m: nat)
    requires Sound(s) && LastPrompt(s.rows) >= 0
    ensures p == LastPrompt(s.rows) && 0 < p <= |s.rows| && s.rows[p - 1].kind.User? && m <= |s.cps|
    ensures Do(s, Retry, now) == s.(rows := s.rows[..p], cps := s.cps[..m], clock := now)
    ensures forall k :: 0 <= k < |s.cps| ==> (k < m <==> s.cps[k].created < s.rows[p - 1].created)
    ensures forall k :: 0 <= k < m ==> s.cps[k].id in s.saw && |s.saw[s.cps[k].id]| <= p
  {
    hide WellFormed, EntryOk, Outlives, Surviving, RowsUpTo;
    p := LastPrompt(s.rows);
    var time := s.rows[p - 1].created;
    TimeAt(s.rows, p, 0);
    UpToIsPrefix(s.rows, p);
    forall k | 0 <= k < |s.cps|
      ensures Outlives(s.cps[k], p, time) <==> s.cps[k].created < time
      ensures s.cps[k].id in s.saw && (s.cps[k].created < time ==> |s.saw[s.cps[k].id]| <= p)
    {
      EntrySaw(s, s.cps[k]);
      OutlivesExactly(s, s.cps[k], p);
    }
    assert forall j, k :: 0 <= j < k < |s.cps| ==> PairOk(s.flight, s.cps[j], s.cps[k]);
    m := TakenBefore(s.cps, time);
    FirstSurvive(s.cps, p, time, m);
  }

  lemma {:induction false} EntrySaw(s: State, cp: Checkpoint)
    requires EntryOk(s.rows, s.saw, s.nextId, s.clock, s.flight, cp)
    ensures cp.id in s.saw
  {
  }

  lemma {:induction false} RetryKeeps(s: State, now: int)
    requires Sound(s) && Enabled(s, Retry, now)
    ensures Sound(Do(s, Retry, now))
  {
    hide WellFormed, EntryOk, PairOk;
    if LastPrompt(s.rows) >= 0 {
      var p, m := RetryCuts(s, now);
      var s' := Do(s, Retry, now);
      WellFormedPrefix(s.rows, p);
      forall k | 0 <= k < m ensures EntryOk(s'.rows, s'.saw, s'.nextId, s'.clock, s'.flight, s'.cps[k]) {
        EntryCut(s, s', s.cps[k], p);
      }
    } else {
      LaterOk(s, now);
    }
  }

  lemma {:induction false} EntryCut(s: State, s': State, cp: Checkpoint, p: nat)
    requires EntryOk(s.rows, s.saw, s.nextId, s.clock, s.flight, cp) && |s.saw[cp.id]| <= p <= |s.rows|
    requires s'.rows == s.rows[..p] && s'.saw == s.saw && s'.nextId == s.nextId && s'.clock >= s.clock
    requires s'.flight == s.flight
    ensures EntryOk(s'.rows, s'.saw, s'.nextId, s'.clock, s'.flight, cp)
  {
  }

  lemma {:induction false} WellFormedPrefix(rows: seq<Message>, k: nat)
    requires WellFormed(rows) && k <= |rows|
    ensures WellFormed(rows[..k])
  {
  }

  lemma {:induction false} PrunedFrom(cps: seq<Checkpoint>, olderThan: int)
    ensures forall cp :: cp in Pruned(cps, olderThan) ==> cp in cps
    decreases |cps|
  {
    if cps != [] {
      PrunedFrom(cps[..|cps| - 1], olderThan);
      assert forall cp :: cp in cps[..|cps| - 1] ==> cp in cps;
    }
  }

  lemma {:induction false} PrunedPairs(flight: Flight, cps: seq<Checkpoint>, olderThan: int)
    requires PairsOk(flight, cps)
    ensures PairsOk(flight, Pruned(cps, olderThan))
    decreases |cps|
  {
    hide PairOk;
    if cps != [] {
      var n := |cps| - 1;
      PrunedPairs(flight, cps[..n], olderThan);
      PrunedFrom(cps[..n], olderThan);
      var kept := Pruned(cps[..n], olderThan);
      forall j | 0 <= j < |kept| ensures PairOk(flight, kept[j], cps[n]) {
        assert kept[j] in cps[..n];
        var i :| 0 <= i < n && cps[..n][i] == kept[j];
        assert PairOk(flight, cps[i], cps[n]);
      }
    }
  }

  lemma {:induction false} SweepKeeps(s: State, olderThan: int, now: int)
    requires Sound(s) && Enabled(s, Sweep(olderThan), now)
    ensures Sound(Do(s, Sweep(olderThan), now))
  {
    hide WellFormed;
    var s' := Do(s, Sweep(olderThan), now);
    var mid := Pruned(s.cps, olderThan);
    PrunedPairs(s.flight, s.cps, olderThan);
    PrunedFrom(s.cps, olderThan);
    forall k | 0 <= k < |s'.cps| ensures EntryOk(s'.rows, s'.saw, s'.nextId, s'.clock, s'.flight, s'.cps[k]) {
      assert mid[k] in s.cps;
      assert EntryOk(s.rows, s.saw, s.nextId, s.clock, s.flight, mid[k]);
    }
    forall j, k | 0 <= j < k < |s'.cps| ensures PairOk(s'.flight, s'.cps[j], s'.cps[k]) {
      assert PairOk(s.flight, mid[j], mid[k]);
    }
  }

  lemma {:induction false} StepKeeps(s: State, a: Action, now: int)
    requires Sound(s) && Enabled(s, a, now)
    ensures Sound(Do(s, a, now))
  {
    hide Sound, Enabled, Do;
    match a
    case Append(d) => AppendKeeps(s, d, now);
    case Rewrite(k, data) => RewriteKeeps(s, k, data, now);
    case Compact(tokens, context) => CompactKeeps(s, tokens, context, now);
    case Retry => RetryKeeps(s, now);
    case Sweep(olderThan) => SweepKeeps(s, olderThan, now);
    case _ => EndKeeps(s, a, now);
  }

  datatype Timed = Timed(action: Action, now: int)

  ghost predicate Run(s: State, steps: seq<Timed>, s': State)
    decreases |steps|
  {
    if steps == [] then s == s'
    else
      Enabled(s, steps[0].action, steps[0].now) && Run(Do(s, steps[0].action, steps[0].now), steps[1..], s')
  }

  lemma {:induction false} RunKeeps(s: State, steps: seq<Timed>, s': State)
    requires Sound(s) && Run(s, steps, s')
    ensures Sound(s')
    decreases |steps|
  {
    hide Sound, Enabled, Do;
    if steps != [] {
      StepKeeps(s, steps[0].action, steps[0].now);
      RunKeeps(Do(s, steps[0].action, steps[0].now), steps[1..], s');
    }
  }

  lemma {:induction false} NewSound()
    ensures Sound(NEW)
  {
  }

  // ---- What holds after every run ----

  /** The rows are numbered 1 to n. Every checkpoint, however its compaction
      ended, saw only rows that are still there under the numbers they had, so
      no row it summarises was deleted; and a row written next gets a number
      above every boundary. */
  lemma {:induction false} NoDeletedRowSeen(steps: seq<Timed>, s: State, d: Draft, now: int)
    requires Run(NEW, steps, s)
    ensures forall i :: 0 <= i < |s.rows| ==> s.rows[i].seq_ == i + 1
    ensures forall k :: 0 <= k < |s.cps| ==> s.cps[k].id in s.saw && s.saw[s.cps[k].id] <= Ids(s.rows)
    ensures forall k :: 0 <= k < |s.cps| ==> 0 < s.cps[k].through < NewRow(s.rows, d, s.nextId, now).seq_
  {
    hide Run;
    NewSound();
    RunKeeps(NEW, steps, s);
    MaxIsCount(s.rows);
    forall k | 0 <= k < |s.cps|
      ensures s.cps[k].id in s.saw && s.saw[s.cps[k].id] <= Ids(s.rows) && 0 < s.cps[k].through <= |s.rows|
    {
      assert EntryOk(s.rows, s.saw, s.nextId, s.clock, s.flight, s.cps[k]);
    }
  }

  /** The context the model gets never starts with a tool result whose reply
      was summarised away: after the latest complete checkpoint come all rows
      past its boundary, each tool result after its reply. */
  lemma {:induction false} ContextWhole(steps: seq<Timed>, s: State)
    requires Run(NEW, steps, s)
    ensures WellFormed(s.rows)
    ensures Latest(s.cps) >= 0 ==>
              var cp := s.cps[Latest(s.cps)];
              && 0 < cp.through < |s.rows|
              && Applied(s.rows, cp) == [Block(cp)] + s.rows[cp.through..]
              && WellFormed(s.rows[cp.through..]) && !s.rows[cp.through].kind.ToolResult?
  {
    hide Run, Latest, Region, After, Increasing;
    NewSound();
    RunKeeps(NEW, steps, s);
    if Latest(s.cps) >= 0 {
      LatestBound(s);
      var cp := s.cps[Latest(s.cps)];
      RegionAt(s.rows, cp.through);
      AfterIsRegion(s.rows, cp.through);
    }
  }

  lemma {:induction false} LatestBound(s: State)
    requires EntriesOk(s) && Latest(s.cps) >= 0
    ensures var cp := s.cps[Latest(s.cps)]; 0 < cp.through < |s.rows| && !s.rows[cp.through].kind.ToolResult?
  {
  }

  lemma {:induction false} CompletesPrefix(cps: seq<Checkpoint>, m: nat)
    requires m <= |cps|
    ensures Completes(cps[..m]) <= Completes(cps)
    decreases |cps|
  {
    if m < |cps| {
      CompletesPrefix(cps[..|cps| - 1], m);
      assert cps[..|cps| - 1][..m] == cps[..m];
    } else {
      assert cps[..m] == cps;
    }
  }

  /** A retry goes back to the newest prompt, here row `at - 1`. */
  lemma {:induction false} NewestPrompt(rows: seq<Message>) returns (at: nat)
    ensures at <= |rows| && forall j :: at <= j < |rows| ==> rows[j].kind != User
    ensures if at == 0 then LastPrompt(rows) == -1 else rows[at - 1].kind == User && LastPrompt(rows) == rows[at - 1].seq_
    decreases |rows|
  {
    if rows == [] || rows[|rows| - 1].kind.User? {
      at := |rows|;
    } else {
      at := NewestPrompt(rows[..|rows| - 1]);
    }
  }

  /** A retry cuts the rows after the last prompt, and of the checkpoints
      exactly those taken since that prompt was written: a suffix of all and of
      the complete ones. A checkpoint that saw a row past the prompt goes. */
  lemma {:induction false} RetryCutsSuffix(steps: seq<Timed>, s: State, now: int)
    requires Run(NEW, steps, s) && LastPrompt(s.rows) >= 0
    ensures var p, s' := LastPrompt(s.rows), Do(s, Retry, now);
            && 0 < p <= |s.rows| && s.rows[p - 1].kind.User? && (forall k :: p <= k < |s.rows| ==> !s.rows[k].kind.User?)
            && s'.rows == s.rows[..p]
            && s'.cps <= s.cps && Completes(s'.cps) <= Completes(s.cps)
            && (forall k :: 0 <= k < |s.cps| ==> (k < |s'.cps| <==> s.cps[k].created < s.rows[p - 1].created))
            && (forall k :: 0 <= k < |s.cps| && s.cps[k].id in s.saw && |s.saw[s.cps[k].id]| > p ==> k >= |s'.cps|)
  {
    hide Run, Sound, Do;
    NewSound();
    RunKeeps(NEW, steps, s);
    var p, m := RetryCuts(s, now);
    var at := NewestPrompt(s.rows);
    SoundRows(s);
    CompletesPrefix(s.cps, m);
  }

  lemma {:induction false} SoundRows(s: State)
    requires Sound(s)
    ensures forall i :: 0 <= i < |s.rows| ==> s.rows[i].seq_ == i + 1
  {
  }

  // ---- Compaction makes progress ----

  lemma {:induction false} MarkedAt(cps: seq<Checkpoint>, id: nat, now: int, summary: string)
    requires cps != [] && cps[|cps| - 1].id == id
    requires forall k :: 0 <= k < |cps| - 1 ==> cps[k].id != id
    requires Floor(cps[..|cps| - 1]) < cps[|cps| - 1].through && cps[|cps| - 1].through > 0
    ensures Floor(Marked(cps, id, now, Complete, summary)) == cps[|cps| - 1].through
  {
  }

  /** A compaction that finds a boundary and commits before anything else
      happens leaves fewer exchanges unsummarised, and at least one; it finds
      none exactly when at most one is left. */
  lemma {:induction false} CompactionProgress(steps: seq<Timed>, s: State, tokens: int, context: string,
                                              summary: string, t1: int, t2: int)
    requires Run(NEW, steps, s) && s.flight.Idle? && s.clock <= t1 <= t2
    ensures var s1 := Do(s, Compact(tokens, context), t1);
            var open := Exchanges(Region(s.rows, Floor(s.cps)));
            && (s1.flight.Idle? <==> open <= 1)
            && (s1.flight.Summarising? ==>
                  var s2 := Do(s1, Commit(summary), t2);
                  && Floor(s2.cps) > Floor(s.cps)
                  && 1 <= Exchanges(Region(s2.rows, Floor(s2.cps))) < open)
  {
    hide Run, Split, Region, WellFormed, Exchanges, Floor, RowsOk, PairsOk, EntryOk, Cut, Increasing;
    NewSound();
    RunKeeps(NEW, steps, s);
    BoundaryFound(s, tokens);
    SplitProgress(s.rows, tokens, Floor(s.cps));
    var s1 := Do(s, Compact(tokens, context), t1);
    if s1.flight.Summarising? {
      assert s1.cps[..|s.cps|] == s.cps;
      forall k | 0 <= k < |s.cps| ensures s1.cps[k].id != s.nextId {
        BelowFloor(s, k);
      }
      MarkedAt(s1.cps, s.nextId, t2, summary);
    }
  }
}
