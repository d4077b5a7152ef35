/** One session's rows and checkpoints, over every run of appends, compactions
    and retries. */
module Store {
  import opened History

  // ---- The statements, as functions of the tables ----

  function MaxSeq(rows: seq<Message>): (m: int)
    ensures rows == [] ==> m == 0
    ensures forall k :: 0 <= k < |rows| ==> rows[k].seq_ <= m
  {
    if rows == [] then 0
    else
      var n := |rows| - 1;
      var m := MaxSeq(rows[..n]);
      assert forall k :: 0 <= k < n ==> rows[k] == rows[..n][k];
      if n == 0 || rows[n].seq_ > m then rows[n].seq_ else m
  }

  /** A row's data, and what a writer supplies of a row. */
  datatype Data = Data(parsed: bool, text: string, attachments: seq<string>, calls: seq<Call>, raw: string)
  datatype Draft = Draft(kind: Kind, data: Data)

  function WithData(m: Message, d: Data): Message {
    m.(parsed := d.parsed, text := d.text, attachments := d.attachments, calls := d.calls, raw := d.raw)
  }

  function NewRow(rows: seq<Message>, d: Draft, id: nat, now: int): Message {
    WithData(Message(id, MaxSeq(rows) + 1, d.kind, now, false, "", [], [], ""), d.data)
  }

  function RowsUpTo(rows: seq<Message>, seq_: int): seq<Message> {
    if rows == [] then []
    else
      var n := |rows| - 1;
      RowsUpTo(rows[..n], seq_) + (if rows[n].seq_ > seq_ then [] else [rows[n]])
  }

  function Rewritten(rows: seq<Message>, seq_: int, d: Data): (r: seq<Message>)
    ensures |r| == |rows|
  {
    seq(|rows|, i requires 0 <= i < |rows| => if rows[i].seq_ == seq_ then WithData(rows[i], d) else rows[i])
  }

  /** time_created of the row with this number; 0 when there is none. */
  function TimeOf(rows: seq<Message>, seq_: int): int {
    if rows == [] then 0
    else if rows[0].seq_ == seq_ then rows[0].created
    else TimeOf(rows[1..], seq_)
  }

  predicate Outlives(cp: Checkpoint, seq_: int, time: int) {
    !(cp.through > seq_ || cp.created >= time)
  }

  function Surviving(cps: seq<Checkpoint>, seq_: int, time: int): seq<Checkpoint> {
    if cps == [] then []
    else
      var n := |cps| - 1;
      Surviving(cps[..n], seq_, time) + (if Outlives(cps[n], seq_, time) then [cps[n]] else [])
  }

  function Marked(cps: seq<Checkpoint>, id: nat, now: int, status: Status, summary: string): (r: seq<Checkpoint>)
    ensures |r| == |cps|
  {
    seq(|cps|, i requires 0 <= i < |cps| =>
      if cps[i].id != id then cps[i]
      else if status.Complete? then cps[i].(summary := summary, status := status, updated := now)
      else cps[i].(status := status, updated := now))
  }

  function Pruned(cps: seq<Checkpoint>, olderThan: int): seq<Checkpoint> {
    if cps == [] then []
    else
      var n := |cps| - 1;
      Pruned(cps[..n], olderThan)
      + (if !cps[n].status.Complete? && cps[n].updated < olderThan then [] else [cps[n]])
  }

  function Completes(cps: seq<Checkpoint>): seq<Checkpoint> {
    if cps == [] then []
    else
      var n := |cps| - 1;
      Completes(cps[..n]) + (if cps[n].status.Complete? then [cps[n]] else [])
  }

  /** The complete checkpoint with the highest boundary, the first of equals;
      -1 when there is none. */
  function Latest(cps: seq<Checkpoint>): (k: int)
    ensures -1 <= k < |cps|
    ensures k >= 0 ==> cps[k].status.Complete?
    ensures forall j :: 0 <= j < |cps| && cps[j].status.Complete? ==> k >= 0 && cps[j].through <= cps[k].through
  {
    if cps == [] then -1
    else
      var n := |cps| - 1;
      var k := Latest(cps[..n]);
      assert forall j :: 0 <= j < n ==> cps[j] == cps[..n][j];
      if cps[n].status.Complete? && (k < 0 || cps[n].through > cps[k].through) then n else k
  }

  function Floor(cps: seq<Checkpoint>): int {
    if Latest(cps) < 0 then 0 else cps[Latest(cps)].through
  }

  function ContextsCleared(cps: seq<Checkpoint>): (r: seq<Checkpoint>)
    ensures |r| == |cps|
  {
    seq(|cps|, i requires 0 <= i < |cps| =>
      if cps[i].status.Complete? && cps[i].through != Floor(cps) then cps[i].(context := "") else cps[i])
  }

  /** How many contexts that clears. */
  function StaleContexts(cps: seq<Checkpoint>, floor: int): nat {
    if cps == [] then 0
    else
      var n := |cps| - 1;
      StaleContexts(cps[..n], floor)
      + (if cps[n].status.Complete? && cps[n].context != "" && cps[n].through != floor then 1 else 0)
  }

  /** ORDER BY through_seq. */
  function Placed(sorted: seq<Checkpoint>, cp: Checkpoint): (r: seq<Checkpoint>)
    ensures multiset(r) == multiset(sorted) + multiset{cp}
  {
    if sorted == [] || sorted[|sorted| - 1].through <= cp.through then sorted + [cp]
    else
      var n := |sorted| - 1;
      assert sorted == sorted[..n] + [sorted[n]];
      Placed(sorted[..n], cp) + [sorted[n]]
  }

  function Ordered(cps: seq<Checkpoint>): seq<Checkpoint> {
    if cps == [] then [] else Placed(Ordered(cps[..|cps| - 1]), cps[|cps| - 1])
  }

  lemma {:induction false} NoneStale(floor: int)
    ensures StaleContexts([], floor) == 0
  {
  }

  lemma {:induction false} OneMoreStale(cps: seq<Checkpoint>, k: nat, floor: int)
    requires k < |cps|
    ensures StaleContexts(cps[..k + 1], floor)
            == StaleContexts(cps[..k], floor)
               + (if cps[k].status.Complete? && cps[k].context != "" && cps[k].through != floor then 1 else 0)
  {
    assert cps[..k + 1][..k] == cps[..k];
  }

  lemma {:induction false} NoneComplete()
    ensures Completes([]) == [] && Ordered([]) == []
  {
  }

  lemma {:induction false} OneMoreComplete(cps: seq<Checkpoint>, j: nat)
    requires j < |cps|
    ensures Ordered(Completes(cps[..j + 1]))
            == if cps[j].status.Complete? then Placed(Ordered(Completes(cps[..j])), cps[j])
               else Ordered(Completes(cps[..j]))
  {
    hide Placed;
    assert cps[..j + 1][..j] == cps[..j];
    var done := Completes(cps[..j]);
    assert (done + [cps[j]])[..|done|] == done;
    assert done + [] == done;
  }

  // ---- The store ----

  class SessionStore {
    var rows: seq<Message>
    var cps: seq<Checkpoint>
    var nextId: nat

    constructor ()
      ensures rows == [] && cps == [] && nextId == 0
    {
      rows, cps, nextId := [], [], 0;
    }

    method AppendMessage(d: Draft, now: int)
      modifies this
      ensures rows == old(rows) + [NewRow(old(rows), d, old(nextId), now)]
      ensures nextId == old(nextId) + 1 && cps == old(cps)
    {
      var max := 0;
      for k := 0 to |rows|
        invariant max == MaxSeq(rows[..k]) && rows == old(rows) && cps == old(cps) && nextId == old(nextId)
      {
        assert rows[..k + 1][..k] == rows[..k];
        if k == 0 || rows[k].seq_ > max {
          max := rows[k].seq_;
        }
      }
      assert rows[..|rows|] == rows;
      rows := rows + [WithData(Message(nextId, max + 1, d.kind, now, false, "", [], [], ""), d.data)];
      nextId := nextId + 1;
    }

    method UpdateMessageData(seq_: int, d: Data)
      modifies `rows
      ensures rows == Rewritten(old(rows), seq_, d)
    {
      var k := 0;
      while k < |rows|
        invariant 0 <= k <= |rows| == |old(rows)|
        invariant forall j :: 0 <= j < k ==> rows[j] == Rewritten(old(rows), seq_, d)[j]
        invariant forall j :: k <= j < |rows| ==> rows[j] == old(rows)[j]
      {
        if rows[k].seq_ == seq_ {
          rows := rows[k := WithData(rows[k], d)];
        }
        k := k + 1;
      }
    }

    /** Checkpoints first, then the rows, in one transaction. */
    method DeleteMessagesAfter(seq_: int)
      modifies `rows, `cps
      ensures rows == RowsUpTo(old(rows), seq_)
      ensures cps == Surviving(old(cps), seq_, TimeOf(old(rows), seq_))
    {
      var time := RowTime(seq_);
      var kept: seq<Checkpoint> := [];
      for k := 0 to |cps|
        invariant kept == Surviving(cps[..k], seq_, time) && rows == old(rows) && cps == old(cps)
      {
        assert cps[..k + 1][..k] == cps[..k];
        if !(cps[k].through > seq_ || cps[k].created >= time) {
          kept := kept + [cps[k]];
        }
      }
      assert cps[..|cps|] == cps;
      cps := kept;
      var left: seq<Message> := [];
      for k := 0 to |rows|
        invariant left == RowsUpTo(rows[..k], seq_) && rows == old(rows) && cps == kept
      {
        assert rows[..k + 1][..k] == rows[..k];
        if !(rows[k].seq_ > seq_) {
          left := left + [rows[k]];
        }
      }
      assert rows[..|rows|] == rows;
      rows := left;
    }

    method RowTime(seq_: int) returns (time: int)
      ensures time == TimeOf(rows, seq_)
    {
      var k := 0;
      while k < |rows|
        invariant 0 <= k <= |rows| && TimeOf(rows, seq_) == TimeOf(rows[k..], seq_)
      {
        if rows[k].seq_ == seq_ {
          return rows[k].created;
        }
        assert rows[k..][1..] == rows[k + 1..];
        k := k + 1;
      }
      time := 0;
    }

    method InsertCheckpoint(through: int, context: string, now: int) returns (id: nat)
      modifies this
      ensures id == old(nextId) && nextId == old(nextId) + 1 && rows == old(rows)
      ensures cps == old(cps) + [Checkpoint(id, through, "", context, Pending, now, now)]
    {
      id := nextId;
      nextId := nextId + 1;
      cps := cps + [Checkpoint(id, through, "", context, Pending, now, now)];
    }

    method CompleteCheckpoint(id: nat, summary: string, now: int)
      modifies `cps
      ensures cps == Marked(old(cps), id, now, Complete, summary)
    {
      Mark(id, now, Complete, summary);
    }

    method FailCheckpoint(id: nat, now: int)
      modifies `cps
      ensures cps == Marked(old(cps), id, now, Failed, "")
    {
      Mark(id, now, Failed, "");
    }

    method Mark(id: nat, now: int, status: Status, summary: string)
      modifies `cps
      ensures cps == Marked(old(cps), id, now, status, summary)
    {
      var k := 0;
      while k < |cps|
        invariant 0 <= k <= |cps| == |old(cps)|
        invariant forall j :: 0 <= j < k ==> cps[j] == Marked(old(cps), id, now, status, summary)[j]
        invariant forall j :: k <= j < |cps| ==> cps[j] == old(cps)[j]
      {
        if cps[k].id == id {
          if status.Complete? {
            cps := cps[k := cps[k].(summary := summary, status := status, updated := now)];
          } else {
            cps := cps[k := cps[k].(status := status, updated := now)];
          }
        }
        k := k + 1;
      }
    }

    method LatestComplete() returns (k: int)
      ensures k == Latest(cps)
    {
      k := -1;
      for j := 0 to |cps|
        invariant k == Latest(cps[..j])
      {
        assert cps[..j + 1][..j] == cps[..j];
        if cps[j].status.Complete? && (k < 0 || cps[j].through > cps[k].through) {
          k := j;
        }
      }
      assert cps[..|cps|] == cps;
    }

    method ListComplete() returns (out: seq<Checkpoint>)
      ensures out == Ordered(Completes(cps))
    {
      hide Placed, Ordered, Completes;
      NoneComplete();
      out := [];
      for j := 0 to |cps|
        invariant out == Ordered(Completes(cps[..j]))
      {
        OneMoreComplete(cps, j);
        if cps[j].status.Complete? {
          out := Placed(out, cps[j]);
        }
      }
      assert cps[..|cps|] == cps;
    }

    method PruneStale(olderThan: int) returns (changes: nat)
      modifies `cps
      ensures cps == Pruned(old(cps), olderThan) && changes == |old(cps)| - |cps|
    {
      var kept: seq<Checkpoint> := [];
      changes := 0;
      for k := 0 to |cps|
        invariant kept == Pruned(cps[..k], olderThan) && cps == old(cps) && changes == k - |kept|
      {
        assert cps[..k + 1][..k] == cps[..k];
        if !cps[k].status.Complete? && cps[k].updated < olderThan {
          changes := changes + 1;
        } else {
          kept := kept + [cps[k]];
        }
      }
      assert cps[..|cps|] == cps;
      cps := kept;
    }

    method ClearStaleContexts() returns (changes: nat)
      modifies `cps
      ensures cps == ContextsCleared(old(cps)) && changes == StaleContexts(old(cps), Floor(old(cps)))
    {
      hide Latest, StaleContexts;
      var best := LatestComplete();
      var floor := if best < 0 then 0 else cps[best].through;
      var k := 0;
      changes := 0;
      NoneStale(floor);
      assert cps[..0] == [];
      while k < |cps|
        invariant 0 <= k <= |cps| == |old(cps)| && floor == Floor(old(cps))
        invariant forall j :: 0 <= j < k ==> cps[j] == ContextsCleared(old(cps))[j]
        invariant forall j :: k <= j < |cps| ==> cps[j] == old(cps)[j]
        invariant changes == StaleContexts(old(cps)[..k], floor)
      {
        OneMoreStale(old(cps), k, floor);
        if cps[k].status.Complete? && cps[k].context != "" && cps[k].through != floor {
          cps := cps[k := cps[k].(context := "")];
          changes := changes + 1;
        }
        k := k + 1;
      }
      assert old(cps)[..k] == old(cps);
    }
  }
}
