/** What a record costs, by how its cost moves with its parts, and what a
    checkpoint's block says. */
module HistoryCost {
  import opened History

  /** A record without a JSON object, or with nothing in it. */
  lemma {:induction false} BareCost(m: Message)
    ensures !m.parsed ==> Size(m) == 64
    ensures m.parsed && m.kind.User? && m.text == "" && m.attachments == [] ==> Size(m) == 64
    ensures m.parsed && m.kind.Assistant? && m.text == "" && m.calls == [] ==> Size(m) == 64
    ensures m.parsed && m.kind.ToolResult? && m.text == "" && m.attachments == [] ==> Size(m) == 112
    ensures m.parsed && m.kind.Other? && m.raw == "" ==> Size(m) == 64
  {
    assert MAX_OUTPUT == 65536;
  }

  /** Every byte of a prompt or a reply counts; of a result's output the first
      64 KiB do. */
  lemma {:induction false} TextCost(m: Message, more: string)
    requires m.parsed
    ensures var m' := m.(text := m.text + more);
            && (m.kind.User? || m.kind.Assistant? ==> Size(m') == Size(m) + |more|)
            && (m.kind.ToolResult? && |m.text| + |more| <= 65536 ==> Size(m') == Size(m) + |more|)
            && (m.kind.ToolResult? && |m.text| >= 65536 ==> Size(m') == Size(m))
            && (m.kind.Other? ==> Size(m') == Size(m))
    ensures m.kind.Other? ==> Size(m.(raw := m.raw + more)) == Size(m) + |more|
  {
  }

  lemma {:induction false} PathsPush(paths: seq<string>, path: string)
    ensures PathBytes(paths + [path]) == PathBytes(paths) + 48 + |path|
  {
    assert (paths + [path])[..|paths|] == paths;
  }

  lemma {:induction false} CallsPush(calls: seq<Call>, c: Call)
    ensures CallBytes(calls + [c]) == CallBytes(calls) + 48 + |c.name| + |c.input|
  {
    assert (calls + [c])[..|calls|] == calls;
  }

  /** One more call of a reply, with its whole input; one more attachment of a
      prompt or a result. */
  lemma {:induction false} PartCost(m: Message, c: Call, path: string)
    requires m.parsed
    ensures m.kind.Assistant? ==> Size(m.(calls := m.calls + [c])) == Size(m) + 48 + |c.name| + |c.input|
    ensures m.kind.User? || m.kind.ToolResult? ==> Size(m.(attachments := m.attachments + [path])) == Size(m) + 48 + |path|
  {
    CallsPush(m.calls, c);
    PathsPush(m.attachments, path);
  }

  /** A prompt is an exchange of its own; any other record ends one together
      with all results that directly follow it, and nothing else. */
  lemma {:induction false} EndExact(r: seq<Message>, start: nat, end: nat)
    requires start < |r|
    ensures ExchangeEnd(r, start) == end <==>
              if r[start].kind == User then end == start + 1
              else start < end <= |r| && (forall k :: start < k < end ==> r[k].kind == ToolResult)
                   && (end < |r| ==> r[end].kind != ToolResult)
  {
  }

  function Sum(sizes: seq<nat>): nat {
    if sizes == [] then 0 else sizes[0] + Sum(sizes[1..])
  }

  function Sizes(r: seq<Message>): (s: seq<nat>)
    ensures |s| == |r|
  {
    seq(|r|, i requires 0 <= i < |r| => Size(r[i]))
  }

  /** What is kept costs what its records cost together. */
  lemma {:induction false} KeptCost(r: seq<Message>, c: nat)
    requires c <= |r|
    ensures Cost(r, c, |r|) == Sum(Sizes(r[c..]))
    decreases |r| - c
  {
    hide Size;
    if c < |r| {
      KeptCost(r, c + 1);
      CostJoin(r, c, c + 1, |r|);
      assert Cost(r, c, c + 1) == Cost(r, c, c) + Size(r[c]);
      assert Sizes(r[c..])[1..] == Sizes(r[c + 1..]);
    } else {
      assert Sizes(r[c..]) == [];
    }
  }

  /** The whole budget of a setting that fits; a negative one wraps around and
      never runs out. */
  lemma {:induction false} BudgetOf(tokens: int)
    ensures 0 <= tokens <= 0x7FFF_FFFF ==> BudgetBytes(tokens) == 4 * tokens
    ensures -0x8000_0000 <= tokens < 0 ==> BudgetBytes(tokens) == 0x1_0000_0000_0000_0000 + 4 * tokens
  {
    if -0x8000_0000 <= tokens < 0 {
      assert tokens % SIZE_T == tokens + SIZE_T;
      var n := (tokens + SIZE_T) * 4;
      assert n == 3 * SIZE_T + (SIZE_T + 4 * tokens);
      Wraps(3, SIZE_T + 4 * tokens);
    }
  }

  lemma {:induction false} Wraps(k: nat, n: nat)
    requires n < SIZE_T
    ensures (k * SIZE_T + n) % SIZE_T == n
    decreases k
  {
    if k > 0 {
      Wraps(k - 1, n);
      assert k * SIZE_T + n == ((k - 1) * SIZE_T + n) + SIZE_T;
    }
  }

  predicate EndsWith(s: string, t: string) {
    |t| <= |s| && s[|s| - |t|..] == t
  }

  lemma {:induction false} EndOf(head: string, t: string)
    ensures EndsWith(head + t, t) && (head + t)[|head|..] == t
  {
  }

  lemma {:induction false} SameEnds(head: string, a: string, b: string)
    ensures head + a + "\n" == head + b + "\n" <==> a == b
  {
    var x, y := head + a + "\n", head + b + "\n";
    if x == y {
      assert |x| == |head| + |a| + 1 && |y| == |head| + |b| + 1;
      assert x[|head|..|x| - 1] == a && y[|head|..|y| - 1] == b;
    }
  }

  /** The first record of the context says the summary, and only that of the
      checkpoint: two checkpoints open alike exactly when their summaries are
      the same. It is numbered below every row. */
  lemma {:induction false} BlockSays(msgs: seq<Message>, a: Checkpoint, b: Checkpoint)
    ensures var first := Applied(msgs, a)[0];
            && EndsWith(first.text, "## Summary of earlier conversation\n\n" + a.summary + "\n")
            && first.seq_ == 0 && first.parsed && first.kind.Other? && first.created == a.created
    ensures Applied(msgs, a)[0].text == Applied(msgs, b)[0].text <==> a.summary == b.summary
  {
    hide NOTICE;
    var heading := "## Summary of earlier conversation\n\n";
    assert BlockText(a) == NOTICE + (heading + a.summary + "\n");
    EndOf(NOTICE, heading + a.summary + "\n");
    SameEnds(NOTICE + heading, a.summary, b.summary);
  }
}
