/** Where compaction cuts a conversation, and the context a checkpoint leaves. */
module History {

  datatype Kind = User | Assistant | ToolResult | Other

  datatype Call = Call(name: string, input: string)

  /** A stored record. `text` is a prompt's or reply's text or a result's
      output, `raw` the record's whole data; an unparsed record's data is not
      a JSON object. */
  datatype Message = Message(id: nat, seq_: int, kind: Kind, created: int, parsed: bool, text: string,
                             attachments: seq<string>, calls: seq<Call>, raw: string)

  const MAX_OUTPUT := 64 * 1024

  // ---- The size of one record ----

  function PathBytes(paths: seq<string>): nat {
    if paths == [] then 0 else PathBytes(paths[..|paths| - 1]) + 48 + |paths[|paths| - 1]|
  }

  function CallBytes(calls: seq<Call>): nat {
    if calls == [] then 0
    else CallBytes(calls[..|calls| - 1]) + 48 + |calls[|calls| - 1].name| + |calls[|calls| - 1].input|
  }

  function Size(m: Message): (r: nat)
    ensures r >= 64
  {
    if !m.parsed then 64
    else
      match m.kind
      case User => 64 + |m.text| + PathBytes(m.attachments)
      case Assistant => 64 + |m.text| + CallBytes(m.calls)
      case ToolResult => 64 + (if |m.text| < MAX_OUTPUT then |m.text| else MAX_OUTPUT) + 48 + PathBytes(m.attachments)
      case Other => 64 + |m.raw|
  }

  method AddPaths(bytes: nat, paths: seq<string>) returns (r: nat)
    ensures r == bytes + PathBytes(paths)
  {
    r := bytes;
    for k := 0 to |paths|
      invariant r == bytes + PathBytes(paths[..k])
    {
      assert paths[..k + 1][..k] == paths[..k];
      r := r + 48 + |paths[k]|;
    }
    assert paths[..|paths|] == paths;
  }

  method SerializedSize(m: Message) returns (bytes: nat)
    ensures bytes == Size(m)
  {
    bytes := 64;
    if !m.parsed {
      return;
    }
    if m.kind.User? {
      bytes := AddPaths(bytes + |m.text|, m.attachments);
    } else if m.kind.Assistant? {
      bytes := bytes + |m.text|;
      for k := 0 to |m.calls|
        invariant bytes == 64 + |m.text| + CallBytes(m.calls[..k])
      {
        assert m.calls[..k + 1][..k] == m.calls[..k];
        bytes := bytes + 48 + |m.calls[k].name| + |m.calls[k].input|;
      }
      assert m.calls[..|m.calls|] == m.calls;
    } else if m.kind.ToolResult? {
      var kept := if |m.text| < MAX_OUTPUT then |m.text| else MAX_OUTPUT;
      bytes := AddPaths(bytes + kept + 48, m.attachments);
    } else {
      bytes := bytes + |m.raw|;
    }
  }

  function Cost(r: seq<Message>, i: nat, j: nat): nat
    requires i <= j <= |r|
  {
    if i == j then 0 else Cost(r, i, j - 1) + Size(r[j - 1])
  }

  lemma {:induction false} CostJoin(r: seq<Message>, i: nat, j: nat, k: nat)
    requires i <= j <= k <= |r|
    ensures Cost(r, i, k) == Cost(r, i, j) + Cost(r, j, k)
    ensures i < j ==> Cost(r, j, k) < Cost(r, i, k)
    decreases k
  {
    if j < k {
      CostJoin(r, i, j, k - 1);
    } else if i < j {
      assert Cost(r, i, j) >= Size(r[j - 1]);
    }
  }

  // ---- Exchanges ----

  /** Back over tool results, down to the front. */
  function RunStart(r: seq<Message>, p: nat): (s: nat)
    requires p < |r|
    ensures s <= p && (s == 0 || !r[s].kind.ToolResult?)
    ensures forall k :: s < k <= p ==> r[k].kind.ToolResult?
  {
    if p > 0 && r[p].kind.ToolResult? then RunStart(r, p - 1) else p
  }

  /** A tool result whose run follows an assistant record. */
  predicate Inside(r: seq<Message>, p: nat)
    requires p < |r|
  {
    r[p].kind.ToolResult? && r[RunStart(r, p)].kind.Assistant?
  }

  /** Between two exchanges: no assistant record loses its results here. */
  predicate Bound(r: seq<Message>, p: nat) {
    p <= |r| && (p < |r| ==> !Inside(r, p))
  }

  function ExchangeEnd(r: seq<Message>, start: nat): (e: nat)
    requires start < |r|
    ensures start < e <= |r|
  {
    if r[start].kind.User? then start + 1 else ResultsEnd(r, start + 1)
  }

  function ResultsEnd(r: seq<Message>, j: nat): (e: nat)
    requires j <= |r|
    ensures j <= e <= |r| && (e < |r| ==> !r[e].kind.ToolResult?)
    ensures forall k :: j <= k < e ==> r[k].kind.ToolResult?
    decreases |r| - j
  {
    if j < |r| && r[j].kind.ToolResult? then ResultsEnd(r, j + 1) else j
  }

  /** The start of the exchange that ends at i. */
  function Prev(r: seq<Message>, i: nat): (s: nat)
    requires 0 < i <= |r|
    ensures s < i
  {
    if Inside(r, i - 1) then RunStart(r, i - 1) else i - 1
  }

  /** It is the bound before i, with none between. */
  lemma {:induction false} PrevBound(r: seq<Message>, i: nat)
    requires 0 < i <= |r|
    ensures Bound(r, Prev(r, i))
    ensures forall p: nat :: Prev(r, i) < p < i ==> !Bound(r, p)
  {
  }

  /** An exchange of more than one record ends where the next one starts. */
  lemma {:induction false} PrevEnds(r: seq<Message>, i: nat)
    requires 0 < i <= |r| && Bound(r, i) && Prev(r, i) < i - 1
    ensures ExchangeEnd(r, Prev(r, i)) == i
  {
  }

  lemma {:induction false} EndBound(r: seq<Message>)
    requires r != []
    ensures Bound(r, ExchangeEnd(r, 0))
  {
  }

  // ---- The split ----

  const SIZE_T := 0x1_0000_0000_0000_0000

  /** size_t(tokens) * 4; a negative setting wraps around. */
  function BudgetBytes(tokens: int): (b: nat)
    ensures 0 <= tokens < SIZE_T / 4 ==> b == 4 * tokens
  {
    ((tokens % SIZE_T) * 4) % SIZE_T
  }

  /** The rows no checkpoint covers yet. */
  function FirstAfter(msgs: seq<Message>, prev: int): (k: nat)
    ensures k <= |msgs|
  {
    if msgs != [] && (msgs[0].seq_ <= 0 || msgs[0].seq_ <= prev) then 1 + FirstAfter(msgs[1..], prev) else 0
  }

  function Region(msgs: seq<Message>, prev: int): seq<Message> {
    msgs[FirstAfter(msgs, prev)..]
  }

  /** Backward over whole exchanges until the budget is spent. */
  function Recent(r: seq<Message>, i: nat, used: nat, budget: nat): (s: nat)
    requires i <= |r|
    ensures s <= i
    decreases i
  {
    if i == 0 then 0
    else
      var s := Prev(r, i);
      var c := Cost(r, s, i);
      if i < |r| && used + c > budget then i
      else if used + c >= budget then s
      else Recent(r, s, used + c, budget)
  }

  function RecentStart(r: seq<Message>, budget: nat): (s: nat)
    ensures s <= |r|
  {
    Recent(r, |r|, 0, budget)
  }

  /** Index of the first retained row, or -1. */
  function Cut(r: seq<Message>, budget: nat): (c: int)
    ensures c <= |r|
  {
    if r == [] then -1
    else
      var s := RecentStart(r, budget);
      if s > 0 then s
      else
        var second := ExchangeEnd(r, 0);
        if second >= |r| then -1 else second
  }

  function SplitRegion(r: seq<Message>, budget: nat, prev: int): int {
    var c := Cut(r, budget);
    if c <= 0 || r[c - 1].seq_ <= prev then -1 else r[c - 1].seq_
  }

  function Split(msgs: seq<Message>, tokens: int, prev: int): int {
    SplitRegion(Region(msgs, prev), BudgetBytes(tokens), prev)
  }

  // ---- The loops ----

  method ExchangeEndOf(msgs: seq<Message>, start: nat) returns (j: nat)
    requires start < |msgs|
    ensures j == ExchangeEnd(msgs, start)
  {
    if msgs[start].kind.User? {
      return start + 1;
    }
    j := start + 1;
    while j < |msgs| && msgs[j].kind.ToolResult?
      invariant start < j <= |msgs| && ResultsEnd(msgs, j) == ResultsEnd(msgs, start + 1)
    {
      j := j + 1;
    }
  }

  lemma {:induction false} EndShifts(msgs: seq<Message>, first: nat, j: nat)
    requires first <= j <= |msgs|
    ensures ResultsEnd(msgs, j) == first + ResultsEnd(msgs[first..], j - first)
    decreases |msgs| - j
  {
  }

  method FirstIndex(msgs: seq<Message>, prev: int) returns (first: nat)
    ensures first == FirstAfter(msgs, prev)
  {
    first := 0;
    while first < |msgs| && (msgs[first].seq_ <= 0 || msgs[first].seq_ <= prev)
      invariant first <= |msgs| && FirstAfter(msgs, prev) == first + FirstAfter(msgs[first..], prev)
    {
      assert msgs[first..][1..] == msgs[first + 1..];
      first := first + 1;
    }
  }

  /** Start of the exchange that ends at i. */
  method ExchangeStart(msgs: seq<Message>, first: nat, i: nat) returns (start: nat)
    requires first < i <= |msgs| && Bound(msgs[first..], i - first)
    ensures start == first + Prev(msgs[first..], i - first)
  {
    ghost var r := msgs[first..];
    start := i - 1;
    if msgs[start].kind.ToolResult? {
      while start > first && msgs[start].kind.ToolResult?
        invariant first <= start < i && RunStart(r, start - first) == RunStart(r, i - 1 - first)
      {
        start := start - 1;
      }
      if !msgs[start].kind.Assistant? {
        start := i - 1;
      }
    }
    assert start == first + Prev(r, i - first);
    if start < i - 1 {
      PrevEnds(r, i - first);
      EndShifts(msgs, first, start + 1);
    }
    var end := ExchangeEndOf(msgs, start);
    if end != i {
      start := i - 1;
    }
  }

  method ExchangeCost(msgs: seq<Message>, first: nat, start: nat, end: nat) returns (cost: nat)
    requires first <= start <= end <= |msgs|
    ensures cost == Cost(msgs[first..], start - first, end - first)
  {
    cost := 0;
    for k := start to end
      invariant cost == Cost(msgs[first..], start - first, k - first)
    {
      var bytes := SerializedSize(msgs[k]);
      cost := cost + bytes;
    }
  }

  /** Start of the retained rows: backward until the budget is spent. */
  method RecentIndex(msgs: seq<Message>, first: nat, budget: nat) returns (recentStart: nat)
    requires first < |msgs|
    ensures recentStart == first + RecentStart(msgs[first..], budget)
  {
    hide Cost, ExchangeEnd, Prev, Bound, Size;
    ghost var r := msgs[first..];
    recentStart := |msgs|;
    var used: nat := 0;
    var i := |msgs|;
    assert Bound(r, |r|) by { EndsBound(r); }
    while i > first
      invariant first <= i == recentStart <= |msgs| && Bound(r, i - first)
      invariant Recent(r, i - first, used, budget) == RecentStart(r, budget)
      decreases i
    {
      PrevBound(r, i - first);
      var start := ExchangeStart(msgs, first, i);
      var cost := ExchangeCost(msgs, first, start, i);
      if recentStart < |msgs| && used + cost > budget {
        break;
      }
      used := used + cost;
      recentStart := start;
      i := start;
      if used >= budget {
        break;
      }
    }
  }

  lemma {:induction false} EndsBound(r: seq<Message>)
    ensures Bound(r, |r|)
  {
  }

  method SplitHistory(msgs: seq<Message>, tokens: int, prev: int) returns (through: int)
    ensures through == Split(msgs, tokens, prev)
  {
    hide RecentStart, BudgetBytes, FirstAfter;
    if msgs == [] {
      assert FirstAfter(msgs, prev) == 0;
      return -1;
    }
    var first := FirstIndex(msgs, prev);
    if first >= |msgs| {
      return -1;
    }
    var recentStart := RecentIndex(msgs, first, BudgetBytes(tokens));
    if recentStart <= first {
      var second := ExchangeEndOf(msgs, first);
      EndShifts(msgs, first, first + 1);
      if second >= |msgs| {
        return -1;
      }
      recentStart := second;
    }
    through := msgs[recentStart - 1].seq_;
    if through <= prev {
      return -1;
    }
  }

  // ---- What the split keeps ----

  lemma {:induction false} RecentFits(r: seq<Message>, i: nat, used: nat, budget: nat)
    requires i <= |r| && Bound(r, i) && used == Cost(r, i, |r|)
    requires i < |r| ==> used < budget
    ensures var s := Recent(r, i, used, budget);
            && Bound(r, s) && (r != [] ==> s < |r|)
            && (s < |r| ==> Cost(r, s, |r|) <= budget || s == Prev(r, |r|))
            && (forall p: nat :: p < s && Bound(r, p) ==> Cost(r, p, |r|) > budget)
    decreases i
  {
    if i > 0 {
      var s := Prev(r, i);
      PrevBound(r, i);
      CostJoin(r, s, i, |r|);
      if i < |r| && used + Cost(r, s, i) > budget {
        BeforeCostsMore(r, s, i, budget);
      } else if used + Cost(r, s, i) >= budget {
        BeforeCostsMore(r, s, s, budget);
      } else {
        RecentFits(r, s, used + Cost(r, s, i), budget);
      }
    }
  }

  /** Bounds below i cost at least as much as the last one, s, does. */
  lemma {:induction false} BeforeCostsMore(r: seq<Message>, s: nat, i: nat, budget: nat)
    requires s <= i <= |r| && Cost(r, s, |r|) >= budget
    requires s < i ==> Cost(r, s, |r|) > budget
    requires forall p: nat :: s < p < i ==> !Bound(r, p)
    ensures forall p: nat :: p < i && Bound(r, p) ==> Cost(r, p, |r|) > budget
  {
    forall p: nat | p < i && Bound(r, p) ensures Cost(r, p, |r|) > budget {
      CostJoin(r, p, s, |r|);
    }
  }

  /** For every history, budget and floor: the cut separates two exchanges. It
      keeps the last exchange, or what fits the budget, and keeps as much as
      fits; only when everything fits it cuts off exactly the oldest
      exchange instead. */
  lemma {:induction false} CutExact(r: seq<Message>, budget: nat)
    requires Cut(r, budget) >= 0
    ensures var c := Cut(r, budget);
            && 0 < c < |r| && Bound(r, c)
            && (Cost(r, c, |r|) <= budget || c == Prev(r, |r|))
            && ((forall p: nat :: p < c && Bound(r, p) ==> Cost(r, p, |r|) > budget)
                || (Cost(r, 0, |r|) <= budget && c == ExchangeEnd(r, 0)))
  {
    var s := RecentStart(r, budget);
    RecentFits(r, |r|, 0, budget);
    if s == 0 {
      EndBound(r);
      CostJoin(r, 0, ExchangeEnd(r, 0), |r|);
      if Prev(r, |r|) == 0 && |r| > 1 {
        PrevEnds(r, |r|);
      }
    }
  }

  /** No other cut above the front does. */
  lemma {:induction false} CutUnique(r: seq<Message>, budget: nat, c: nat)
    requires 0 < c < |r| && Bound(r, c)
    requires Cost(r, c, |r|) <= budget || c == Prev(r, |r|)
    requires forall p: nat :: p < c && Bound(r, p) ==> Cost(r, p, |r|) > budget
    ensures Cut(r, budget) == c
  {
    var s := RecentStart(r, budget);
    RecentFits(r, |r|, 0, budget);
    PrevBound(r, |r|);
  }

  /** Nothing is cut exactly when everything fits, or is one exchange, and the
      first exchange reaches the end. */
  lemma {:induction false} NoCutExact(r: seq<Message>, budget: nat)
    requires r != []
    ensures Cut(r, budget) < 0 <==>
            (Cost(r, 0, |r|) <= budget || Prev(r, |r|) == 0) && ExchangeEnd(r, 0) == |r|
  {
    var s := RecentStart(r, budget);
    RecentFits(r, |r|, 0, budget);
    if s > 0 {
      assert Bound(r, 0);
      assert Cost(r, 0, |r|) > budget;
      PrevBound(r, |r|);
    }
  }

  // ---- Histories the engine writes ----

  /** Sequence numbers rise; a tool result directly follows its reply or
      another result. */
  predicate Increasing(msgs: seq<Message>) {
    forall i, j :: 0 <= i < j < |msgs| ==> msgs[i].seq_ < msgs[j].seq_
  }

  predicate WellFormed(r: seq<Message>) {
    forall k :: 0 <= k < |r| && r[k].kind.ToolResult? ==>
      k > 0 && (r[k - 1].kind.Assistant? || r[k - 1].kind.ToolResult?)
  }

  /** How many exchanges start in r. */
  function Exchanges(r: seq<Message>): nat {
    if r == [] then 0
    else Exchanges(r[..|r| - 1]) + (if r[|r| - 1].kind.ToolResult? then 0 else 1)
  }

  lemma {:induction false} RunReachesAssistant(r: seq<Message>, p: nat)
    requires WellFormed(r) && p < |r| && r[p].kind.ToolResult?
    ensures r[RunStart(r, p)].kind.Assistant?
    decreases p
  {
    if r[p - 1].kind.ToolResult? {
      RunReachesAssistant(r, p - 1);
    }
  }

  /** Then an exchange starts at every row that is no tool result. */
  lemma {:induction false} BoundIsStart(r: seq<Message>, p: nat)
    requires WellFormed(r) && p < |r|
    ensures Bound(r, p) <==> !r[p].kind.ToolResult?
  {
    if r[p].kind.ToolResult? {
      RunReachesAssistant(r, p);
    }
  }

  lemma {:induction false} ExchangesJoin(a: seq<Message>, b: seq<Message>)
    ensures Exchanges(a + b) == Exchanges(a) + Exchanges(b)
    decreases |b|
  {
    if b == [] {
      assert a + b == a;
    } else {
      assert (a + b)[..|a + b| - 1] == a + b[..|b| - 1];
      ExchangesJoin(a, b[..|b| - 1]);
    }
  }

  lemma {:induction false} OnlyResults(r: seq<Message>)
    requires forall k :: 0 <= k < |r| ==> r[k].kind.ToolResult?
    ensures Exchanges(r) == 0
    decreases |r|
  {
    if r != [] {
      OnlyResults(r[..|r| - 1]);
    }
  }

  lemma {:induction false} StartsWithOne(r: seq<Message>)
    requires r != [] && !r[0].kind.ToolResult?
    ensures Exchanges(r) >= 1
  {
    assert r == r[..1] + r[1..] && r[..1][..0] == [];
    ExchangesJoin(r[..1], r[1..]);
    assert Exchanges(r[..1][..0]) == 0;
    assert Exchanges(r[..1]) == 1;
  }

  lemma {:induction false} FirstExchange(r: seq<Message>)
    requires WellFormed(r) && r != []
    ensures Exchanges(r[..ExchangeEnd(r, 0)]) == 1
    ensures ExchangeEnd(r, 0) < |r| ==> Exchanges(r[ExchangeEnd(r, 0)..]) >= 1
  {
    var e := ExchangeEnd(r, 0);
    assert r[..e] == r[..1] + r[1..e] && r[..1][..0] == [];
    ExchangesJoin(r[..1], r[1..e]);
    OnlyResults(r[1..e]);
    assert Exchanges(r[..1][..0]) == 0;
    assert Exchanges(r[..1]) == 1;
    if e < |r| {
      EndBound(r);
      BoundIsStart(r, e);
      StartsWithOne(r[e..]);
    }
  }

  lemma {:induction false} FrontRows(msgs: seq<Message>, prev: int)
    requires Increasing(msgs)
    ensures forall k :: 0 <= k < |msgs| ==>
              (k < FirstAfter(msgs, prev) <==> msgs[k].seq_ <= 0 || msgs[k].seq_ <= prev)
    decreases |msgs|
  {
    if msgs != [] && (msgs[0].seq_ <= 0 || msgs[0].seq_ <= prev) {
      FrontRows(msgs[1..], prev);
      assert forall k :: 0 < k < |msgs| ==> msgs[k] == msgs[1..][k - 1];
    }
  }

  /** With rising sequence numbers, there is nothing to compact exactly when at
      most one exchange lies past the last boundary; else the boundary moves
      up, over whole exchanges, and leaves at least one. */
  lemma {:induction false} SplitProgress(msgs: seq<Message>, tokens: int, prev: int)
    requires Increasing(msgs) && WellFormed(Region(msgs, prev))
    ensures Split(msgs, tokens, prev) == -1 <==> Exchanges(Region(msgs, prev)) <= 1
    ensures Split(msgs, tokens, prev) != -1 ==>
              var t := Split(msgs, tokens, prev);
              && t > prev && t > 0
              && 1 <= Exchanges(Region(msgs, t)) < Exchanges(Region(msgs, prev))
              && WellFormed(Region(msgs, t))
              && Region(msgs, t) == Region(msgs, prev)[Cut(Region(msgs, prev), BudgetBytes(tokens))..]
  {
    hide BudgetBytes, FirstAfter, Recent, RunStart, ResultsEnd;
    var r, b := Region(msgs, prev), BudgetBytes(tokens);
    if r != [] {
      FirstExchange(r);
      assert r == r[..ExchangeEnd(r, 0)] + r[ExchangeEnd(r, 0)..];
      ExchangesJoin(r[..ExchangeEnd(r, 0)], r[ExchangeEnd(r, 0)..]);
      FrontRows(msgs, prev);
      var c := Cut(r, b);
      if c < 0 {
        NoCutExact(r, b);
        assert r[ExchangeEnd(r, 0)..] == [];
      } else {
        CutAdvances(msgs, prev, b);
      }
    }
  }

  /** Past the boundary at row k of the region, the rows from k on remain. */
  lemma {:induction false} NextRegion(msgs: seq<Message>, prev: int, k: nat)
    requires Increasing(msgs) && 0 < k < |Region(msgs, prev)|
    ensures var r := Region(msgs, prev);
            r[k - 1].seq_ > prev && r[k - 1].seq_ > 0 && Region(msgs, r[k - 1].seq_) == r[k..]
  {
    hide FirstAfter;
    var r := Region(msgs, prev);
    var first := FirstAfter(msgs, prev);
    FrontRows(msgs, prev);
    var t := r[k - 1].seq_;
    assert r[k - 1] == msgs[first + k - 1];
    FrontRows(msgs, t);
    assert msgs[first + k].seq_ > t;
    assert FirstAfter(msgs, t) == first + k;
    assert msgs[first + k..] == r[k..];
  }

  lemma {:induction false} CutAdvances(msgs: seq<Message>, prev: int, budget: nat)
    requires Increasing(msgs) && WellFormed(Region(msgs, prev)) && Cut(Region(msgs, prev), budget) >= 0
    ensures var r := Region(msgs, prev);
            var c := Cut(r, budget);
            && 0 < c < |r|
            && r[c - 1].seq_ > prev && r[c - 1].seq_ > 0
            && Region(msgs, r[c - 1].seq_) == r[c..]
            && 1 <= Exchanges(r[c..]) < Exchanges(r)
            && WellFormed(r[c..])
  {
    hide Region, Cut, Exchanges, Bound, Cost, Prev, ExchangeEnd;
    var r := Region(msgs, prev);
    var c := Cut(r, budget);
    CutExact(r, budget);
    BoundIsStart(r, c);
    StartsWithOne(r[..c]);
    StartsWithOne(r[c..]);
    assert r == r[..c] + r[c..];
    ExchangesJoin(r[..c], r[c..]);
    NextRegion(msgs, prev, c);
  }

  /** The boundaries of compacting again and again. */
  function Boundaries(msgs: seq<Message>, tokens: int, prev: int): (bs: seq<int>)
    requires Increasing(msgs) && WellFormed(Region(msgs, prev))
    decreases Exchanges(Region(msgs, prev))
  {
    var t := Split(msgs, tokens, prev);
    if t == -1 then []
    else
      SplitProgress(msgs, tokens, prev);
      [t] + Boundaries(msgs, tokens, t)
  }

  /** Repeated compaction stops, after fewer rounds than there were exchanges,
      with boundaries that only rise, and with the last exchange left. */
  lemma {:induction false} RepeatedCompaction(msgs: seq<Message>, tokens: int, prev: int)
    requires Increasing(msgs) && WellFormed(Region(msgs, prev))
    ensures var bs := Boundaries(msgs, tokens, prev);
            && (forall k :: 0 <= k < |bs| ==> bs[k] > prev)
            && (forall j, k :: 0 <= j < k < |bs| ==> bs[j] < bs[k])
            && (Exchanges(Region(msgs, prev)) > 0 ==>
                  && |bs| < Exchanges(Region(msgs, prev))
                  && Exchanges(Region(msgs, if bs == [] then prev else bs[|bs| - 1])) == 1)
    decreases Exchanges(Region(msgs, prev))
  {
    hide Split, Exchanges, Region, BudgetBytes, Cut;
    SplitProgress(msgs, tokens, prev);
    var t := Split(msgs, tokens, prev);
    if t != -1 {
      RepeatedCompaction(msgs, tokens, t);
      var bs, rest := Boundaries(msgs, tokens, prev), Boundaries(msgs, tokens, t);
      assert bs == [t] + rest;
    }
  }

  // ---- The context after a checkpoint ----

  datatype Checkpoint = Checkpoint(id: nat, through: int, summary: string, context: string, status: Status,
                                   created: int, updated: int)
  datatype Status = Pending | Complete | Failed

  const NOTICE := "[The following is HISTORICAL CONVERSATION, summarized because the "
                  + "context window was approaching its limit. It is a record of what "
                  + "happened earlier \U{e2}\U{80}\U{94} it is not current instructions. Raw messages "
                  + "before this point are no longer in context.]\n\n"

  function BlockText(cp: Checkpoint): string {
    NOTICE + "## Summary of earlier conversation\n\n" + cp.summary + "\n"
  }

  function Block(cp: Checkpoint): Message {
    Message(cp.id, 0, Other, cp.created, true, BlockText(cp), [], [], BlockText(cp))
  }

  function After(msgs: seq<Message>, through: int): seq<Message> {
    if msgs == [] then []
    else
      var n := |msgs| - 1;
      After(msgs[..n], through) + (if msgs[n].seq_ <= 0 || msgs[n].seq_ <= through then [] else [msgs[n]])
  }

  function Applied(msgs: seq<Message>, cp: Checkpoint): seq<Message> {
    [Block(cp)] + After(msgs, cp.through)
  }

  method ApplyCheckpoint(msgs: seq<Message>, cp: Checkpoint) returns (out: seq<Message>)
    ensures out == Applied(msgs, cp)
  {
    var tail: seq<Message> := [];
    for k := 0 to |msgs|
      invariant tail == After(msgs[..k], cp.through)
    {
      assert msgs[..k + 1][..k] == msgs[..k];
      var m := msgs[k];
      if m.seq_ <= 0 {
        continue;
      }
      if m.seq_ <= cp.through {
        continue;
      }
      tail := tail + [m];
    }
    assert msgs[..|msgs|] == msgs;
    out := [Block(cp)] + tail;
  }

  lemma {:induction false} AfterPush(msgs: seq<Message>, m: Message, through: int)
    ensures After(msgs + [m], through)
            == After(msgs, through) + (if m.seq_ <= 0 || m.seq_ <= through then [] else [m])
  {
  }

  lemma {:induction false} AfterJoin(a: seq<Message>, b: seq<Message>, through: int)
    ensures After(a + b, through) == After(a, through) + After(b, through)
    decreases |b|
  {
    if b == [] {
      assert a + b == a;
    } else {
      var n := |b| - 1;
      assert a + b == (a + b[..n]) + [b[n]] && b == b[..n] + [b[n]];
      AfterJoin(a, b[..n], through);
      AfterPush(a + b[..n], b[n], through);
      AfterPush(b[..n], b[n], through);
    }
  }

  lemma {:induction false} AfterAfter(msgs: seq<Message>, t1: int, t2: int)
    ensures After(After(msgs, t1), t2) == After(msgs, if t1 < t2 then t2 else t1)
    decreases |msgs|
  {
    if msgs != [] {
      var n := |msgs| - 1;
      AfterAfter(msgs[..n], t1, t2);
      if msgs[n].seq_ > 0 && msgs[n].seq_ > t1 {
        AfterPush(After(msgs[..n], t1), msgs[n], t2);
      } else {
        assert After(msgs, t1) == After(msgs[..n], t1);
      }
    }
  }

  lemma {:induction false} AfterBlock(msgs: seq<Message>, cp: Checkpoint, t: int)
    ensures After(Applied(msgs, cp), t) == After(After(msgs, cp.through), t)
  {
    AfterJoin([Block(cp)], After(msgs, cp.through), t);
    assert After([Block(cp)][..0], t) == [];
    assert After([Block(cp)], t) == [];
  }

  lemma {:induction false} AfterDiffers(msgs: seq<Message>, low: int, high: int)
    requires low <= high
    ensures After(msgs, low) == After(msgs, high)
            <==> (forall k :: 0 <= k < |msgs| && msgs[k].seq_ > 0 ==> !(low < msgs[k].seq_ <= high))
    ensures |After(msgs, high)| <= |After(msgs, low)|
    ensures |After(msgs, high)| == |After(msgs, low)| ==> After(msgs, low) == After(msgs, high)
    decreases |msgs|
  {
    if msgs != [] {
      var n := |msgs| - 1;
      AfterDiffers(msgs[..n], low, high);
      assert forall k :: 0 <= k < n ==> msgs[..n][k] == msgs[k];
    }
  }

  /** A second checkpoint replaces the first exactly when no row lies between
      its boundary and a higher first one; so always when it is not lower. */
  lemma {:induction false} ApplyTwice(msgs: seq<Message>, c1: Checkpoint, c2: Checkpoint)
    ensures Applied(Applied(msgs, c1), c2) == Applied(msgs, c2)
            <==> (forall k :: 0 <= k < |msgs| && msgs[k].seq_ > 0 ==> !(c2.through < msgs[k].seq_ <= c1.through))
  {
    AfterBlock(msgs, c1, c2.through);
    AfterAfter(msgs, c1.through, c2.through);
    if c2.through < c1.through {
      AfterDiffers(msgs, c2.through, c1.through);
    }
    assert Applied(Applied(msgs, c1), c2)[1..] == After(After(msgs, c1.through), c2.through);
    assert Applied(msgs, c2)[1..] == After(msgs, c2.through);
  }

  lemma {:induction false} NoneAfter(msgs: seq<Message>, through: int)
    requires forall k :: 0 <= k < |msgs| ==> msgs[k].seq_ <= 0 || msgs[k].seq_ <= through
    ensures After(msgs, through) == []
    decreases |msgs|
  {
    if msgs != [] {
      NoneAfter(msgs[..|msgs| - 1], through);
    }
  }

  lemma {:induction false} AllAfter(msgs: seq<Message>, through: int)
    requires forall k :: 0 <= k < |msgs| ==> msgs[k].seq_ > 0 && msgs[k].seq_ > through
    ensures After(msgs, through) == msgs
    decreases |msgs|
  {
    if msgs != [] {
      var n := |msgs| - 1;
      AllAfter(msgs[..n], through);
      assert msgs == msgs[..n] + [msgs[n]];
    }
  }

  lemma {:induction false} AfterIsRegion(msgs: seq<Message>, through: int)
    requires Increasing(msgs)
    ensures After(msgs, through) == Region(msgs, through)
  {
    hide After, Increasing, FirstAfter;
    FrontRows(msgs, through);
    var f := FirstAfter(msgs, through);
    NoneAfter(msgs[..f], through);
    AllAfter(msgs[f..], through);
    AfterJoin(msgs[..f], msgs[f..], through);
    assert msgs == msgs[..f] + msgs[f..];
  }

  /** Splitting what the checkpoint left of a history gives the boundary that
      splitting the whole history past the checkpoint gives. */
  lemma {:induction false} SplitOfContext(msgs: seq<Message>, cp: Checkpoint, tokens: int)
    requires Increasing(msgs)
    ensures Split(Applied(msgs, cp), tokens, cp.through) == Split(msgs, tokens, cp.through)
  {
    AfterIsRegion(msgs, cp.through);
    var out := Applied(msgs, cp);
    assert out[1..] == After(msgs, cp.through);
    var r := Region(msgs, cp.through);
    FrontRows(msgs, cp.through);
    assert FirstAfter(r, cp.through) == 0 by {
      if r != [] {
        assert r[0] == msgs[FirstAfter(msgs, cp.through)];
      }
    }
    assert FirstAfter(out, cp.through) == 1;
    assert Region(out, cp.through) == r;
  }
}
