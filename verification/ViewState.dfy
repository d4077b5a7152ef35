/** What the text view and the range indexes hold when they show a given list
    of rendered entries, and how each in-place edit carries that over. */
module ViewState {
  import opened Wrappers
  import opened StyledText
  import opened Markdown
  import opened Transcript

  // ---- The copy feedback slot ----

  function SlotOf(ms: seq<Mark>): (r: Option<int>)
    ensures r.Some? ==> exists k :: 0 <= k < |ms| && ms[k].Copy? && ms[k].feedbackStart == r.value
    ensures r.None? ==> forall k :: 0 <= k < |ms| ==> !ms[k].Copy?
  {
    if ms == [] then None
    else if ms[0].Copy? then Some(ms[0].feedbackStart)
    else SlotOf(ms[1..])
  }

  function Overwrite(cells: seq<ViewCell>, at: int, slot: seq<ViewCell>): seq<ViewCell> {
    if 0 <= at && at + |slot| <= |cells| then cells[..at] + slot + cells[at + |slot|..] else cells
  }

  /** A part with its feedback tick shown. */
  function Lit(p: Rendered): Rendered {
    match SlotOf(p.marks)
    case None => p
    case Some(f) => p.(cells := Overwrite(p.cells, f, CHECK_SLOT))
  }

  lemma {:induction false} LitKeeps(p: Rendered)
    ensures |Lit(p).cells| == |p.cells| && Lit(p).marks == p.marks
  {
  }

  /** The parts as displayed: entry `fb`, if any, shows its tick. */
  function Displayed(shown: seq<Rendered>, fb: int): (r: seq<Rendered>)
    ensures |r| == |shown|
  {
    if 0 <= fb < |shown| then shown[fb := Lit(shown[fb])] else shown
  }

  lemma {:induction false} DisplayedKeeps(shown: seq<Rendered>, fb: int)
    ensures Concat(Displayed(shown, fb)).marks == Concat(shown).marks
    ensures |Concat(Displayed(shown, fb)).cells| == |Concat(shown).cells|
    ensures forall j: nat :: j <= |shown| ==> StartOf(Displayed(shown, fb), j) == StartOf(shown, j)
  {
    hide Concat, Lit;
    if 0 <= fb < |shown| {
      var q := Lit(shown[fb]);
      LitKeeps(shown[fb]);
      StartReplace(shown, fb, q);
      MarksAround(shown, fb);
      MarksAround(shown[fb := q], fb);
      assert shown[fb := q][..fb] == shown[..fb] && shown[fb := q][fb + 1..] == shown[fb + 1..];
    }
  }

  // ---- Kinds of ranges ----

  predicate AllHeaders(ms: seq<Mark>) { forall k :: 0 <= k < |ms| ==> ms[k].Header? }
  predicate AllCopies(ms: seq<Mark>) { forall k :: 0 <= k < |ms| ==> ms[k].Copy? }
  predicate AllLinks(ms: seq<Mark>) { forall k :: 0 <= k < |ms| ==> ms[k].LinkTo? }

  function OnlyHeaders(): Mark -> Option<Mark> { (m: Mark) => if m.Header? then Some(m) else None }
  function OnlyCopies(): Mark -> Option<Mark> { (m: Mark) => if m.Copy? then Some(m) else None }
  function OnlyLinks(): Mark -> Option<Mark> { (m: Mark) => if m.LinkTo? then Some(m) else None }

  function Headers(ms: seq<Mark>): seq<Mark> { FilterMap(OnlyHeaders(), ms) }
  function Copies(ms: seq<Mark>): seq<Mark> { FilterMap(OnlyCopies(), ms) }
  function Links(ms: seq<Mark>): seq<Mark> { FilterMap(OnlyLinks(), ms) }

  function One(o: Option<Mark>): seq<Mark> {
    match o case None => [] case Some(m) => [m]
  }

  lemma {:induction false} OneKind(m: Mark)
    ensures One(OnlyHeaders()(m)) + One(OnlyCopies()(m)) + One(OnlyLinks()(m)) == [m]
  {
  }

  lemma {:induction false} KindsSelected(ms: seq<Mark>)
    ensures AllHeaders(Headers(ms)) && AllCopies(Copies(ms)) && AllLinks(Links(ms))
    decreases |ms|
  {
    if ms != [] {
      KindsSelected(ms[..|ms| - 1]);
    }
  }

  lemma {:induction false} KindsSum(ms: seq<Mark>)
    ensures multiset(Headers(ms) + Copies(ms) + Links(ms)) == multiset(ms)
    decreases |ms|
  {
    hide Headers, Copies, Links, OnlyHeaders, OnlyCopies, OnlyLinks, One;
    if ms == [] {
      KindsEmpty();
    } else {
      var x, n := ms[|ms| - 1], |ms| - 1;
      var h, c, l := Headers(ms[..n]), Copies(ms[..n]), Links(ms[..n]);
      KindsSum(ms[..n]);
      KindsStep(ms);
      MergeKinds(h, c, l, One(OnlyHeaders()(x)), One(OnlyCopies()(x)), One(OnlyLinks()(x)));
      OneKind(x);
      assert ms == ms[..n] + [x];
    }
  }

  lemma {:induction false} KindsEmpty()
    ensures Headers([]) == [] && Copies([]) == [] && Links([]) == []
  {
  }

  lemma {:induction false} KindsStep(ms: seq<Mark>)
    requires ms != []
    ensures var x, n := ms[|ms| - 1], |ms| - 1;
            && Headers(ms) == Headers(ms[..n]) + One(OnlyHeaders()(x))
            && Copies(ms) == Copies(ms[..n]) + One(OnlyCopies()(x))
            && Links(ms) == Links(ms[..n]) + One(OnlyLinks()(x))
  {
  }

  lemma {:induction false} KindsPartition(ms: seq<Mark>)
    ensures multiset(Headers(ms) + Copies(ms) + Links(ms)) == multiset(ms)
    ensures AllHeaders(Headers(ms)) && AllCopies(Copies(ms)) && AllLinks(Links(ms))
  {
    KindsSum(ms);
    KindsSelected(ms);
  }

  lemma {:induction false} KindsKept(f: Mark -> Option<Mark>, ms: seq<Mark>)
    requires forall m :: f(m).Some? ==> f(m).value.Header? == m.Header? && f(m).value.Copy? == m.Copy?
                                        && f(m).value.LinkTo? == m.LinkTo?
    ensures AllHeaders(ms) ==> AllHeaders(FilterMap(f, ms))
    ensures AllCopies(ms) ==> AllCopies(FilterMap(f, ms))
    ensures AllLinks(ms) ==> AllLinks(FilterMap(f, ms))
    decreases |ms|
  {
    if ms != [] {
      KindsKept(f, ms[..|ms| - 1]);
    }
  }

  // ---- The view ----

  /** The text view and its three range lists show exactly these parts, the
      tick of entry `fb` apart; the lists may be in any order. */
  ghost predicate Shows(text: seq<ViewCell>, hs: seq<Mark>, cs: seq<Mark>, ls: seq<Mark>,
                        shown: seq<Rendered>, fb: int) {
    && PartsOk(shown, 0)
    && text == Concat(Displayed(shown, fb)).cells
    && multiset(hs + cs + ls) == multiset(Concat(shown).marks)
    && AllHeaders(hs) && AllCopies(cs) && AllLinks(ls)
  }

  lemma {:induction false} ShowsNothing()
    ensures Shows([], [], [], [], [], -1)
  {
  }

  lemma {:induction false} ShowsRebuilt(shown: seq<Rendered>)
    requires PartsOk(shown, 0)
    ensures var r := Concat(shown);
            Shows(r.cells, Headers(r.marks), Copies(r.marks), Links(r.marks), shown, -1)
  {
    KindsPartition(Concat(shown).marks);
  }

  lemma {:induction false} AppendPiece(a: seq<Rendered>, p: Rendered, x: Rendered)
    ensures Concat(a + [Append(p, x)]) == Append(Concat(a + [p]), x)
  {
  }

  /** A new entry at the end: one insertion, its ranges registered. */
  lemma {:induction false} ShowsPush(text: seq<ViewCell>, hs: seq<Mark>, cs: seq<Mark>, ls: seq<Mark>,
                  shown: seq<Rendered>, fb: int, p: Rendered)
    requires Shows(text, hs, cs, ls, shown, fb) && fb < |shown| && PartOk(p, |shown|)
    ensures var add := ShiftAll(p.marks, |text|);
            Shows(text + p.cells, hs + Headers(add), cs + Copies(add), ls + Links(add), shown + [p], fb)
  {
    hide Concat, PartOk, Headers, Copies, Links, Lit;
    var add := ShiftAll(p.marks, |text|);
    KindsPartition(add);
    ConcatPush(shown, p);
    ConcatPush(Displayed(shown, fb), p);
    DisplayedKeeps(shown, fb);
    assert Displayed(shown + [p], fb) == Displayed(shown, fb) + [p];
    MergeKinds(hs, cs, ls, Headers(add), Copies(add), Links(add));
    assert PartsOk(shown + [p], 0) by {
      forall k | 0 <= k < |shown + [p]| ensures PartOk((shown + [p])[k], 0 + k) {
        if k < |shown| {
          assert PartOk(shown[k], 0 + k);
        }
      }
    }
  }

  lemma {:induction false} MergeKinds(h: seq<Mark>, c: seq<Mark>, l: seq<Mark>, h': seq<Mark>, c': seq<Mark>, l': seq<Mark>)
    ensures multiset((h + h') + (c + c') + (l + l')) == multiset(h + c + l) + multiset(h' + c' + l')
  {
  }

  /** One entry re-rendered in place: its new text inserted, its old text
      deleted, its ranges replaced and the ranges behind it moved. */
  lemma {:induction false} ShowsReplace(text: seq<ViewCell>, hs: seq<Mark>, cs: seq<Mark>, ls: seq<Mark>,
                     shown: seq<Rendered>, fb: int, i: nat, q: Rendered)
    requires Shows(text, hs, cs, ls, shown, fb) && i < |shown| && fb != i && PartOk(q, i)
    ensures var start := StartOf(shown, i);
            var end := start + |shown[i].cells|;
            var f := Relocate(i, end, |q.cells| - |shown[i].cells|);
            var add := ShiftAll(q.marks, start);
            && end <= |text|
            && Shows(text[..start] + q.cells + text[end..],
                     FilterMap(f, hs) + Headers(add), FilterMap(f, cs) + Copies(add),
                     FilterMap(f, ls) + Links(add), shown[i := q], fb)
  {
    hide Concat, FilterMap, PartOk, Headers, Copies, Links, Displayed;
    var start := StartOf(shown, i);
    var end := start + |shown[i].cells|;
    var f := Relocate(i, end, |q.cells| - |shown[i].cells|);
    ShowsReplaceText(text, hs, cs, ls, shown, fb, i, q);
    ShowsReplaceMarks(hs, cs, ls, shown, i, q);
    KindsKept(f, hs);
    KindsKept(f, cs);
    KindsKept(f, ls);
    KindsPartition(ShiftAll(q.marks, start));
    assert PartsOk(shown[i := q], 0) by {
      var r := shown[i := q];
      forall k | 0 <= k < |r| ensures PartOk(r[k], 0 + k) {
        if k != i {
          assert PartOk(shown[k], 0 + k);
        }
      }
    }
  }

  lemma {:induction false} ShowsReplaceText(text: seq<ViewCell>, hs: seq<Mark>, cs: seq<Mark>, ls: seq<Mark>,
                         shown: seq<Rendered>, fb: int, i: nat, q: Rendered)
    requires Shows(text, hs, cs, ls, shown, fb) && i < |shown| && fb != i
    ensures var start := StartOf(shown, i);
            var end := start + |shown[i].cells|;
            && end <= |text|
            && text[..start] + q.cells + text[end..] == Concat(Displayed(shown[i := q], fb)).cells
  {
    hide Concat, Lit, PartOk;
    var ds := Displayed(shown, fb);
    DisplayedKeeps(shown, fb);
    assert Displayed(shown[i := q], fb) == ds[i := q];
    MarksAround(ds, i);
    MarksAround(ds[i := q], i);
    assert ds[i := q][..i] == ds[..i] && ds[i := q][i + 1..] == ds[i + 1..];
    assert StartOf(ds, i) == StartOf(shown, i) && ds[i] == shown[i];
  }

  lemma {:induction false} ShowsReplaceMarks(hs: seq<Mark>, cs: seq<Mark>, ls: seq<Mark>, shown: seq<Rendered>, i: nat, q: Rendered)
    requires PartsOk(shown, 0) && i < |shown| && multiset(hs + cs + ls) == multiset(Concat(shown).marks)
    ensures var start := StartOf(shown, i);
            var end := start + |shown[i].cells|;
            var f := Relocate(i, end, |q.cells| - |shown[i].cells|);
            var add := ShiftAll(q.marks, start);
            multiset((FilterMap(f, hs) + Headers(add)) + (FilterMap(f, cs) + Copies(add)) + (FilterMap(f, ls) + Links(add)))
            == multiset(Concat(shown[i := q]).marks)
  {
    hide Concat, FilterMap, Relocate, PartOk, Headers, Copies, Links;
    var start := StartOf(shown, i);
    var end := start + |shown[i].cells|;
    var f := Relocate(i, end, |q.cells| - |shown[i].cells|);
    var add := ShiftAll(q.marks, start);
    FilterMapPerm(f, hs + cs + ls, Concat(shown).marks);
    FilterMapSplit(f, hs + cs, ls);
    FilterMapSplit(f, hs, cs);
    RelocateParts(shown, i, q);
    KindsPartition(add);
    MergeKinds(FilterMap(f, hs), FilterMap(f, cs), FilterMap(f, ls), Headers(add), Copies(add), Links(add));
  }

  // ---- Edits at the end of the view ----

  /** Text added to the last entry: one insertion at the very end. */
  lemma {:induction false} ShowsExtend(text: seq<ViewCell>, hs: seq<Mark>, cs: seq<Mark>, ls: seq<Mark>,
                    before: seq<Rendered>, p: Rendered, fb: int, x: Rendered)
    requires Shows(text, hs, cs, ls, before + [p], fb) && x.marks == []
    ensures Shows(text + x.cells, hs, cs, ls, before + [Append(p, x)], fb)
  {
    hide Concat, FilterMap, Ascending;
    var n := |before|;
    var old_, new_ := before + [p], before + [Append(p, x)];
    AppendPiece(before, p, x);
    assert PartOk(old_[n], 0 + n);
    ExtendOk(p, x, n);
    assert PartsOk(new_, 0) by {
      forall k | 0 <= k < |new_| ensures PartOk(new_[k], 0 + k) {
        assert PartOk(old_[k], 0 + k);
      }
    }
    if fb == n {
      LitAppend(p, x);
      assert Displayed(new_, fb) == before + [Append(Lit(p), x)];
      assert Displayed(old_, fb) == before + [Lit(p)];
      AppendPiece(before, Lit(p), x);
    } else {
      var b := Displayed(before, fb);
      assert Displayed(new_, fb) == b + [Append(p, x)];
      assert Displayed(old_, fb) == b + [p];
      AppendPiece(b, p, x);
    }
  }

  lemma {:induction false} ExtendOk(p: Rendered, x: Rendered, i: int)
    requires PartOk(p, i) && x.marks == []
    ensures PartOk(Append(p, x), i)
  {
  }

  lemma {:induction false} SlotOfPrefix(a: seq<Mark>, b: seq<Mark>)
    requires forall k :: 0 <= k < |b| ==> !b[k].Copy?
    ensures SlotOf(a + b) == SlotOf(a)
    decreases |a|
  {
    if a != [] {
      assert (a + b)[1..] == a[1..] + b;
      SlotOfPrefix(a[1..], b);
    } else {
      assert a + b == b;
    }
  }

  /** What follows the copy control does not disturb its feedback slot. */
  lemma {:induction false} LitAppend(p: Rendered, x: Rendered)
    requires forall k :: 0 <= k < |p.marks| ==> SlotOk(p.marks[k], p.cells)
    requires forall k :: 0 <= k < |x.marks| ==> !x.marks[k].Copy?
    ensures Lit(Append(p, x)) == Append(Lit(p), x)
  {
    SlotOfPrefix(p.marks, ShiftAll(x.marks, |p.cells|));
    var s := SlotOf(p.marks);
    if s.Some? {
      var f := s.value;
      assert Overwrite(p.cells + x.cells, f, CHECK_SLOT) == Overwrite(p.cells, f, CHECK_SLOT) + x.cells;
    }
  }

  /** The open tail `x` of the last entry gives way to `y`. */
  lemma {:induction false} ShowsTail(text: seq<ViewCell>, hs: seq<Mark>, cs: seq<Mark>, ls: seq<Mark>,
                  before: seq<Rendered>, p: Rendered, x: Rendered, y: Rendered, fb: int)
    requires Shows(text, hs, cs, ls, before + [Append(p, x)], fb)
    requires LeadOk2(p, |before|) && BodyOk(x, |before|) && BodyOk(y, |before|) && PartOk(Append(p, y), |before|)
    ensures |x.cells| <= |text| && text[|text| - |x.cells|..] == x.cells
    ensures var at := |text| - |x.cells|;
            Shows(text[..at] + y.cells, hs, cs,
                  FilterMap(DropTailLinks(|before|, at), ls) + ShiftAll(y.marks, at),
                  before + [Append(p, y)], fb)
  {
    hide Concat, FilterMap, Ascending, PartOk, BodyOk, LeadOk2;
    var n := |before|;
    var at := |text| - |x.cells|;
    TailText(before, p, x, y, fb);
    assert text == Concat(Displayed(before + [p], fb)).cells + x.cells;
    assert PartsOk(before + [Append(p, y)], 0) by {
      var old_, new_ := before + [Append(p, x)], before + [Append(p, y)];
      forall k | 0 <= k < |new_| ensures PartOk(new_[k], 0 + k) {
        if k < n {
          assert new_[k] == old_[k];
          assert PartOk(old_[k], 0 + k);
        }
      }
    }
    DisplayedKeeps(before + [p], fb);
    assert PartsOk(before, 0) by {
      assert before == (before + [Append(p, x)])[..n];
      PartsOkFrom(before + [Append(p, x)], 0, n);
    }
    TailMarks(hs, cs, ls, before, p, x, y, at);
    KindsKept(DropTailLinks(n, at), ls);
    BodyLinks(y, n, at);
  }

  lemma {:induction false} BodyLinks(y: Rendered, n: int, at: int)
    requires BodyOk(y, n)
    ensures AllLinks(ShiftAll(y.marks, at))
  {
  }

  /** What precedes an open tail: its ranges lie before the tail. */
  ghost predicate LeadOk2(p: Rendered, i: int) {
    Within(p.marks, i, |p.cells|) && forall k :: 0 <= k < |p.marks| ==> SlotOk(p.marks[k], p.cells)
  }

  lemma {:induction false} TailText(before: seq<Rendered>, p: Rendered, x: Rendered, y: Rendered, fb: int)
    requires LeadOk2(p, |before|) && BodyOk(x, |before|) && BodyOk(y, |before|)
    ensures Concat(Displayed(before + [Append(p, x)], fb)).cells
            == Concat(Displayed(before + [p], fb)).cells + x.cells
    ensures Concat(Displayed(before + [Append(p, y)], fb)).cells
            == Concat(Displayed(before + [p], fb)).cells + y.cells
  {
    hide Concat, Lit;
    var n := |before|;
    if fb == n {
      LitAppend(p, x);
      LitAppend(p, y);
      assert Displayed(before + [Append(p, x)], fb) == before + [Append(Lit(p), x)];
      assert Displayed(before + [Append(p, y)], fb) == before + [Append(Lit(p), y)];
      assert Displayed(before + [p], fb) == before + [Lit(p)];
      AppendPiece(before, Lit(p), x);
      AppendPiece(before, Lit(p), y);
    } else {
      var b := Displayed(before, fb);
      assert Displayed(before + [Append(p, x)], fb) == b + [Append(p, x)];
      assert Displayed(before + [Append(p, y)], fb) == b + [Append(p, y)];
      assert Displayed(before + [p], fb) == b + [p];
      AppendPiece(b, p, x);
      AppendPiece(b, p, y);
    }
  }

  /** The ranges left when the old tail's links are erased are those of the
      view without the tail. */
  lemma {:induction false} TailErased(before: seq<Rendered>, p: Rendered, x: Rendered, at: int)
    requires PartsOk(before, 0) && LeadOk2(p, |before|) && BodyOk(x, |before|)
    requires at == |Concat(before + [p]).cells|
    ensures FilterMap(DropTailLinks(|before|, at), Concat(before + [Append(p, x)]).marks)
            == Concat(before + [p]).marks
  {
    hide Concat, FilterMap, PartOk, Ascending;
    var n := |before|;
    var f := DropTailLinks(n, at);
    var lead, tail := Concat(before + [p]), ShiftAll(x.marks, at);
    AppendPiece(before, p, x);
    FilterMapSplit(f, lead.marks, tail);
    FilterMapNone(f, tail);
    ConcatPush(before, p);
    ConcatMarks(before, 0);
    KeepsAll(f, lead.marks);
  }

  lemma {:induction false} TailMarks(hs: seq<Mark>, cs: seq<Mark>, ls: seq<Mark>,
                  before: seq<Rendered>, p: Rendered, x: Rendered, y: Rendered, at: int)
    requires PartsOk(before, 0) && LeadOk2(p, |before|) && BodyOk(x, |before|)
    requires multiset(hs + cs + ls) == multiset(Concat(before + [Append(p, x)]).marks)
    requires AllHeaders(hs) && AllCopies(cs)
    requires at == |Concat(before + [p]).cells|
    ensures multiset(hs + cs + (FilterMap(DropTailLinks(|before|, at), ls) + ShiftAll(y.marks, at)))
            == multiset(Concat(before + [Append(p, y)]).marks)
  {
    hide Concat, FilterMap, PartOk, BodyOk, LeadOk2;
    var f := DropTailLinks(|before|, at);
    var kept, added := FilterMap(f, ls), ShiftAll(y.marks, at);
    AppendPiece(before, p, y);
    FilterMapPerm(f, hs + cs + ls, Concat(before + [Append(p, x)]).marks);
    FilterMapSplit(f, hs + cs, ls);
    FilterMapSplit(f, hs, cs);
    KeepsAll(f, hs);
    KeepsAll(f, cs);
    TailErased(before, p, x, at);
    assert hs + cs + (kept + added) == (hs + cs + kept) + added;
  }

  lemma {:induction false} KeepsAll(f: Mark -> Option<Mark>, ms: seq<Mark>)
    requires forall k :: 0 <= k < |ms| ==> f(ms[k]) == Some(ms[k])
    ensures FilterMap(f, ms) == ms
  {
    forall k | 0 <= k < |ms| ensures f(ms[k]) == Some(Shift(ms[k], 0)) {
      ShiftZero(ms[k]);
    }
    FilterMapAll(f, ms, 0);
    assert ShiftAll(ms, 0) == ms;
  }

  // ---- Copy feedback ----

  /** A range that names entry `i` is one of that entry's own. */
  lemma {:induction false} MarkOrigin(ps: seq<Rendered>, i: nat, m: Mark)
    requires PartsOk(ps, 0) && i < |ps| && m in Concat(ps).marks && m.modelIdx == i
    ensures m in ShiftAll(ps[i].marks, StartOf(ps, i))
  {
    hide Concat;
    MarksAround(ps, i);
    PartsOkFrom(ps, 0, i);
    PartsOkFrom(ps, 0, i + 1);
    ConcatMarks(ps[..i], 0);
    ConcatMarks(ps[i + 1..], 0 + (i + 1));
  }

  /** The slot of entry `i`'s copy control holds the tick or blanks; writing
      one over the other changes nothing else. */
  lemma {:induction false} ShowsToggle(text: seq<ViewCell>, hs: seq<Mark>, cs: seq<Mark>, ls: seq<Mark>,
                    shown: seq<Rendered>, fb: int, i: int, m: Mark)
    requires m in cs && m.modelIdx == i && 0 <= i < |shown| && (fb == i || fb == -1)
    requires Shows(text, hs, cs, ls, shown, fb)
    ensures 0 <= m.feedbackStart && m.feedbackStart + 3 <= |text|
    ensures fb == -1 ==> Shows(Overwrite(text, m.feedbackStart, CHECK_SLOT), hs, cs, ls, shown, i)
    ensures fb == i ==> Shows(Overwrite(text, m.feedbackStart, BLANK_SLOT), hs, cs, ls, shown, -1)
  {
    hide Concat, Lit, Overwrite, PartOk;
    assert m in hs + cs + ls;
    assert m in multiset(hs + cs + ls);
    assert m in Concat(shown).marks;
    ToggleText(shown, i, m);
  }

  /** The view without and with entry `i`'s tick differ in the three bytes at
      the range's feedback slot. */
  lemma {:induction false} ToggleText(shown: seq<Rendered>, i: nat, m: Mark)
    requires PartsOk(shown, 0) && i < |shown| && m in Concat(shown).marks && m.modelIdx == i && m.Copy?
    ensures var off, on := Concat(shown).cells, Concat(Displayed(shown, i)).cells;
            && 0 <= m.feedbackStart && m.feedbackStart + 3 <= |off| == |on|
            && on == Overwrite(off, m.feedbackStart, CHECK_SLOT)
            && off == Overwrite(on, m.feedbackStart, BLANK_SLOT)
  {
    hide Concat, Lit, Overwrite;
    MarkOrigin(shown, i, m);
    assert PartOk(shown[i], 0 + i);
    var p, start := shown[i], StartOf(shown, i);
    var f := m.feedbackStart - start;
    LitSlot(p, i, f, m, start);
    MarksAround(shown, i);
    var lit := shown[i := Lit(p)];
    MarksAround(lit, i);
    assert lit[..i] == shown[..i] && lit[i + 1..] == shown[i + 1..];
    var pre, post := Concat(shown[..i]).cells, Concat(shown[i + 1..]).cells;
    OverwriteMiddle(pre, p.cells, post, f, CHECK_SLOT);
    OverwriteMiddle(pre, Lit(p).cells, post, f, BLANK_SLOT);
  }

  lemma {:induction false} OverwriteMiddle(a: seq<ViewCell>, b: seq<ViewCell>, c: seq<ViewCell>, f: int, slot: seq<ViewCell>)
    requires 0 <= f && f + |slot| <= |b|
    ensures Overwrite(a + b + c, |a| + f, slot) == a + Overwrite(b, f, slot) + c
  {
  }

  lemma {:induction false} LitSlot(p: Rendered, i: int, f: int, m: Mark, start: int)
    requires PartOk(p, i) && m.Copy? && m in ShiftAll(p.marks, start) && f == m.feedbackStart - start
    ensures 0 <= f && f + 3 <= |p.cells| && |CHECK_SLOT| == |BLANK_SLOT| == 3
    ensures Lit(p).cells == Overwrite(p.cells, f, CHECK_SLOT)
    ensures Overwrite(Lit(p).cells, f, BLANK_SLOT) == p.cells
    ensures |Lit(p).cells| == |p.cells|
  {
  }

  /** An entry without a copy control shows the same with and without a tick. */
  lemma {:induction false} ShowsNoSlot(text: seq<ViewCell>, hs: seq<Mark>, cs: seq<Mark>, ls: seq<Mark>,
                    shown: seq<Rendered>, i: int)
    requires forall k :: 0 <= k < |cs| ==> cs[k].modelIdx != i
    ensures Shows(text, hs, cs, ls, shown, -1) <==> Shows(text, hs, cs, ls, shown, i)
  {
    hide Concat, PartOk;
    if 0 <= i < |shown| && PartsOk(shown, 0) && multiset(hs + cs + ls) == multiset(Concat(shown).marks)
       && AllHeaders(hs) && AllLinks(ls) {
      NoSlot(hs, cs, ls, shown, i);
      assert Displayed(shown, i) == shown;
    }
  }

  lemma {:induction false} NoSlot(hs: seq<Mark>, cs: seq<Mark>, ls: seq<Mark>, shown: seq<Rendered>, i: int)
    requires forall k :: 0 <= k < |cs| ==> cs[k].modelIdx != i
    requires 0 <= i < |shown| && PartsOk(shown, 0) && multiset(hs + cs + ls) == multiset(Concat(shown).marks)
    requires AllHeaders(hs) && AllLinks(ls)
    ensures Lit(shown[i]) == shown[i]
  {
    hide Concat;
    var p := shown[i];
    assert PartOk(p, 0 + i);
    MarksAround(shown, i);
    var own := ShiftAll(p.marks, StartOf(shown, i));
    forall k | 0 <= k < |p.marks| ensures !p.marks[k].Copy? {
      assert own[k] in multiset(Concat(shown).marks);
      assert own[k] in hs + cs + ls;
      assert own[k].modelIdx == i;
      assert own[k] !in cs;
    }
  }

  // ---- Lookups ----

  function FirstHit(hit: Mark -> bool, ms: seq<Mark>): (r: Option<Mark>)
    ensures r.Some? ==> hit(r.value) && r.value in ms
    ensures r.None? ==> forall k :: 0 <= k < |ms| ==> !hit(ms[k])
  {
    if ms == [] then None else if hit(ms[0]) then Some(ms[0]) else FirstHit(hit, ms[1..])
  }

  /** A click at `offset` lands on this copy control or link. */
  function CoversOffset(offset: int): Mark -> bool {
    (m: Mark) => m.start <= offset < m.end
  }

  /** A click lands on this header, or on the line break right behind it. */
  function CoversHeader(text: seq<ViewCell>, offset: int): Mark -> bool {
    (m: Mark) => offset >= m.start
                 && (offset < m.end || (offset == m.end && 0 <= offset < |text| && text[offset].ch == '\n'))
  }

  /** When at most one range is hit, the order of the list does not matter. */
  lemma {:induction false} HitOrderFree(hit: Mark -> bool, a: seq<Mark>, b: seq<Mark>)
    requires multiset(a) == multiset(b)
    requires forall x, y :: x in b && y in b && hit(x) && hit(y) ==> x == y
    ensures FirstHit(hit, a) == FirstHit(hit, b)
  {
    forall m ensures m in a <==> m in b {
      assert m in a <==> m in multiset(a);
      assert m in b <==> m in multiset(b);
    }
    var ra, rb := FirstHit(hit, a), FirstHit(hit, b);
    if ra.Some? {
      assert ra.value in b && hit(ra.value);
      assert rb.Some?;
    }
    if rb.Some? {
      assert rb.value in a && hit(rb.value);
      assert ra.Some?;
    }
  }

  /** No offset is inside two different ranges of a view. */
  lemma {:induction false} OneCovers(ps: seq<Rendered>, offset: int, x: Mark, y: Mark)
    requires PartsOk(ps, 0)
    requires x in Concat(ps).marks && y in Concat(ps).marks
    requires CoversOffset(offset)(x) && CoversOffset(offset)(y)
    ensures x == y
  {
    hide Concat;
    ConcatMarks(ps, 0);
    var ms := Concat(ps).marks;
    var j :| 0 <= j < |ms| && ms[j] == x;
    var k :| 0 <= k < |ms| && ms[k] == y;
  }

  ghost predicate Apart(ms: seq<Mark>) {
    forall j, k :: 0 <= j < k < |ms| && ms[j].Header? && ms[k].Header? ==> ms[j].end < ms[k].start
  }

  lemma {:induction false} ApartAppend(a: seq<Mark>, own: seq<Mark>, len: int)
    requires Apart(a) && (forall k :: 0 <= k < |a| ==> a[k].end <= len)
    requires forall k :: 0 <= k < |own| && own[k].Header? ==> k == 0 && (a != [] ==> own[k].start > len)
    ensures Apart(a + own)
  {
  }

  /** Headers of different entries are at least one byte apart, so the line
      break behind one never belongs to the next. */
  lemma {:induction false} HeadersApart(ps: seq<Rendered>, lo: nat)
    requires PartsOk(ps, lo)
    ensures Apart(Concat(ps).marks)
    decreases |ps|
  {
    if ps != [] {
      hide Ascending, Apart;
      var n := |ps| - 1;
      assert PartOk(ps[n], lo + n);
      PartsOkFrom(ps, lo, n);
      ConcatMarks(ps[..n], lo);
      HeadersApart(ps[..n], lo);
      var a, own := Concat(ps[..n]).marks, ShiftAll(ps[n].marks, |Concat(ps[..n]).cells|);
      assert a != [] ==> n > 0;
      forall k | 0 <= k < |own| && own[k].Header?
        ensures k == 0 && (a != [] ==> own[k].start > |Concat(ps[..n]).cells|)
      {
        assert ps[n].marks[k].Header?;
      }
      ApartAppend(a, own, |Concat(ps[..n]).cells|);
    } else {
      assert Concat(ps).marks == [];
    }
  }

  lemma {:induction false} OneHeader(ps: seq<Rendered>, text: seq<ViewCell>, offset: int, x: Mark, y: Mark)
    requires PartsOk(ps, 0) && x.Header? && y.Header?
    requires x in Concat(ps).marks && y in Concat(ps).marks
    requires CoversHeader(text, offset)(x) && CoversHeader(text, offset)(y)
    ensures x == y
  {
    hide Concat;
    HeadersApart(ps, 0);
    var ms := Concat(ps).marks;
    var j :| 0 <= j < |ms| && ms[j] == x;
    var k :| 0 <= k < |ms| && ms[k] == y;
  }

  lemma {:induction false} SelectKeeps(f: Mark -> Option<Mark>, ms: seq<Mark>, m: Mark)
    requires forall x: Mark :: f(x).Some? ==> f(x).value == x
    ensures m in FilterMap(f, ms) ==> m in ms && f(m).Some?
    decreases |ms|
  {
    if ms != [] {
      SelectKeeps(f, ms[..|ms| - 1], m);
    }
  }

  /** The three range lists are the rebuilt view's, as multisets. */
  lemma {:induction false} RangesMatch(text: seq<ViewCell>, hs: seq<Mark>, cs: seq<Mark>, ls: seq<Mark>,
                                       shown: seq<Rendered>, fb: int)
    requires Shows(text, hs, cs, ls, shown, fb)
    ensures var ms := Concat(shown).marks;
            multiset(hs) == multiset(Headers(ms)) && multiset(cs) == multiset(Copies(ms))
            && multiset(ls) == multiset(Links(ms))
  {
    hide Concat, FilterMap;
    var ms := Concat(shown).marks;
    SelectFrom(OnlyHeaders(), hs, cs, ls);
    SelectFrom(OnlyCopies(), hs, cs, ls);
    SelectFrom(OnlyLinks(), hs, cs, ls);
    KeepsAll(OnlyHeaders(), hs);
    FilterMapNone(OnlyHeaders(), cs);
    FilterMapNone(OnlyHeaders(), ls);
    FilterMapNone(OnlyCopies(), hs);
    KeepsAll(OnlyCopies(), cs);
    FilterMapNone(OnlyCopies(), ls);
    FilterMapNone(OnlyLinks(), hs);
    FilterMapNone(OnlyLinks(), cs);
    KeepsAll(OnlyLinks(), ls);
    FilterMapPerm(OnlyHeaders(), hs + cs + ls, ms);
    FilterMapPerm(OnlyCopies(), hs + cs + ls, ms);
    FilterMapPerm(OnlyLinks(), hs + cs + ls, ms);
  }

  lemma {:induction false} SelectFrom(f: Mark -> Option<Mark>, hs: seq<Mark>, cs: seq<Mark>, ls: seq<Mark>)
    ensures FilterMap(f, hs + cs + ls) == FilterMap(f, hs) + FilterMap(f, cs) + FilterMap(f, ls)
  {
    FilterMapSplit(f, hs + cs, ls);
    FilterMapSplit(f, hs, cs);
  }

  /** Clicks find the same thing in the live lists as in the rebuilt ones, at
      every offset. */
  lemma {:induction false} LookupsMatch(text: seq<ViewCell>, hs: seq<Mark>, cs: seq<Mark>, ls: seq<Mark>,
                                        shown: seq<Rendered>, fb: int, offset: int)
    requires Shows(text, hs, cs, ls, shown, fb)
    ensures var ms := Concat(shown).marks;
            && FirstHit(CoversHeader(text, offset), hs) == FirstHit(CoversHeader(text, offset), Headers(ms))
            && FirstHit(CoversOffset(offset), cs) == FirstHit(CoversOffset(offset), Copies(ms))
            && FirstHit(CoversOffset(offset), ls) == FirstHit(CoversOffset(offset), Links(ms))
  {
    hide Concat, FilterMap, FirstHit, CoversHeader, CoversOffset;
    var ms := Concat(shown).marks;
    RangesMatch(text, hs, cs, ls, shown, fb);
    forall x, y | x in Headers(ms) && y in Headers(ms) && CoversHeader(text, offset)(x) && CoversHeader(text, offset)(y)
      ensures x == y
    {
      SelectKeeps(OnlyHeaders(), ms, x);
      SelectKeeps(OnlyHeaders(), ms, y);
      OneHeader(shown, text, offset, x, y);
    }
    HitOrderFree(CoversHeader(text, offset), hs, Headers(ms));
    forall x, y | x in Copies(ms) && y in Copies(ms) && CoversOffset(offset)(x) && CoversOffset(offset)(y)
      ensures x == y
    {
      SelectKeeps(OnlyCopies(), ms, x);
      SelectKeeps(OnlyCopies(), ms, y);
      OneCovers(shown, offset, x, y);
    }
    HitOrderFree(CoversOffset(offset), cs, Copies(ms));
    forall x, y | x in Links(ms) && y in Links(ms) && CoversOffset(offset)(x) && CoversOffset(offset)(y)
      ensures x == y
    {
      SelectKeeps(OnlyLinks(), ms, x);
      SelectKeeps(OnlyLinks(), ms, y);
      OneCovers(shown, offset, x, y);
    }
    HitOrderFree(CoversOffset(offset), ls, Links(ms));
  }

  // ---- A tick hides no line break ----

  ghost predicate SameBreaks(a: seq<ViewCell>, b: seq<ViewCell>) {
    |a| == |b| && forall k :: 0 <= k < |a| ==> (a[k].ch == '\n' <==> b[k].ch == '\n')
  }

  lemma {:induction false} LitBreaks(p: Rendered, i: int)
    requires PartOk(p, i)
    ensures SameBreaks(Lit(p).cells, p.cells)
  {
    match SlotOf(p.marks)
    case None =>
    case Some(f) =>
      var k :| 0 <= k < |p.marks| && p.marks[k].Copy? && p.marks[k].feedbackStart == f;
      assert SlotOk(p.marks[k], p.cells);
      forall j | f <= j < f + 3 ensures p.cells[j].ch != '\n' && Lit(p).cells[j].ch != '\n' {
        assert p.cells[j] == p.cells[f..f + 3][j - f] && Lit(p).cells[j] == CHECK_SLOT[j - f];
      }
  }

  lemma {:induction false} TickBreaks(shown: seq<Rendered>, fb: int)
    requires PartsOk(shown, 0)
    ensures SameBreaks(Concat(Displayed(shown, fb)).cells, Concat(shown).cells)
  {
    hide Concat, Lit, PartOk;
    if 0 <= fb < |shown| {
      var q := Lit(shown[fb]);
      LitBreaks(shown[fb], fb);
      ConcatAround(shown, fb);
      ConcatAround(shown[fb := q], fb);
      assert shown[fb := q][..fb] == shown[..fb] && shown[fb := q][fb + 1..] == shown[fb + 1..];
    }
  }

  lemma {:induction false} SameHit(a: seq<ViewCell>, b: seq<ViewCell>, offset: int, ms: seq<Mark>)
    requires SameBreaks(a, b)
    ensures FirstHit(CoversHeader(a, offset), ms) == FirstHit(CoversHeader(b, offset), ms)
    decreases |ms|
  {
    if ms != [] {
      SameHit(a, b, offset, ms[1..]);
      assert CoversHeader(a, offset)(ms[0]) <==> CoversHeader(b, offset)(ms[0]);
    }
  }

  /** So a header is found over the live text where it is over the rebuilt. */
  lemma {:induction false} HeaderHitRebuilt(text: seq<ViewCell>, hs: seq<Mark>, cs: seq<Mark>, ls: seq<Mark>,
                                            shown: seq<Rendered>, fb: int, offset: int)
    requires Shows(text, hs, cs, ls, shown, fb)
    ensures FirstHit(CoversHeader(text, offset), hs)
            == FirstHit(CoversHeader(Concat(shown).cells, offset), Headers(Concat(shown).marks))
  {
    hide Concat, FirstHit, CoversHeader, CoversOffset, Headers, Copies, Links;
    LookupsMatch(text, hs, cs, ls, shown, fb, offset);
    TickBreaks(shown, fb);
    SameHit(text, Concat(shown).cells, offset, Headers(Concat(shown).marks));
  }
}
