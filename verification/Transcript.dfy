/** The canonical rendering of a chat transcript: what each entry looks like,
    and the algebra by which entries make up the whole view. */
module Transcript {
  import opened Wrappers
  import opened StyledText
  import opened Markdown

  type Color = nat  // 0xRRGGBB

  const COLOR_USER: Color := 0x1E64DC
  const COLOR_ASSISTANT: Color := 0x148C3C
  const COLOR_TOOL_HEADER: Color := 0xB48C00
  const COLOR_TOOL_BODY: Color := 0x787878
  const COLOR_TOOL_OK: Color := 0x1EA032
  const COLOR_TOOL_ERR: Color := 0xC81E1E
  const COLOR_SYSTEM: Color := 0xC87800
  const COLOR_THINKING_HEADER: Color := 0x6E5AB4
  const COLOR_THINKING_BODY: Color := 0x8C8C8C
  const COLOR_COPY_CONTROL: Color := 0x2D5AA0
  const COLOR_COPY_FEEDBACK: Color := 0x1EA032

  const BOLD: Style := Style(1, 0)

  const CLOSED := " \U{e2}\U{96}\U{b6}"
  const OPENED := " \U{e2}\U{96}\U{bc}"
  const ELLIPSIS := " \U{e2}\U{80}\U{a6}"

  datatype Kind = UserText | AssistantText | ToolCalled | ToolResult | System | Reasoning | CompactionSummary

  datatype Entry = Entry(kind: Kind, text: string, name: string, success: bool, collapsed: bool,
                         callId: string, toolIdx: int)

  datatype ViewCell = ViewCell(ch: char, style: Style, color: Color)

  /** A click range of the view: a block header, a copy control with its
      three-byte feedback slot, or a link. */
  datatype Mark =
    | Header(start: int, end: int, modelIdx: int)
    | Copy(start: int, end: int, feedbackStart: int, modelIdx: int)
    | LinkTo(start: int, end: int, modelIdx: int, target: string, tentative: bool)

  function Shift(m: Mark, d: int): (r: Mark)
    ensures r.start == m.start + d && r.end == m.end + d && r.modelIdx == m.modelIdx
    ensures r.Header? == m.Header? && r.Copy? == m.Copy? && r.LinkTo? == m.LinkTo?
  {
    match m
    case Header(s, e, i) => Header(s + d, e + d, i)
    case Copy(s, e, f, i) => Copy(s + d, e + d, f + d, i)
    case LinkTo(s, e, i, t, x) => LinkTo(s + d, e + d, i, t, x)
  }

  function ShiftAll(ms: seq<Mark>, d: int): (r: seq<Mark>)
    ensures |r| == |ms|
    ensures forall k :: 0 <= k < |ms| ==> r[k] == Shift(ms[k], d)
  {
    seq(|ms|, k requires 0 <= k < |ms| => Shift(ms[k], d))
  }

  /** Text with its click ranges, offsets relative to the text. */
  datatype Rendered = Rendered(cells: seq<ViewCell>, marks: seq<Mark>)

  const EMPTY := Rendered([], [])

  function Append(a: Rendered, b: Rendered): Rendered {
    Rendered(a.cells + b.cells, a.marks + ShiftAll(b.marks, |a.cells|))
  }

  lemma {:induction false} AppendAssoc(a: Rendered, b: Rendered, c: Rendered)
    ensures Append(Append(a, b), c) == Append(a, Append(b, c))
  {
  }

  lemma {:induction false} AppendEmpty(a: Rendered)
    ensures Append(a, EMPTY) == a && Append(EMPTY, a) == a
  {
  }

  // ---- Entries ----

  /** What the view's look depends on besides the entries: the markdown
      syntax, the palette, and the formatter of the date_time tool's result. */
  datatype Look = Look(syn: Syntax, markdownColor: (nat, Color) -> Color,
                       dateTime: (string, bool) -> Option<string>)

  function Str(s: string, color: Color, style: Style := PLAIN): (r: Rendered)
    ensures |r.cells| == |s| && r.marks == []
  {
    Rendered(seq(|s|, k requires 0 <= k < |s| => ViewCell(s[k], style, color)), [])
  }

  function HeaderPart(s: string, color: Color, i: int): Rendered {
    Rendered(Str(s, color, BOLD).cells, [Header(0, |s|, i)])
  }

  const BLANK_SLOT := Str("   ", COLOR_COPY_FEEDBACK).cells
  const CHECK_SLOT := Str("\U{e2}\U{9c}\U{93}", COLOR_COPY_FEEDBACK, BOLD).cells

  function CopyPart(i: int): Rendered {
    Rendered(Str("  ", COLOR_COPY_CONTROL).cells + Str("[Copy]", COLOR_COPY_CONTROL, BOLD).cells
             + Str(" ", COLOR_COPY_CONTROL).cells + BLANK_SLOT,
             [Copy(2, 8, 9, i)])
  }

  function PaintCells(look: Look, cells: seq<Cell>, base: Color): (r: seq<ViewCell>)
    ensures |r| == |cells|
  {
    seq(|cells|, k requires 0 <= k < |cells| =>
      ViewCell(cells[k].ch, cells[k].style, look.markdownColor(cells[k].style.flags, base)))
  }

  function LinkMarks(links: seq<Link>, i: int): (r: seq<Mark>)
    ensures |r| == |links|
  {
    seq(|links|, k requires 0 <= k < |links| =>
      LinkTo(links[k].start, links[k].end, i, links[k].target, links[k].tentative))
  }

  function MarkdownPart(look: Look, md: Styled, base: Color, i: int): Rendered {
    Rendered(PaintCells(look, md.cells, base), LinkMarks(md.links, i))
  }

  lemma {:induction false} MarkdownPartJoin(look: Look, a: Styled, b: Styled, base: Color, i: int)
    ensures MarkdownPart(look, Join(a, b), base, i)
            == Append(MarkdownPart(look, a, base, i), MarkdownPart(look, b, base, i))
  {
  }

  function EntryColor(e: Entry): Color {
    match e.kind
    case UserText => COLOR_USER
    case AssistantText => COLOR_ASSISTANT
    case ToolCalled => COLOR_TOOL_HEADER
    case ToolResult => if e.success then COLOR_TOOL_OK else COLOR_TOOL_ERR
    case System => COLOR_SYSTEM
    case Reasoning => COLOR_THINKING_HEADER
    case CompactionSummary => COLOR_THINKING_HEADER
  }

  function EntryLabel(e: Entry, i: int): Rendered {
    var arrow := if e.collapsed then CLOSED else OPENED;
    match e.kind
    case UserText => Str("\nYou:", COLOR_USER, BOLD)
    case AssistantText => Str("\nAssistant:", COLOR_ASSISTANT, BOLD)
    case ToolCalled => HeaderPart("\n[Tool: " + e.name + "]" + arrow, COLOR_TOOL_HEADER, i)
    case ToolResult => EMPTY
    case System => EMPTY
    case Reasoning => HeaderPart("\n[Thinking]" + arrow, COLOR_THINKING_HEADER, i)
    case CompactionSummary => HeaderPart("\n" + e.name + arrow, COLOR_THINKING_HEADER, i)
  }

  /** Line breaks lead: every entry after the first opens with the break that
      ends the one before it. */
  function EntryHead(e: Entry, i: int): Rendered {
    Append(Str(if i > 0 then "\n" else "", EntryColor(e)), EntryLabel(e, i))
  }

  function EntryControl(e: Entry, i: int): Rendered {
    if e.kind.UserText? || e.kind.AssistantText? || e.kind.Reasoning? then CopyPart(i) else EMPTY
  }

  function BackOff(s: string, end: nat): (r: nat)
    requires end < |s|
    ensures r <= end
  {
    if end > 0 && Continuation(s[end]) then BackOff(s, end - 1) else end
  }

  /** One line, at most 100 bytes, cut at a character boundary. */
  function Shorten(s: string): string {
    var nl := FindNewline(s, 0);
    var end := if nl < 100 then nl else 100;
    if end < |s| then s[..BackOff(s, end)] + ELLIPSIS else s
  }

  function ResultText(look: Look, m: seq<Entry>, e: Entry): string {
    var known := 0 <= e.toolIdx < |m|;
    var collapsed := !known || m[e.toolIdx].collapsed;
    var formatted := if known && m[e.toolIdx].name == "date_time" && e.success
                     then look.dateTime(e.text, collapsed) else None;
    match formatted
    case Some(t) => t
    case None => if collapsed then Shorten(e.text) else e.text
  }

  function AssistantBody(look: Look, md: Styled, i: int): Rendered {
    Append(Str("\n", COLOR_ASSISTANT), MarkdownPart(look, md, COLOR_ASSISTANT, i))
  }

  function ReasoningBody(text: string): Rendered {
    if text == "" then EMPTY
    else Append(Str("\n", COLOR_THINKING_HEADER), Str(text, COLOR_THINKING_BODY))
  }

  function EntryBody(look: Look, m: seq<Entry>, i: int, o: Options): Rendered
    requires 0 <= i < |m|
  {
    var e := m[i];
    match e.kind
    case UserText =>
      Append(Str("\n" + e.text, COLOR_USER),
             Str(if e.name == "" then "" else "\n[image: " + e.name + "]", COLOR_USER))
    case AssistantText => AssistantBody(look, Render(look.syn, e.text, o), i)
    case ToolCalled =>
      Str(if !e.collapsed && e.text != "" && e.text != "{}" then "\n" + e.text else "", COLOR_TOOL_BODY)
    case ToolResult =>
      Str((if e.success then "[OK] " else "[ERR] ") + ResultText(look, m, e), EntryColor(e))
    case System => Str("\n[System] " + e.text, COLOR_SYSTEM)
    case Reasoning => if e.collapsed then EMPTY else ReasoningBody(e.text)
    case CompactionSummary =>
      if e.collapsed || e.text == "" then EMPTY
      else Append(Str("\n", COLOR_THINKING_BODY),
                  MarkdownPart(look, Render(look.syn, e.text, o), COLOR_THINKING_BODY, i))
  }

  /** _RenderEntry: the canonical rendering of entry `i`. */
  function RenderEntry(look: Look, m: seq<Entry>, i: int, o: Options): Rendered
    requires 0 <= i < |m|
  {
    Append(Append(EntryHead(m[i], i), EntryControl(m[i], i)), EntryBody(look, m, i, o))
  }

  function Parts(look: Look, m: seq<Entry>, o: Options): (ps: seq<Rendered>)
    ensures |ps| == |m|
    ensures forall i :: 0 <= i < |m| ==> ps[i] == RenderEntry(look, m, i, o)
  {
    seq(|m|, i requires 0 <= i < |m| => RenderEntry(look, m, i, o))
  }

  function Concat(ps: seq<Rendered>): Rendered {
    if ps == [] then EMPTY else Append(Concat(ps[..|ps| - 1]), ps[|ps| - 1])
  }

  /** _Rebuild: the whole transcript, rendered in one go. */
  function RenderAll(look: Look, m: seq<Entry>, o: Options): Rendered {
    Concat(Parts(look, m, o))
  }

  // ---- Well-formed parts ----

  ghost predicate Ascending(ms: seq<Mark>) {
    forall j, k :: 0 <= j < k < |ms| ==> ms[j].end <= ms[k].start
  }

  ghost predicate Within(ms: seq<Mark>, i: int, len: int) {
    forall k :: 0 <= k < |ms| ==> ms[k].modelIdx == i && 0 <= ms[k].start < ms[k].end <= len
  }

  /** A copy control sits in `p` with an empty feedback slot behind it. */
  ghost predicate SlotOk(m: Mark, cells: seq<ViewCell>) {
    m.Copy? ==> 0 <= m.feedbackStart && m.feedbackStart + 3 <= |cells|
                && cells[m.feedbackStart..m.feedbackStart + 3] == BLANK_SLOT
  }

  ghost predicate PartOk(p: Rendered, i: int) {
    && |p.cells| > 0
    && Within(p.marks, i, |p.cells|)
    && Ascending(p.marks)
    && (forall k :: 0 <= k < |p.marks| ==>
          && SlotOk(p.marks[k], p.cells)
          && (p.marks[k].Header? ==> k == 0 && (i > 0 ==> p.marks[k].start >= 1)))
    && (forall j, k :: 0 <= j < |p.marks| && 0 <= k < |p.marks| && p.marks[j].Copy? && p.marks[k].Copy?
          ==> j == k)
  }

  /** Only links, inside the text, in order. */
  ghost predicate BodyOk(p: Rendered, i: int) {
    Within(p.marks, i, |p.cells|) && Ascending(p.marks) && (forall k :: 0 <= k < |p.marks| ==> p.marks[k].LinkTo?)
  }

  lemma {:induction false} BodyAppend(a: Rendered, b: Rendered, i: int)
    requires BodyOk(a, i) && BodyOk(b, i)
    ensures BodyOk(Append(a, b), i)
  {
  }

  lemma {:induction false} MarkdownPartOk(look: Look, md: Styled, base: Color, i: int)
    ensures BodyOk(MarkdownPart(look, md, base, i), i)
  {
  }

  lemma {:induction false} EntryBodyOk(look: Look, m: seq<Entry>, i: int, o: Options)
    requires 0 <= i < |m|
    ensures BodyOk(EntryBody(look, m, i, o), i)
    ensures m[i].kind != Reasoning && m[i].kind != CompactionSummary && m[i].kind != ToolCalled ==>
              |EntryBody(look, m, i, o).cells| > 0
  {
    hide MarkdownPart, Render, Str;
    var e := m[i];
    var md := Render(look.syn, e.text, o);
    if e.kind == AssistantText {
      MarkdownPartOk(look, md, COLOR_ASSISTANT, i);
      BodyAppend(Str("\n", COLOR_ASSISTANT), MarkdownPart(look, md, COLOR_ASSISTANT, i), i);
    } else if e.kind == CompactionSummary {
      MarkdownPartOk(look, md, COLOR_THINKING_BODY, i);
      BodyAppend(Str("\n", COLOR_THINKING_BODY), MarkdownPart(look, md, COLOR_THINKING_BODY, i), i);
    }
  }

  ghost predicate LeadOk(h: Rendered, i: int) {
    && Within(h.marks, i, |h.cells|) && Ascending(h.marks)
    && (forall k :: 0 <= k < |h.marks| ==>
          && SlotOk(h.marks[k], h.cells)
          && (h.marks[k].Header? ==> k == 0 && (i > 0 ==> h.marks[k].start >= 1)))
    && (forall j, k :: 0 <= j < |h.marks| && 0 <= k < |h.marks| && h.marks[j].Copy? && h.marks[k].Copy? ==> j == k)
  }

  lemma {:induction false} HeadOk(e: Entry, i: int)
    requires i >= 0
    ensures var h := EntryHead(e, i);
            && (h.marks == [] || (h.marks == [Header(if i > 0 then 1 else 0, |h.cells|, i)]
                                  && (if i > 0 then 1 else 0) < |h.cells|))
            && (e.kind == Reasoning || e.kind == CompactionSummary || e.kind == ToolCalled ==> |h.cells| > 0)
  {
  }

  lemma {:induction false} ControlOk(a: Rendered, i: int)
    requires LeadOk(a, i) && forall k :: 0 <= k < |a.marks| ==> a.marks[k].Header?
    ensures LeadOk(Append(a, CopyPart(i)), i)
  {
    var h := Append(a, CopyPart(i));
    var m := h.marks[|a.marks|];
    var n := |a.cells|;
    assert m == Copy(n + 2, n + 8, n + 9, i);
    assert h.cells[n + 9..n + 12] == CopyPart(i).cells[9..12] == BLANK_SLOT;
  }

  lemma {:induction false} HeadControlOk(e: Entry, i: int)
    requires i >= 0
    ensures LeadOk(Append(EntryHead(e, i), EntryControl(e, i)), i)
    ensures e.kind == Reasoning || e.kind == CompactionSummary || e.kind == ToolCalled ==> |EntryHead(e, i).cells| > 0
  {
    hide EntryHead;
    HeadOk(e, i);
    if EntryControl(e, i) == EMPTY {
      AppendEmpty(EntryHead(e, i));
    } else {
      ControlOk(EntryHead(e, i), i);
    }
  }

  lemma {:induction false} EntryOk(look: Look, m: seq<Entry>, i: int, o: Options)
    requires 0 <= i < |m|
    ensures PartOk(RenderEntry(look, m, i, o), i)
  {
    hide EntryHead, EntryControl, EntryBody;
    HeadControlOk(m[i], i);
    EntryBodyOk(look, m, i, o);
    var a, b := Append(EntryHead(m[i], i), EntryControl(m[i], i)), EntryBody(look, m, i, o);
    AppendBodyOk(a, b, i);
  }

  lemma {:induction false} AppendBodyOk(a: Rendered, b: Rendered, i: int)
    requires LeadOk(a, i) && BodyOk(b, i) && |a.cells| + |b.cells| > 0
    ensures PartOk(Append(a, b), i)
  {
    var p := Append(a, b);
    forall k | 0 <= k < |p.marks| ensures SlotOk(p.marks[k], p.cells) {
      if k < |a.marks| && p.marks[k].Copy? {
        var f := p.marks[k].feedbackStart;
        assert SlotOk(a.marks[k], a.cells);
        assert p.cells[f..f + 3] == a.cells[f..f + 3];
      }
    }
  }

  // ---- The whole view from its parts ----

  lemma {:induction false} ConcatSplit(a: seq<Rendered>, b: seq<Rendered>)
    ensures Concat(a + b) == Append(Concat(a), Concat(b))
    decreases |b|
  {
    if b == [] {
      assert a + b == a;
      AppendEmpty(Concat(a));
    } else {
      var n := |b| - 1;
      assert (a + b)[..|a| + n] == a + b[..n];
      ConcatSplit(a, b[..n]);
      AppendAssoc(Concat(a), Concat(b[..n]), b[n]);
    }
  }

  lemma {:induction false} ConcatPush(ps: seq<Rendered>, p: Rendered)
    ensures Concat(ps + [p]) == Append(Concat(ps), p)
  {
  }

  /** The view around part `i`. */
  lemma {:induction false} ConcatAround(ps: seq<Rendered>, i: nat)
    requires i < |ps|
    ensures Concat(ps) == Append(Append(Concat(ps[..i]), ps[i]), Concat(ps[i + 1..]))
  {
    hide Concat, Append;
    assert ps == (ps[..i] + [ps[i]]) + ps[i + 1..];
    ConcatSplit(ps[..i] + [ps[i]], ps[i + 1..]);
    ConcatPush(ps[..i], ps[i]);
  }

  /** Where part `i` starts: the length of the parts before it. */
  function StartOf(ps: seq<Rendered>, i: nat): nat
    requires i <= |ps|
  {
    |Concat(ps[..i]).cells|
  }

  lemma {:induction false} StartPush(ps: seq<Rendered>, p: Rendered)
    ensures forall j: nat :: j <= |ps| ==> StartOf(ps + [p], j) == StartOf(ps, j)
    ensures StartOf(ps, |ps|) == |Concat(ps).cells|
  {
    forall j: nat | j <= |ps| ensures StartOf(ps + [p], j) == StartOf(ps, j) {
      assert (ps + [p])[..j] == ps[..j];
    }
    assert ps[..|ps|] == ps;
  }

  /** Replacing part `i` moves the starts after it, and only those, by the
      difference in length. */
  lemma {:induction false} StartReplace(ps: seq<Rendered>, i: nat, q: Rendered)
    requires i < |ps|
    ensures forall j: nat :: j <= |ps| ==>
              StartOf(ps[i := q], j) == StartOf(ps, j) + (if j <= i then 0 else |q.cells| - |ps[i].cells|)
  {
    forall j: nat | j <= |ps|
      ensures StartOf(ps[i := q], j) == StartOf(ps, j) + (if j <= i then 0 else |q.cells| - |ps[i].cells|)
    {
      if j <= i {
        assert ps[i := q][..j] == ps[..j];
      } else {
        ConcatAround(ps[..j], i);
        ConcatAround(ps[i := q][..j], i);
        assert ps[i := q][..j][..i] == ps[..j][..i];
        assert ps[i := q][..j][i + 1..] == ps[..j][i + 1..];
      }
    }
  }

  lemma {:induction false} StartStep(ps: seq<Rendered>, i: nat)
    requires i < |ps|
    ensures StartOf(ps, i + 1) == StartOf(ps, i) + |ps[i].cells|
  {
    assert ps[..i + 1] == ps[..i] + [ps[i]];
    ConcatPush(ps[..i], ps[i]);
  }

  ghost predicate PartsOk(ps: seq<Rendered>, lo: nat) {
    forall k :: 0 <= k < |ps| ==> PartOk(ps[k], lo + k)
  }

  /** Marks of consecutive parts name those parts' entries, lie inside the
      text, and are disjoint and ascending over all entries and kinds. */
  ghost predicate MarksOk(ms: seq<Mark>, lo: nat, hi: nat, len: int) {
    && (forall k :: 0 <= k < |ms| ==> lo <= ms[k].modelIdx < hi && 0 <= ms[k].start < ms[k].end <= len)
    && Ascending(ms)
  }

  lemma {:induction false} ConcatMarks(ps: seq<Rendered>, lo: nat)
    requires PartsOk(ps, lo)
    ensures MarksOk(Concat(ps).marks, lo, lo + |ps|, |Concat(ps).cells|)
    decreases |ps|
  {
    if ps != [] {
      var n := |ps| - 1;
      assert PartOk(ps[n], lo + n);
      assert PartsOk(ps[..n], lo);
      ConcatMarks(ps[..n], lo);
    }
  }

  // ---- Relocating click ranges ----

  function FilterMap(f: Mark -> Option<Mark>, ms: seq<Mark>): seq<Mark> {
    if ms == [] then []
    else FilterMap(f, ms[..|ms| - 1])
         + (match f(ms[|ms| - 1]) case None => [] case Some(m) => [m])
  }

  lemma {:induction false} FilterMapSplit(f: Mark -> Option<Mark>, a: seq<Mark>, b: seq<Mark>)
    ensures FilterMap(f, a + b) == FilterMap(f, a) + FilterMap(f, b)
    decreases |b|
  {
    if b == [] {
      assert a + b == a;
    } else {
      assert (a + b)[..|a| + |b| - 1] == a + b[..|b| - 1];
      FilterMapSplit(f, a, b[..|b| - 1]);
    }
  }

  /** The order in which ranges are registered does not matter. */
  lemma {:induction false} FilterMapPerm(f: Mark -> Option<Mark>, a: seq<Mark>, b: seq<Mark>)
    requires multiset(a) == multiset(b)
    ensures multiset(FilterMap(f, a)) == multiset(FilterMap(f, b))
    decreases |a|
  {
    if a == [] {
      assert |multiset(b)| == 0;
    } else {
      var n := |a| - 1;
      var x := a[n];
      assert a == a[..n] + [x];
      assert x in multiset(b);
      var j :| 0 <= j < |b| && b[j] == x;
      var b' := b[..j] + b[j + 1..];
      assert b == b[..j] + [x] + b[j + 1..];
      calc {
        multiset(a[..n]) + multiset{x};
        multiset(a);
        multiset(b);
        multiset(b[..j]) + multiset{x} + multiset(b[j + 1..]);
        multiset(b') + multiset{x};
      }
      assert multiset(a[..n]) == multiset(b') by {
        assert multiset(a[..n]) == multiset(a[..n]) + multiset{x} - multiset{x};
        assert multiset(b') == multiset(b') + multiset{x} - multiset{x};
      }
      FilterMapPerm(f, a[..n], b');
      FilterMapSplit(f, b[..j], b[j + 1..]);
      FilterMapSplit(f, b[..j] + [x], b[j + 1..]);
      FilterMapSplit(f, b[..j], [x]);
      FilterMapSplit(f, a[..n], [x]);
    }
  }

  lemma {:induction false} FilterMapAll(f: Mark -> Option<Mark>, ms: seq<Mark>, d: int)
    requires forall k :: 0 <= k < |ms| ==> f(ms[k]) == Some(Shift(ms[k], d))
    ensures FilterMap(f, ms) == ShiftAll(ms, d)
    decreases |ms|
  {
    if ms != [] {
      FilterMapAll(f, ms[..|ms| - 1], d);
    }
  }

  lemma {:induction false} FilterMapNone(f: Mark -> Option<Mark>, ms: seq<Mark>)
    requires forall k :: 0 <= k < |ms| ==> f(ms[k]) == None
    ensures FilterMap(f, ms) == []
    decreases |ms|
  {
    if ms != [] {
      FilterMapNone(f, ms[..|ms| - 1]);
    }
  }

  lemma {:induction false} ShiftZero(m: Mark)
    ensures Shift(m, 0) == m
  {
  }

  /** The loops of _ReplaceEntry: entry `i`'s ranges go, ranges from `end` on
      move by `d`. */
  function Relocate(i: int, end: int, d: int): Mark -> Option<Mark> {
    (m: Mark) => if m.modelIdx == i then None
                 else if m.start >= end then Some(Shift(m, d)) else Some(m)
  }

  /** The erase of _StreamMarkdown: the links of the old open tail go. */
  function DropTailLinks(last: int, tailStart: int): Mark -> Option<Mark> {
    (m: Mark) => if m.LinkTo? && m.modelIdx == last && m.start >= tailStart then None else Some(m)
  }

  lemma {:induction false} PartsOkFrom(ps: seq<Rendered>, lo: nat, i: nat)
    requires PartsOk(ps, lo) && i <= |ps|
    ensures PartsOk(ps[i..], lo + i) && PartsOk(ps[..i], lo)
  {
  }

  lemma {:induction false} RelocateBefore(ms: seq<Mark>, i: nat, end: int, d: int)
    requires MarksOk(ms, 0, i, end - 1)
    ensures FilterMap(Relocate(i, end, d), ms) == ms
  {
    var f := Relocate(i, end, d);
    forall k | 0 <= k < |ms| ensures f(ms[k]) == Some(Shift(ms[k], 0)) {
      ShiftZero(ms[k]);
    }
    FilterMapAll(f, ms, 0);
    assert ShiftAll(ms, 0) == ms;
  }

  lemma {:induction false} RelocateAfter(ms: seq<Mark>, i: nat, hi: nat, end: int, d: int, len: int)
    requires MarksOk(ms, i + 1, hi, len)
    ensures FilterMap(Relocate(i, end, d), ShiftAll(ms, end)) == ShiftAll(ms, end + d)
  {
    var f := Relocate(i, end, d);
    var after := ShiftAll(ms, end);
    forall k | 0 <= k < |ms| ensures f(after[k]) == Some(Shift(after[k], d)) {
      assert after[k] == Shift(ms[k], end);
    }
    FilterMapAll(f, after, d);
    assert ShiftAll(after, d) == ShiftAll(ms, end + d);
  }

  /** What the loops leave: the ranges before `i` where they were, none of
      `i`'s, and the ranges after it moved. */
  lemma {:induction false} RelocateRest(ps: seq<Rendered>, i: nat, d: int)
    requires PartsOk(ps, 0) && i < |ps|
    ensures var end := StartOf(ps, i) + |ps[i].cells|;
            FilterMap(Relocate(i, end, d), Concat(ps).marks)
            == Concat(ps[..i]).marks + ShiftAll(Concat(ps[i + 1..]).marks, end + d)
  {
    hide Concat, FilterMap, Relocate;
    var a, p, b := Concat(ps[..i]), ps[i], Concat(ps[i + 1..]);
    var end := |a.cells| + |p.cells|;
    var f := Relocate(i, end, d);
    ConcatAround(ps, i);
    assert PartOk(ps[i], 0 + i);
    PartsOkFrom(ps, 0, i);
    PartsOkFrom(ps, 0, i + 1);
    ConcatMarks(ps[..i], 0);
    ConcatMarks(ps[i + 1..], 0 + (i + 1));
    var mid, after := ShiftAll(p.marks, |a.cells|), ShiftAll(b.marks, end);
    FilterMapSplit(f, a.marks + mid, after);
    FilterMapSplit(f, a.marks, mid);
    RelocateBefore(a.marks, i, end, d);
    RelocateAfter(b.marks, i, |ps|, end, d, |b.cells|);
    RelocateMid(mid, i, end, d);
  }

  lemma {:induction false} MarksAround(ps: seq<Rendered>, i: nat)
    requires i < |ps|
    ensures Concat(ps).marks == Concat(ps[..i]).marks + ShiftAll(ps[i].marks, StartOf(ps, i))
                                + ShiftAll(Concat(ps[i + 1..]).marks, StartOf(ps, i) + |ps[i].cells|)
    ensures Concat(ps).cells == Concat(ps[..i]).cells + ps[i].cells + Concat(ps[i + 1..]).cells
  {
    hide Concat;
    ConcatAround(ps, i);
  }

  /** Relocating all ranges of a view and adding those of the new part `q`
      gives the ranges of the view with part `i` replaced. */
  lemma {:induction false} RelocateParts(ps: seq<Rendered>, i: nat, q: Rendered)
    requires PartsOk(ps, 0) && i < |ps|
    ensures var start := StartOf(ps, i);
            var end := start + |ps[i].cells|;
            multiset(FilterMap(Relocate(i, end, |q.cells| - |ps[i].cells|), Concat(ps).marks))
              + multiset(ShiftAll(q.marks, start))
            == multiset(Concat(ps[i := q]).marks)
  {
    hide Concat, FilterMap, Relocate;
    RelocateRest(ps, i, |q.cells| - |ps[i].cells|);
    MarksAround(ps[i := q], i);
    assert ps[i := q][..i] == ps[..i] && ps[i := q][i + 1..] == ps[i + 1..];
  }

  lemma {:induction false} RelocateMid(ms: seq<Mark>, i: nat, end: int, d: int)
    requires forall k :: 0 <= k < |ms| ==> ms[k].modelIdx == i
    ensures FilterMap(Relocate(i, end, d), ms) == []
  {
    FilterMapNone(Relocate(i, end, d), ms);
  }
}
