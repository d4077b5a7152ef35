/** The markdown renderer as a left fold over units (one line, or one whole
    table), and the two laws the transcript view depends on: a streamed reply
    may freeze finished units and re-render only the open tail, and a text
    that is not width dependent renders the same at every width.

    What a single line or table looks like is a parameter (`Syntax`): the laws
    hold for every inline renderer and every table layout. What decides the
    fold, that is blank lines, code fences, rules, table detection and the
    state carried from unit to unit, is written out. */
module Markdown {
  import opened Wrappers
  import opened StyledText

  datatype Options = Options(maxCols: int, asciiBorders: bool)

  /** One output line of a table: preceded by a pending blank, or not. */
  datatype TableLine = TableLine(blankBefore: bool, body: Styled)

  datatype Syntax = Syntax(
    heading: string -> Option<Styled>,            // ATX heading line, rendered
    body: string -> Styled,                       // quote, list or paragraph line
    delimiter: (string, string) -> bool,          // second line makes the first a table header
    table: (seq<string>, Options) -> seq<TableLine>)

  const kCodeBlock: nat := 16
  const kDim: nat := 64
  const kMono: nat := 128
  const kRule: nat := 512

  // ---- Fold state ----

  datatype State = State(anyOutput: bool, pendingBlank: bool, inFence: bool,
                         fenceChar: char, fenceLen: nat, fenceIndent: nat)

  const START := State(false, false, false, '\0', 0, 0)

  // ---- Lines ----

  /** `s` is the line without its break, `end` the source offset past the
      break, `nl` whether the break has arrived. */
  datatype Line = Line(s: string, end: nat, nl: bool)

  function FindNewline(text: string, from: nat): (r: nat)
    requires from <= |text|
    ensures from <= r <= |text|
    ensures r < |text| ==> text[r] == '\n'
    ensures forall k :: from <= k < r ==> text[k] != '\n'
    decreases |text| - from
  {
    if from == |text| || text[from] == '\n' then from else FindNewline(text, from + 1)
  }

  function StripCr(s: string): string {
    if s != [] && s[|s| - 1] == '\r' then s[..|s| - 1] else s
  }

  function Lines(text: string, from: nat): (r: seq<Line>)
    requires from <= |text|
    ensures |r| > 0
    decreases |text| - from
  {
    var nl := FindNewline(text, from);
    if nl == |text| then [Line(text[from..], |text|, false)]
    else [Line(StripCr(text[from..nl]), nl + 1, true)] + Lines(text, nl + 1)
  }

  /** split_lines, as the loop the source writes. */
  method SplitLines(text: string, from: nat) returns (lines: seq<Line>)
    ensures lines == Lines(text, if from < |text| then from else |text|)
  {
    hide FindNewline, StripCr;
    lines := [];
    var start := if from < |text| then from else |text|;
    var pos := start;
    while true
      invariant pos <= |text|
      invariant lines + Lines(text, pos) == Lines(text, start)
      decreases |text| - pos
    {
      var nl := FindNewline(text, pos);
      if nl == |text| {
        lines := lines + [Line(text[pos..], |text|, false)];
        return;
      }
      ghost var before := lines;
      lines := lines + [Line(StripCr(text[pos..nl]), nl + 1, true)];
      assert lines + Lines(text, nl + 1) == before + Lines(text, pos);
      pos := nl + 1;
    }
  }

  // ---- Line recognisers ----

  predicate IsSpace(c: char) { c == ' ' || c == '\t' }

  predicate IsWs(c: char) { c == ' ' || 9 <= c as int <= 13 }

  predicate IsBlank(s: string) { forall k :: 0 <= k < |s| ==> IsWs(s[k]) }

  /** indent_of: columns of leading indentation (a tab advances to the next
      multiple of four) and the index of the first byte after it. */
  function Indent(s: string, i: nat, cols: nat): (r: (nat, nat))
    requires i <= |s|
    ensures i <= r.1 <= |s|
    ensures forall k :: i <= k < r.1 ==> IsSpace(s[k])
    ensures r.1 < |s| ==> !IsSpace(s[r.1])
    decreases |s| - i
  {
    if i < |s| && IsSpace(s[i])
    then Indent(s, i + 1, if s[i] == '\t' then cols + 4 - cols % 4 else cols + 1)
    else (cols, i)
  }

  function RunOf(s: string, i: nat, c: char): (r: nat)
    requires i <= |s|
    ensures i <= r <= |s|
    decreases |s| - i
  {
    if i < |s| && s[i] == c then RunOf(s, i + 1, c) else i
  }

  function TrimLeft(s: string): string {
    if s != [] && IsWs(s[0]) then TrimLeft(s[1..]) else s
  }

  function TrimRight(s: string): string {
    if s != [] && IsWs(s[|s| - 1]) then TrimRight(s[..|s| - 1]) else s
  }

  function Trim(s: string): string { TrimRight(TrimLeft(s)) }

  datatype Fence = Fence(ch: char, len: nat, indent: nat, info: string)

  function FenceOpen(line: string): Option<Fence> {
    var (indent, i) := Indent(line, 0, 0);
    if i >= |line| then None else
    var c := line[i];
    if c != '`' && c != '~' then None else
    var k := RunOf(line, i, c);
    if k - i < 3 then None else
    var info := Trim(line[k..]);
    if c == '`' && '`' in info then None else Some(Fence(c, k - i, indent, info))
  }

  predicate FenceClose(line: string, ch: char, len: nat) {
    var i := Indent(line, 0, 0).1;
    var k := RunOf(line, i, ch);
    k - i >= len && IsBlank(line[k..])
  }

  function CountChar(s: string, c: char): nat {
    if s == [] then 0 else (if s[0] == c then 1 else 0) + CountChar(s[1..], c)
  }

  predicate ThematicBreak(line: string) {
    var (cols, i) := Indent(line, 0, 0);
    && cols <= 3
    && i < |line|
    && (line[i] == '-' || line[i] == '*' || line[i] == '_')
    && (forall k :: i <= k < |line| ==> line[k] == line[i] || IsWs(line[k]))
    && CountChar(line[i..], line[i]) >= 3
  }

  predicate HasPipe(s: string) {
    if s == [] then false
    else if s[0] == '\\' then (if |s| == 1 then false else HasPipe(s[2..]))
    else s[0] == '|' || HasPipe(s[1..])
  }

  /** A table may start at the head of these lines. */
  predicate TableStart(syn: Syntax, ls: seq<Line>) {
    |ls| > 1 && HasPipe(ls[0].s) && HasPipe(ls[1].s) && syn.delimiter(ls[0].s, ls[1].s)
  }

  /** Number of further table rows from line `j` on: non-blank, with a pipe. */
  function RowsEnd(ls: seq<Line>, j: nat): (r: nat)
    requires j <= |ls|
    ensures j <= r <= |ls|
    decreases |ls| - j
  {
    if j < |ls| && !IsBlank(ls[j].s) && HasPipe(ls[j].s) then RowsEnd(ls, j + 1) else j
  }

  // ---- Units ----

  /** begin_line: the line break leads, and a pending blank is one empty line. */
  function BeginLine(st: State): (r: (Styled, State)) {
    (Plain(if !st.anyOutput then "" else if st.pendingBlank then "\n\n" else "\n", PLAIN),
     st.(pendingBlank := false, anyOutput := true))
  }

  function EmitLine(st: State, body: Styled): (Styled, State) {
    var (lead, st') := BeginLine(st);
    (Join(lead, body), st')
  }

  function EmitTable(st: State, rows: seq<TableLine>): (Styled, State)
    decreases |rows|
  {
    if rows == [] then (NOTHING, st) else
    var st0 := if rows[0].blankBefore && st.anyOutput then st.(pendingBlank := true) else st;
    var (out, st1) := EmitLine(st0, rows[0].body);
    var (rest, st2) := EmitTable(st1, rows[1..]);
    (Join(out, rest), st2)
  }

  /** Bytes of code-block indentation to drop, at most the fence's own. */
  function CodeStrip(s: string, i: nat, indent: nat): (r: nat)
    requires i <= |s|
    ensures r <= |s|
    decreases |s| - i
  {
    if i < |s| && i < indent && s[i] == ' ' then CodeStrip(s, i + 1, indent) else i
  }

  function FirstWord(s: string, i: nat): (r: nat)
    requires i <= |s|
    ensures r <= |s|
    decreases |s| - i
  {
    if i < |s| && !IsWs(s[i]) then FirstWord(s, i + 1) else i
  }

  function Repeat(s: string, n: nat): string {
    if n == 0 then [] else s + Repeat(s, n - 1)
  }

  function Rule(o: Options): Styled {
    Plain(Repeat(if o.asciiBorders then "-" else "\U{e2}\U{94}\U{80}",
                 if o.maxCols < 3 then 3 else o.maxCols),
          Style(kMono + kRule, 0))
  }

  datatype Unit = Unit(out: Styled, state: State, consumed: nat, complete: bool)

  function RowTexts(ls: seq<Line>): seq<string> {
    seq(|ls|, i requires 0 <= i < |ls| => ls[i].s)
  }

  /** render_unit on the lines from the unit's first line on. */
  function RenderUnit(syn: Syntax, ls: seq<Line>, st: State, o: Options): (u: Unit)
    requires |ls| > 0
    ensures 1 <= u.consumed <= |ls|
  {
    var l := ls[0];
    if st.inFence then
      if FenceClose(l.s, st.fenceChar, st.fenceLen) then
        Unit(NOTHING, st.(inFence := false), 1, l.nl)
      else
        var (out, st') := EmitLine(st, Plain(l.s[CodeStrip(l.s, 0, st.fenceIndent)..], Style(kCodeBlock, 0)));
        Unit(out, st', 1, l.nl)
    else if IsBlank(l.s) then
      Unit(NOTHING, if st.anyOutput then st.(pendingBlank := true) else st, 1, l.nl)
    else if FenceOpen(l.s).Some? then
      var f := FenceOpen(l.s).value;
      var st0 := st.(inFence := true, fenceChar := f.ch, fenceLen := f.len, fenceIndent := f.indent);
      var sp := FirstWord(f.info, 0);
      if sp == 0 then Unit(NOTHING, st0, 1, l.nl)
      else
        var (out, st') := EmitLine(st0, Plain(f.info[..sp], Style(kCodeBlock + kDim, 0)));
        Unit(out, st', 1, l.nl)
    else if syn.heading(l.s).Some? then
      var (out, st') := EmitLine(st, syn.heading(l.s).value);
      Unit(out, st', 1, l.nl)
    else if ThematicBreak(l.s) then
      var (out, st') := EmitLine(st, Rule(o));
      Unit(out, st', 1, l.nl)
    else if TableStart(syn, ls) then
      var j := RowsEnd(ls, 2);
      var (out, st') := EmitTable(st, syn.table(RowTexts(ls[..j]), o));
      Unit(out, st', j, j < |ls| && ls[j].nl)
    else
      var (out, st') := EmitLine(st, syn.body(l.s));
      Unit(out, st', 1, l.nl && (HasPipe(l.s) && |ls| > 1 ==> ls[1].nl))
  }

  // ---- The fold ----

  datatype Frozen = Frozen(out: Styled, state: State, lines: nat)

  /** The leading units that can no longer change. */
  function Freeze(syn: Syntax, ls: seq<Line>, st: State, o: Options): (f: Frozen)
    ensures f.lines <= |ls|
  {
    if ls == [] then Frozen(NOTHING, st, 0) else
    var u := RenderUnit(syn, ls, st, o);
    if !u.complete then Frozen(NOTHING, st, 0) else
    var f := Freeze(syn, ls[u.consumed..], u.state, o);
    Frozen(Join(u.out, f.out), f.state, u.consumed + f.lines)
  }

  /** All units, to the end. */
  function Fold(syn: Syntax, ls: seq<Line>, st: State, o: Options): Styled {
    if ls == [] then NOTHING else
    var u := RenderUnit(syn, ls, st, o);
    Join(u.out, Fold(syn, ls[u.consumed..], u.state, o))
  }

  /** The state after all units. */
  function FoldState(syn: Syntax, ls: seq<Line>, st: State, o: Options): State {
    if ls == [] then st else
    var u := RenderUnit(syn, ls, st, o);
    FoldState(syn, ls[u.consumed..], u.state, o)
  }

  datatype Incremental = Incremental(frozen: Styled, frozenEnd: nat, state: State, tail: Styled)

  function RenderFromSpec(syn: Syntax, text: string, from: nat, st: State, o: Options): (r: Incremental)
    requires from <= |text|
  {
    var ls := Lines(text, from);
    var f := Freeze(syn, ls, st, o);
    Incremental(f.out, if f.lines == 0 then from else ls[f.lines - 1].end, f.state,
                Fold(syn, ls[f.lines..], f.state, o))
  }

  /** render: the whole text from the start state, in one pass. */
  function Render(syn: Syntax, text: string, o: Options): Styled {
    Fold(syn, Lines(text, 0), START, o)
  }

  // ---- Law 1: frozen output plus the open tail is the whole rendering ----

  lemma {:induction false} LinesShape(text: string, from: nat)
    requires from <= |text|
    ensures var ls := Lines(text, from);
            && (forall k :: 0 <= k < |ls| - 1 ==> ls[k].nl)
            && !ls[|ls| - 1].nl
            && (forall k :: 0 <= k < |ls| ==> from <= ls[k].end <= |text|)
    decreases |text| - from
  {
    hide FindNewline, StripCr;
    var nl := FindNewline(text, from);
    if nl < |text| {
      LinesShape(text, nl + 1);
    }
  }

  /** Splitting again from the end of a whole line gives the lines after it. */
  lemma {:induction false} LinesAfter(text: string, from: nat, k: nat)
    requires from <= |text| && 0 < k < |Lines(text, from)|
    ensures Lines(text, from)[k - 1].end <= |text|
    ensures Lines(text, Lines(text, from)[k - 1].end) == Lines(text, from)[k..]
    decreases |text| - from
  {
    hide FindNewline, StripCr;
    var nl := FindNewline(text, from);
    if k > 1 {
      LinesAfter(text, nl + 1, k - 1);
    }
  }

  /** `b` is what `a` becomes when text is appended: only the open last line
      of `a` may change, and lines may follow. */
  ghost predicate Extends(a: seq<Line>, b: seq<Line>) {
    && 0 < |a| <= |b|
    && (forall k :: 0 <= k < |a| - 1 ==> a[k] == b[k] && a[k].nl)
    && !a[|a| - 1].nl
  }

  lemma {:induction false} LinesExtend(text: string, delta: string, from: nat)
    requires from <= |text|
    ensures Extends(Lines(text, from), Lines(text + delta, from))
    decreases |text| - from
  {
    hide FindNewline, StripCr;
    var nl := FindNewline(text, from);
    if nl < |text| {
      FindNewlineExtend(text, delta, from);
      assert (text + delta)[from..nl] == text[from..nl];
      LinesExtend(text, delta, nl + 1);
    }
  }

  lemma {:induction false} FindNewlineExtend(text: string, delta: string, from: nat)
    requires from <= |text| && FindNewline(text, from) < |text|
    ensures FindNewline(text + delta, from) == FindNewline(text, from)
    decreases |text| - from
  {
    assert (text + delta)[from] == text[from];
    if text[from] != '\n' {
      FindNewlineExtend(text, delta, from + 1);
    }
  }

  lemma {:induction false} RowsEndExtend(a: seq<Line>, b: seq<Line>, j: nat)
    requires Extends(a, b) && j < |a| && RowsEnd(a, j) < |a| - 1
    ensures RowsEnd(b, j) == RowsEnd(a, j)
    decreases |a| - j
  {
    if !IsBlank(a[j].s) && HasPipe(a[j].s) {
      RowsEndExtend(a, b, j + 1);
    }
  }

  /** A complete unit stays what it is under every continuation of the text. */
  lemma {:induction false} UnitStable(syn: Syntax, a: seq<Line>, b: seq<Line>, st: State, o: Options)
    requires Extends(a, b) && RenderUnit(syn, a, st, o).complete
    ensures RenderUnit(syn, b, st, o) == RenderUnit(syn, a, st, o)
    ensures RenderUnit(syn, a, st, o).consumed < |a|
    ensures Extends(a[RenderUnit(syn, a, st, o).consumed..], b[RenderUnit(syn, a, st, o).consumed..])
  {
    hide EmitLine, EmitTable, FenceOpen, FenceClose, ThematicBreak, HasPipe, IsBlank, CodeStrip, FirstWord, Rule;
    var u := RenderUnit(syn, a, st, o);
    assert a[0].nl && |a| > 1;
    assert a[0] == b[0];
    var plain := !st.inFence && !IsBlank(a[0].s) && FenceOpen(a[0].s).None? && syn.heading(a[0].s).None?
                 && !ThematicBreak(a[0].s);
    if plain && HasPipe(a[0].s) {
      assert a[1].nl && a[1] == b[1] by {
        var j := RowsEnd(a, 2);
      }
      if TableStart(syn, a) {
        assert |a| > 2;
        RowsEndExtend(a, b, 2);
        assert RowTexts(a[..u.consumed]) == RowTexts(b[..u.consumed]);
      }
    }
    assert u.consumed < |a|;
  }

  /** Freezing a longer text freezes first what was frozen already, then goes
      on from there. */
  lemma {:induction false} FreezeExtend(syn: Syntax, a: seq<Line>, b: seq<Line>, st: State, o: Options)
    requires Extends(a, b)
    ensures var f := Freeze(syn, a, st, o);
            && f.lines < |a|
            && var g := Freeze(syn, b[f.lines..], f.state, o);
            && Freeze(syn, b, st, o) == Frozen(Join(f.out, g.out), g.state, f.lines + g.lines)
    decreases |a|
  {
    hide RenderUnit, Join;
    var u := RenderUnit(syn, a, st, o);
    var f := Freeze(syn, a, st, o);
    if u.complete {
      UnitStable(syn, a, b, st, o);
      var a', b' := a[u.consumed..], b[u.consumed..];
      FreezeExtend(syn, a', b', u.state, o);
      var f' := Freeze(syn, a', u.state, o);
      assert b[f.lines..] == b'[f'.lines..];
      var g := Freeze(syn, b[f.lines..], f.state, o);
      JoinAssoc(u.out, f'.out, g.out);
    } else {
      assert b[0..] == b;
      JoinNothing(Freeze(syn, b, st, o).out);
    }
  }

  lemma {:induction false} FoldSplit(syn: Syntax, ls: seq<Line>, st: State, o: Options)
    ensures var f := Freeze(syn, ls, st, o);
            Fold(syn, ls, st, o) == Join(f.out, Fold(syn, ls[f.lines..], f.state, o))
    decreases |ls|
  {
    if ls != [] && RenderUnit(syn, ls, st, o).complete {
      var u := RenderUnit(syn, ls, st, o);
      FoldSplit(syn, ls[u.consumed..], u.state, o);
      var f := Freeze(syn, ls, st, o);
      var f' := Freeze(syn, ls[u.consumed..], u.state, o);
      assert ls[f.lines..] == ls[u.consumed..][f'.lines..];
      JoinAssoc(u.out, f'.out, Fold(syn, ls[f.lines..], f.state, o));
    } else {
      assert ls[0..] == ls;
      JoinNothing(Fold(syn, ls, st, o));
    }
  }

  /** From any line start and any state: frozen, then tail, is the fold of the
      whole rest of the text. */
  lemma {:induction false} FrozenPlusTail(syn: Syntax, text: string, from: nat, st: State, o: Options)
    requires from <= |text|
    ensures var r := RenderFromSpec(syn, text, from, st, o);
            && Join(r.frozen, r.tail) == Fold(syn, Lines(text, from), st, o)
            && from <= r.frozenEnd <= |text|
  {
    FoldSplit(syn, Lines(text, from), st, o);
    LinesShape(text, from);
  }

  /** Where the frozen part of a text ends, any longer text has a line start,
      and its lines from there on are the ones the freeze had not consumed. */
  lemma {:induction false} ResumeLines(syn: Syntax, text: string, delta: string, o: Options)
    ensures var f := Freeze(syn, Lines(text, 0), START, o);
            var at := RenderFromSpec(syn, text, 0, START, o).frozenEnd;
            && at <= |text| && f.lines <= |Lines(text + delta, 0)|
            && Lines(text + delta, at) == Lines(text + delta, 0)[f.lines..]
  {
    hide RenderUnit, Freeze, Fold;
    var a, b := Lines(text, 0), Lines(text + delta, 0);
    LinesExtend(text, delta, 0);
    FreezeExtend(syn, a, b, START, o);
    LinesShape(text, 0);
    var f := Freeze(syn, a, START, o);
    if f.lines > 0 {
      assert a[f.lines - 1] == b[f.lines - 1];
      LinesAfter(text + delta, 0, f.lines);
    } else {
      assert b[0..] == b;
    }
  }

  lemma {:induction false} ResumeParts(syn: Syntax, text: string, delta: string, o: Options)
    ensures var prev := RenderFromSpec(syn, text, 0, START, o);
            && prev.frozenEnd <= |text|
            && var inc := RenderFromSpec(syn, text + delta, prev.frozenEnd, prev.state, o);
               RenderFromSpec(syn, text + delta, 0, START, o)
               == Incremental(Join(prev.frozen, inc.frozen), inc.frozenEnd, inc.state, inc.tail)
  {
    hide RenderUnit, Freeze, Fold, Lines, Join;
    var a, b := Lines(text, 0), Lines(text + delta, 0);
    LinesExtend(text, delta, 0);
    FreezeExtend(syn, a, b, START, o);
    ResumeLines(syn, text, delta, o);
    var f := Freeze(syn, a, START, o);
    var prev := RenderFromSpec(syn, text, 0, START, o);
    var rest := Lines(text + delta, prev.frozenEnd);
    var g := Freeze(syn, rest, f.state, o);
    assert rest[g.lines..] == b[f.lines + g.lines..];
    if g.lines > 0 {
      assert rest[g.lines - 1] == b[f.lines + g.lines - 1];
    } else if f.lines > 0 {
      assert a[f.lines - 1] == b[f.lines - 1];
    }
  }

  /** Resuming at the frozen end after more text arrived gives exactly what a
      rendering of the longer text from scratch gives past the frozen part
      (same frozen output in total, same frozen end, state and open tail), and
      frozen output plus open tail is the rendering of the whole text. */
  lemma {:induction false} ResumeStream(syn: Syntax, text: string, delta: string, o: Options)
    ensures var prev := RenderFromSpec(syn, text, 0, START, o);
            && prev.frozenEnd <= |text|
            && var inc := RenderFromSpec(syn, text + delta, prev.frozenEnd, prev.state, o);
            && RenderFromSpec(syn, text + delta, 0, START, o)
               == Incremental(Join(prev.frozen, inc.frozen), inc.frozenEnd, inc.state, inc.tail)
            && Render(syn, text + delta, o) == Join(prev.frozen, Join(inc.frozen, inc.tail))
  {
    hide RenderUnit, Freeze, Fold, Lines, Join, RenderFromSpec;
    ResumeParts(syn, text, delta, o);
    FrozenPlusTail(syn, text + delta, 0, START, o);
    var prev := RenderFromSpec(syn, text, 0, START, o);
    var inc := RenderFromSpec(syn, text + delta, prev.frozenEnd, prev.state, o);
    JoinAssoc(prev.frozen, inc.frozen, inc.tail);
  }

  /** What the loop of render_from has done when `i` lines are consumed. */
  ghost predicate Rendering(syn: Syntax, lines: seq<Line>, start: nat, st: State, o: Options,
                            i: nat, cur: State, frozenOpen: bool, r: Incremental)
    requires i <= |lines|
  {
    var f := Freeze(syn, lines, st, o);
    && r.frozenEnd == (if frozenOpen then (if i == 0 then start else lines[i - 1].end)
                       else if f.lines == 0 then start else lines[f.lines - 1].end)
    && (frozenOpen ==>
          && r.tail == NOTHING && r.state == cur
          && var g := Freeze(syn, lines[i..], cur, o);
             f == Frozen(Join(r.frozen, g.out), g.state, i + g.lines))
    && (!frozenOpen ==>
          && r.frozen == f.out && r.state == f.state
          && Fold(syn, lines[f.lines..], f.state, o) == Join(r.tail, Fold(syn, lines[i..], cur, o)))
  }

  lemma {:induction false} RenderingStep(syn: Syntax, lines: seq<Line>, start: nat, st: State, o: Options,
                      i: nat, cur: State, frozenOpen: bool, r: Incremental, u: Unit)
    requires i < |lines| && Rendering(syn, lines, start, st, o, i, cur, frozenOpen, r)
    requires u == RenderUnit(syn, lines[i..], cur, o)
    ensures if frozenOpen && u.complete then
              Rendering(syn, lines, start, st, o, i + u.consumed, u.state, true,
                        r.(frozen := Join(r.frozen, u.out), state := u.state,
                           frozenEnd := lines[i + u.consumed - 1].end))
            else
              Rendering(syn, lines, start, st, o, i + u.consumed, u.state, false,
                        r.(tail := Join(r.tail, u.out)))
  {
    hide RenderUnit, Join;
    var rest := lines[i + u.consumed..];
    assert lines[i..][u.consumed..] == rest;
    if frozenOpen && u.complete {
      JoinAssoc(r.frozen, u.out, Freeze(syn, rest, u.state, o).out);
    } else {
      if frozenOpen {
        JoinNothing(r.frozen);
        JoinNothing(u.out);
      }
      JoinAssoc(r.tail, u.out, Fold(syn, rest, u.state, o));
    }
  }

  /** render_from, as the loop the source writes: a unit goes to `frozen` while
      every unit so far was complete, to `tail` from the first that is not. */
  method RenderFrom(syn: Syntax, text: string, from: nat, st: State, o: Options) returns (r: Incremental)
    ensures r == RenderFromSpec(syn, text, if from < |text| then from else |text|, st, o)
  {
    hide RenderUnit, Join, Lines;
    var start := if from < |text| then from else |text|;
    var lines := SplitLines(text, from);
    var cur := st;
    var frozenOpen := true;
    var i := 0;
    r := Incremental(NOTHING, start, st, NOTHING);
    assert lines[0..] == lines;
    JoinNothing(Freeze(syn, lines, st, o).out);
    while i < |lines|
      invariant i <= |lines| && Rendering(syn, lines, start, st, o, i, cur, frozenOpen, r)
    {
      var u := RenderUnit(syn, lines[i..], cur, o);
      RenderingStep(syn, lines, start, st, o, i, cur, frozenOpen, r, u);
      if frozenOpen && u.complete {
        r := r.(frozen := Join(r.frozen, u.out), state := u.state,
                frozenEnd := lines[i + u.consumed - 1].end);
      } else {
        frozenOpen := false;
        r := r.(tail := Join(r.tail, u.out));
      }
      cur := u.state;
      i := i + u.consumed;
    }
    JoinNothing(r.frozen);
    JoinNothing(r.tail);
  }

  // ---- Law 2: width dependence ----

  /** width_dependent from the head of these lines on. */
  function Dependent(syn: Syntax, ls: seq<Line>, inFence: bool, ch: char, len: nat): bool {
    if ls == [] then false
    else if inFence then Dependent(syn, ls[1..], !FenceClose(ls[0].s, ch, len), ch, len)
    else
      match FenceOpen(ls[0].s)
      case Some(f) => Dependent(syn, ls[1..], true, f.ch, f.len)
      case None =>
        ThematicBreak(ls[0].s) || TableStart(syn, ls) || Dependent(syn, ls[1..], false, ch, len)
  }

  function WidthDependent(syn: Syntax, text: string): bool {
    Dependent(syn, Lines(text, 0), false, '\0', 0)
  }

  lemma {:induction false} BlankIsPlain(line: string)
    requires IsBlank(line)
    ensures FenceOpen(line).None?
  {
  }

  lemma {:induction false} IndependentUnit(syn: Syntax, ls: seq<Line>, st: State, ch: char, len: nat,
                        o1: Options, o2: Options)
    requires ls != [] && !Dependent(syn, ls, st.inFence, ch, len)
    requires st.inFence ==> ch == st.fenceChar && len == st.fenceLen
    ensures var u := RenderUnit(syn, ls, st, o1);
            && u == RenderUnit(syn, ls, st, o2) && u.consumed == 1
            && var (ch', len') := if u.state.inFence then (u.state.fenceChar, u.state.fenceLen) else (ch, len);
               !Dependent(syn, ls[1..], u.state.inFence, ch', len')
  {
    if IsBlank(ls[0].s) {
      BlankIsPlain(ls[0].s);
    }
  }

  /** Whatever the scan calls width independent renders the same, in the same
      units, under any two layouts. The scan reads single lines, the renderer
      units; they agree because only a table spans several lines. */
  lemma {:induction false} IndependentFold(syn: Syntax, ls: seq<Line>, st: State, ch: char, len: nat,
                                           o1: Options, o2: Options)
    requires !Dependent(syn, ls, st.inFence, ch, len)
    requires st.inFence ==> ch == st.fenceChar && len == st.fenceLen
    ensures Freeze(syn, ls, st, o1) == Freeze(syn, ls, st, o2)
    ensures Fold(syn, ls, st, o1) == Fold(syn, ls, st, o2)
    ensures var f := Freeze(syn, ls, st, o1);
            Fold(syn, ls[f.lines..], f.state, o1) == Fold(syn, ls[f.lines..], f.state, o2)
    decreases |ls|
  {
    hide RenderUnit;
    if ls != [] {
      IndependentUnit(syn, ls, st, ch, len, o1, o2);
      var u := RenderUnit(syn, ls, st, o1);
      var (ch', len') := if u.state.inFence then (u.state.fenceChar, u.state.fenceLen) else (ch, len);
      IndependentFold(syn, ls[1..], u.state, ch', len', o1, o2);
      var f, f' := Freeze(syn, ls, st, o1), Freeze(syn, ls[1..], u.state, o1);
      assert if u.complete then ls[f.lines..] == ls[1..][f'.lines..] else ls[f.lines..] == ls;
    }
  }

  lemma {:induction false} WidthIndependent(syn: Syntax, text: string, o1: Options, o2: Options)
    requires !WidthDependent(syn, text)
    ensures Render(syn, text, o1) == Render(syn, text, o2)
    ensures RenderFromSpec(syn, text, 0, START, o1) == RenderFromSpec(syn, text, 0, START, o2)
  {
    var ls := Lines(text, 0);
    IndependentFold(syn, ls, START, '\0', 0, o1, o2);
  }
}
