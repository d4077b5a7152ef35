/** What the markdown fold shows: line after line, blank lines between, code
    between fences as it is, tables row by row. */
module MarkdownShows {
  import opened Wrappers
  import opened StyledText
  import opened Markdown

  // ---- Lines ----

  /** The lines, their breaks put back. */
  function Unlines(ls: seq<Line>): string {
    if ls == [] then "" else ls[0].s + (if ls[0].nl then "\n" else "") + Unlines(ls[1..])
  }

  /** Splitting loses nothing: without carriage returns the lines and their
      breaks are the text. */
  lemma {:induction false} LinesHold(text: string, from: nat)
    requires from <= |text| && '\r' !in text
    ensures Unlines(Lines(text, from)) == text[from..]
    decreases |text| - from
  {
    hide FindNewline;
    var nl := FindNewline(text, from);
    var ls := Lines(text, from);
    if nl < |text| {
      LinesHold(text, nl + 1);
      assert ls[1..] == Lines(text, nl + 1);
      NoCr(text, from, nl);
      assert text[from..] == text[from..nl] + "\n" + text[nl + 1..];
    } else {
      assert ls[1..] == [];
      assert Unlines([]) == "" by { NoLines(); }
      assert ls[0].s + "" + "" == text[from..];
    }
  }

  lemma {:induction false} NoLines()
    ensures Unlines([]) == ""
  {
  }

  lemma {:induction false} NoCr(text: string, from: nat, nl: nat)
    requires from <= nl <= |text| && '\r' !in text
    ensures StripCr(text[from..nl]) == text[from..nl]
  {
  }

  lemma {:induction false} LinesUnbroken(text: string, from: nat)
    requires from <= |text|
    ensures forall k :: 0 <= k < |Lines(text, from)| ==> '\n' !in Lines(text, from)[k].s
    decreases |text| - from
  {
    var nl := FindNewline(text, from);
    var ls := Lines(text, from);
    if nl < |text| {
      LinesUnbroken(text, nl + 1);
      forall k | 0 <= k < |ls| ensures '\n' !in ls[k].s {
        if k > 0 {
          assert ls[k] == Lines(text, nl + 1)[k - 1];
        }
      }
    }
  }

  /** A carriage return before a break belongs to the break. */
  lemma {:induction false} CrDropped(s: string)
    ensures StripCr(s + "\r") == s && (s == "" || s[|s| - 1] != '\r' ==> StripCr(s) == s)
  {
    assert (s + "\r")[..|s|] == s;
  }

  // ---- Paragraphs, headings and rules ----

  /** A line that is shown by itself: no fence, no table row. */
  predicate Single(syn: Syntax, s: string) {
    !IsBlank(s) && FenceOpen(s).None? && (syn.heading(s).Some? || ThematicBreak(s) || !HasPipe(s))
  }

  function LineShows(syn: Syntax, s: string, o: Options): Styled {
    if syn.heading(s).Some? then syn.heading(s).value
    else if ThematicBreak(s) then Rule(o)
    else syn.body(s)
  }

  predicate AnyBefore(ls: seq<Line>, n: nat)
    requires n <= |ls|
  {
    exists j :: 0 <= j < n && !IsBlank(ls[j].s)
  }

  /** What stands before line n: nothing before the first that shows, one
      empty line after any number of blank ones, else a line break. */
  function Gap(ls: seq<Line>, n: nat): string
    requires n < |ls|
  {
    if !AnyBefore(ls, n) then "" else if IsBlank(ls[n - 1].s) then "\n\n" else "\n"
  }

  function Laid(syn: Syntax, ls: seq<Line>, n: nat, o: Options): Styled
    requires n <= |ls|
  {
    if n == 0 then NOTHING
    else if IsBlank(ls[n - 1].s) then Laid(syn, ls, n - 1, o)
    else Join(Laid(syn, ls, n - 1, o), Join(Plain(Gap(ls, n - 1), PLAIN), LineShows(syn, ls[n - 1].s, o)))
  }

  predicate AllSingle(syn: Syntax, ls: seq<Line>) {
    forall k :: 0 <= k < |ls| ==> IsBlank(ls[k].s) || Single(syn, ls[k].s)
  }

  function StateBefore(ls: seq<Line>, n: nat): State
    requires n <= |ls|
  {
    START.(anyOutput := AnyBefore(ls, n), pendingBlank := n > 0 && AnyBefore(ls, n) && IsBlank(ls[n - 1].s))
  }

  lemma {:induction false} AnyNext(ls: seq<Line>, n: nat)
    requires n < |ls|
    ensures AnyBefore(ls, n + 1) <==> AnyBefore(ls, n) || !IsBlank(ls[n].s)
  {
    hide IsBlank;
    if AnyBefore(ls, n) {
      var j :| 0 <= j < n && !IsBlank(ls[j].s);
      assert 0 <= j < n + 1 && !IsBlank(ls[j].s);
    }
    if !IsBlank(ls[n].s) {
      assert AnyBefore(ls, n + 1);
    }
  }

  lemma {:induction false} SingleUnit(syn: Syntax, ls: seq<Line>, n: nat, o: Options)
    requires n < |ls| && AllSingle(syn, ls)
    ensures var u := RenderUnit(syn, ls[n..], StateBefore(ls, n), o);
            && u.consumed == 1 && u.state == StateBefore(ls, n + 1)
            && u.out == (if IsBlank(ls[n].s) then NOTHING
                         else Join(Plain(Gap(ls, n), PLAIN), LineShows(syn, ls[n].s, o)))
  {
    hide IsBlank, FenceOpen, ThematicBreak, HasPipe, Rule, AnyBefore, RowsEnd, EmitTable;
    AnyNext(ls, n);
    assert ls[n..][0] == ls[n];
    if n == 0 {
      assert !AnyBefore(ls, 0) by { NoneBefore(ls); }
    }
  }

  lemma {:induction false} NoneBefore(ls: seq<Line>)
    ensures !AnyBefore(ls, 0)
  {
  }

  /** Whatever the lines are, as long as each is blank or shown by itself: the
      rendering is those lines in order, one empty line where one or more blank
      ones were between them, none at either end. */
  lemma {:induction false} LinesLaid(syn: Syntax, ls: seq<Line>, o: Options)
    requires AllSingle(syn, ls)
    ensures Fold(syn, ls, START, o) == Laid(syn, ls, |ls|, o)
  {
    hide Laid, Fold, AllSingle;
    NoneBefore(ls);
    assert ls[0..] == ls;
    LaidFrom(syn, ls, 0, o);
    assert Laid(syn, ls, 0, o) == NOTHING by { LaidNone(syn, ls, o); }
    JoinNothing(Fold(syn, ls, START, o));
  }

  lemma {:induction false} LaidNone(syn: Syntax, ls: seq<Line>, o: Options)
    ensures Laid(syn, ls, 0, o) == NOTHING && Fold(syn, [], START, o) == NOTHING
  {
  }

  lemma {:induction false} LaidFrom(syn: Syntax, ls: seq<Line>, n: nat, o: Options)
    requires AllSingle(syn, ls) && n <= |ls|
    ensures Join(Laid(syn, ls, n, o), Fold(syn, ls[n..], StateBefore(ls, n), o)) == Laid(syn, ls, |ls|, o)
    decreases |ls| - n
  {
    hide Join, RenderUnit, StateBefore, LineShows, Gap, AllSingle, IsBlank;
    if n == |ls| {
      assert ls[n..] == [];
      JoinNothing(Laid(syn, ls, n, o));
    } else {
      SingleUnit(syn, ls, n, o);
      LaidFrom(syn, ls, n + 1, o);
      var u := RenderUnit(syn, ls[n..], StateBefore(ls, n), o);
      assert ls[n..][1..] == ls[n + 1..];
      var rest := Fold(syn, ls[n + 1..], u.state, o);
      JoinAssoc(Laid(syn, ls, n, o), u.out, rest);
      if IsBlank(ls[n].s) {
        JoinNothing(Laid(syn, ls, n, o));
      }
    }
  }

  /** A rule is as wide as the view, at least three columns, in dashes or box
      lines. */
  lemma {:induction false} RuleShows(o: Options)
    ensures var n := if o.maxCols < 3 then 3 else o.maxCols;
            && |Rule(o).cells| == (if o.asciiBorders then n else 3 * n)
            && (o.asciiBorders ==> forall k :: 0 <= k < n ==> Rule(o).cells[k].ch == '-')
            && (!o.asciiBorders ==> forall k :: 0 <= k < n ==>
                  && Rule(o).cells[3 * k].ch == '\U{e2}' && Rule(o).cells[3 * k + 1].ch == '\U{94}'
                  && Rule(o).cells[3 * k + 2].ch == '\U{80}')
  {
    var n := if o.maxCols < 3 then 3 else o.maxCols;
    if o.asciiBorders {
      Repeated("-", n);
    } else {
      Repeated("\U{e2}\U{94}\U{80}", n);
      var s := Repeat("\U{e2}\U{94}\U{80}", n);
      forall k | 0 <= k < n
        ensures s[3 * k] == '\U{e2}' && s[3 * k + 1] == '\U{94}' && s[3 * k + 2] == '\U{80}'
      {
        assert s[3 * k..3 * k + 3] == "\U{e2}\U{94}\U{80}";
        assert s[3 * k..3 * k + 3][0] == s[3 * k] && s[3 * k..3 * k + 3][1] == s[3 * k + 1];
        assert s[3 * k..3 * k + 3][2] == s[3 * k + 2];
      }
    }
  }

  lemma {:induction false} Repeated(s: string, n: nat)
    requires s != ""
    ensures |Repeat(s, n)| == |s| * n
    ensures |s| == 1 ==> forall k :: 0 <= k < n ==> Repeat(s, n)[k] == s[0]
    ensures |s| == 3 ==> forall k :: 0 <= k < n ==> Repeat(s, n)[3 * k..3 * k + 3] == s
    decreases n
  {
    if n > 0 {
      Repeated(s, n - 1);
      var rest := Repeat(s, n - 1);
      assert Repeat(s, n) == s + rest;
      if |s| == 3 {
        forall k | 0 <= k < n ensures Repeat(s, n)[3 * k..3 * k + 3] == s {
          if k > 0 {
            assert rest[3 * (k - 1)..3 * (k - 1) + 3] == s;
            assert Repeat(s, n)[3 * k..3 * k + 3] == rest[3 * (k - 1)..3 * (k - 1) + 3];
          }
        }
      }
    }
  }

  // ---- Code between fences ----

  /** A line of code without the fence's own indentation. */
  lemma {:induction false} StripExact(s: string, indent: nat)
    ensures var k := CodeStrip(s, 0, indent);
            && k <= indent && (forall j :: 0 <= j < k ==> s[j] == ' ')
            && (k == indent || k == |s| || s[k] != ' ')
  {
    StripFrom(s, 0, indent);
  }

  lemma {:induction false} StripFrom(s: string, i: nat, indent: nat)
    requires i <= |s| && i <= indent && forall j :: 0 <= j < i ==> s[j] == ' '
    ensures var k := CodeStrip(s, i, indent);
            && i <= k <= indent && (forall j :: 0 <= j < k ==> s[j] == ' ')
            && (k == indent || k == |s| || s[k] != ' ')
    decreases |s| - i
  {
    if i < |s| && i < indent && s[i] == ' ' {
      StripFrom(s, i + 1, indent);
    }
  }

  function CodeLine(s: string, indent: nat): Styled {
    Plain(s[CodeStrip(s, 0, indent)..], Style(16, 0))
  }

  /** The lines of code, one below the other. */
  function Code(ls: seq<Line>, n: nat, indent: nat): Styled
    requires n <= |ls|
  {
    if n == 0 then NOTHING
    else Join(Code(ls, n - 1, indent), Join(Plain(if n == 1 then "" else "\n", PLAIN), CodeLine(ls[n - 1].s, indent)))
  }

  function Inside(f: Fence, any: bool): State {
    State(any, false, true, f.ch, f.len, f.indent)
  }

  /** From a fence without a language to the line that closes it, or to the
      end, every line is code: blank lines, headings, rules and pipes too. The
      fences do not show. */
  lemma {:induction false} FencedVerbatim(syn: Syntax, open: Line, code: seq<Line>, close: seq<Line>, o: Options)
    requires FenceOpen(open.s).Some? && FenceOpen(open.s).value.info == ""
    requires var f := FenceOpen(open.s).value;
             && (forall k :: 0 <= k < |code| ==> !FenceClose(code[k].s, f.ch, f.len))
             && (close == [] || (|close| == 1 && FenceClose(close[0].s, f.ch, f.len)))
    ensures Fold(syn, [open] + code + close, START, o) == Code(code, |code|, FenceOpen(open.s).value.indent)
  {
    hide FenceOpen, FenceClose, IsBlank, Fold, Code;
    var f := FenceOpen(open.s).value;
    var ls := [open] + code + close;
    assert RenderUnit(syn, ls, START, o) == Unit(NOTHING, Inside(f, false), 1, open.nl) by { OpenUnit(syn, ls, o); }
    FoldStep(syn, ls, START, o);
    assert ls[1..] == code + close;
    JoinNothing(Fold(syn, code + close, Inside(f, false), o));
    CodeFrom(syn, f, code, close, 0, o);
    assert code[0..] == code;
    CodeNone(code, f.indent);
    JoinNothing(Fold(syn, code + close, Inside(f, false), o));
  }

  lemma {:induction false} OpenUnit(syn: Syntax, ls: seq<Line>, o: Options)
    requires ls != [] && FenceOpen(ls[0].s).Some? && FenceOpen(ls[0].s).value.info == ""
    ensures RenderUnit(syn, ls, START, o) == Unit(NOTHING, Inside(FenceOpen(ls[0].s).value, false), 1, ls[0].nl)
  {
    hide FenceOpen, IsBlank;
    FenceNotBlank(ls[0].s);
  }

  lemma {:induction false} FenceNotBlank(s: string)
    requires FenceOpen(s).Some?
    ensures !IsBlank(s)
  {
    assert !IsWs(s[Indent(s, 0, 0).1]);
  }

  lemma {:induction false} FoldStep(syn: Syntax, ls: seq<Line>, st: State, o: Options)
    requires ls != []
    ensures var u := RenderUnit(syn, ls, st, o); Fold(syn, ls, st, o) == Join(u.out, Fold(syn, ls[u.consumed..], u.state, o))
  {
    hide RenderUnit;
  }

  lemma {:induction false} CodeNone(code: seq<Line>, indent: nat)
    ensures Code(code, 0, indent) == NOTHING
  {
  }

  lemma {:induction false} CodeFrom(syn: Syntax, f: Fence, code: seq<Line>, close: seq<Line>, n: nat, o: Options)
    requires n <= |code| && forall k :: 0 <= k < |code| ==> !FenceClose(code[k].s, f.ch, f.len)
    requires close == [] || (|close| == 1 && FenceClose(close[0].s, f.ch, f.len))
    ensures Join(Code(code, n, f.indent), Fold(syn, code[n..] + close, Inside(f, n > 0), o)) == Code(code, |code|, f.indent)
    decreases |code| - n
  {
    hide FenceClose, Join, RenderUnit, CodeLine, Fold;
    var rest := code[n..] + close;
    JoinNothing(Code(code, n, f.indent));
    if n < |code| {
      CodeUnit(syn, f, rest, n, o);
      assert rest[0] == code[n] && rest[1..] == code[n + 1..] + close;
      FoldStep(syn, rest, Inside(f, n > 0), o);
      CodeFrom(syn, f, code, close, n + 1, o);
      var u := RenderUnit(syn, rest, Inside(f, n > 0), o);
      JoinAssoc(Code(code, n, f.indent), u.out, Fold(syn, rest[1..], u.state, o));
    } else if close != [] {
      assert rest == close;
      CloseUnit(syn, f, close, n > 0, o);
      FoldStep(syn, close, Inside(f, n > 0), o);
      assert close[1..] == [];
      FoldNone(syn, RenderUnit(syn, close, Inside(f, n > 0), o).state, o);
      JoinNothing(NOTHING);
    } else {
      assert rest == [];
      FoldNone(syn, Inside(f, n > 0), o);
    }
  }

  lemma {:induction false} FoldNone(syn: Syntax, st: State, o: Options)
    ensures Fold(syn, [], st, o) == NOTHING
  {
  }

  lemma {:induction false} CodeUnit(syn: Syntax, f: Fence, ls: seq<Line>, n: nat, o: Options)
    requires ls != [] && !FenceClose(ls[0].s, f.ch, f.len)
    ensures var u := RenderUnit(syn, ls, Inside(f, n > 0), o);
            && u.consumed == 1 && u.state == Inside(f, true)
            && u.out == Join(Plain(if n == 0 then "" else "\n", PLAIN), CodeLine(ls[0].s, f.indent))
  {
    hide FenceClose;
  }

  lemma {:induction false} CloseUnit(syn: Syntax, f: Fence, ls: seq<Line>, any: bool, o: Options)
    requires ls != [] && FenceClose(ls[0].s, f.ch, f.len)
    ensures var u := RenderUnit(syn, ls, Inside(f, any), o); u.out == NOTHING && u.consumed == 1
  {
    hide FenceClose;
  }

  // ---- What fences, rules and rows look like ----

  function Times(c: char, n: nat): (s: string)
    ensures |s| == n && forall k :: 0 <= k < n ==> s[k] == c
  {
    seq(n, _ => c)
  }

  lemma {:induction false} IndentOf(s: string, i: nat, n: nat)
    requires i <= n <= |s| && (forall k :: 0 <= k < n ==> s[k] == ' ') && (n == |s| || !IsSpace(s[n]))
    ensures Indent(s, i, i) == (n, n)
    decreases n - i
  {
    if i < n {
      IndentOf(s, i + 1, n);
    }
  }

  lemma {:induction false} RunIs(s: string, i: nat, c: char, n: nat)
    requires i <= n <= |s| && (forall k :: i <= k < n ==> s[k] == c) && (n == |s| || s[n] != c)
    ensures RunOf(s, i, c) == n
    decreases n - i
  {
    if i < n {
      RunIs(s, i + 1, c, n);
    }
  }

  /** A tab leads to the next multiple of four. */
  lemma {:induction false} TabStop(n: nat, rest: string)
    requires rest == "" || !IsSpace(rest[0])
    ensures var (cols, i) := Indent(Times(' ', n) + "\t" + rest, 0, 0);
            i == n + 1 && n < cols <= n + 4 && cols % 4 == 0
  {
    TabFrom(Times(' ', n) + "\t" + rest, 0, n);
  }

  lemma {:induction false} TabFrom(s: string, i: nat, n: nat)
    requires i <= n < |s| && (forall k :: 0 <= k < n ==> s[k] == ' ') && s[n] == '\t' && (n + 1 == |s| || !IsSpace(s[n + 1]))
    ensures Indent(s, i, i) == (n + 4 - n % 4, n + 1)
    decreases n - i
  {
    if i < n {
      TabFrom(s, i + 1, n);
    }
  }

  /** A fence with a language shows its first word, dimmed. */
  lemma {:induction false} FenceLabel(syn: Syntax, open: Line, word: string, more: string, o: Options)
    requires FenceOpen(open.s).Some? && FenceOpen(open.s).value.info == word + more && word != ""
    requires (forall k :: 0 <= k < |word| ==> !IsWs(word[k])) && (more == "" || IsWs(more[0]))
    ensures Fold(syn, [open], START, o) == Plain(word, Style(16 + 64, 0))
  {
    hide FenceOpen, IsBlank;
    var f := FenceOpen(open.s).value;
    FenceNotBlank(open.s);
    WordEnds(word, more, 0);
    FoldStep(syn, [open], START, o);
    var u := RenderUnit(syn, [open], START, o);
    assert [open][u.consumed..] == [];
    FoldNone(syn, u.state, o);
    assert f.info[..|word|] == word;
    JoinNothing(Plain(word, Style(16 + 64, 0)));
    JoinNothing(u.out);
  }

  lemma {:induction false} WordEnds(word: string, more: string, i: nat)
    requires i <= |word| && (forall k :: 0 <= k < |word| ==> !IsWs(word[k])) && (more == "" || IsWs(more[0]))
    ensures FirstWord(word + more, i) == |word|
    decreases |word| - i
  {
    if i < |word| {
      WordEnds(word, more, i + 1);
    }
  }

  /** A fence's language has no blanks at either end, and loses nothing else. */
  lemma {:induction false} TrimExact(a: string, s: string, b: string)
    requires IsBlank(a) && IsBlank(b) && (s == "" || (!IsWs(s[0]) && !IsWs(s[|s| - 1])))
    ensures Trim(a + s + b) == s
    decreases |a|
  {
    if a == "" {
      assert a + s + b == s + b;
      if s == "" {
        LeftTrimmed(b);
      } else {
        assert TrimLeft(s + b) == s + b;
        RightTrimmed(s, b);
      }
    } else {
      assert (a + s + b)[1..] == a[1..] + s + b && IsWs(a[0]);
      TrimExact(a[1..], s, b);
    }
  }

  lemma {:induction false} LeftTrimmed(b: string)
    requires IsBlank(b)
    ensures TrimLeft("" + b) == "" && TrimRight("") == ""
    decreases |b|
  {
    assert "" + b == b;
    if b != "" {
      assert IsWs(b[0]) && "" + b[1..] == b[1..];
      LeftTrimmed(b[1..]);
    }
  }

  lemma {:induction false} RightTrimmed(s: string, b: string)
    requires IsBlank(b) && s != "" && !IsWs(s[|s| - 1])
    ensures TrimRight(s + b) == s
    decreases |b|
  {
    if b == "" {
      assert s + b == s;
    } else {
      var n := |b| - 1;
      assert (s + b)[..|s| + n] == s + b[..n] && IsWs(b[n]);
      RightTrimmed(s, b[..n]);
    }
  }

  /** Six bytes count as blank: the space and the five from tab to return. */
  lemma {:induction false} BlankExact(c: char)
    ensures IsWs(c) <==> c in " \t\n\U{b}\U{c}\r"
  {
  }

  /** A fence is three or more backticks or tildes, indented or not; what
      follows is its language, in which a backtick fence has no backtick. */
  lemma {:induction false} FenceExact(n: nat, c: char, k: nat, info: string)
    requires (c == '`' || c == '~') && k > 0 && (info == "" || info[0] != c)
    ensures FenceOpen(Times(' ', n) + Times(c, k) + info)
            == if k < 3 || (c == '`' && '`' in Trim(info)) then None else Some(Fence(c, k, n, Trim(info)))
  {
    hide Trim;
    var line := Times(' ', n) + Times(c, k) + info;
    IndentOf(line, 0, n);
    RunIs(line, n, c, n + k);
    assert line[n + k..] == info;
  }

  /** And it is closed by as many of the same, or more, with nothing behind. */
  lemma {:induction false} CloseExact(n: nat, c: char, k: nat, len: nat, rest: string)
    requires (c == '`' || c == '~') && k > 0 && (rest == "" || rest[0] != c)
    ensures FenceClose(Times(' ', n) + Times(c, k) + rest, c, len) <==> k >= len && IsBlank(rest)
  {
    hide IsBlank;
    var line := Times(' ', n) + Times(c, k) + rest;
    IndentOf(line, 0, n);
    RunIs(line, n, c, n + k);
    assert line[n + k..] == rest;
  }

  lemma {:induction false} CountAll(c: char, k: nat)
    ensures CountChar(Times(c, k), c) == k
    decreases k
  {
    if k > 0 {
      assert Times(c, k)[1..] == Times(c, k - 1);
      CountAll(c, k - 1);
    }
  }

  /** A rule is three or more of one mark, indented by at most three. */
  lemma {:induction false} RuleExact(n: nat, c: char, k: nat)
    requires k > 0 && !IsSpace(c)
    ensures ThematicBreak(Times(' ', n) + Times(c, k)) <==> n <= 3 && k >= 3 && (c == '-' || c == '*' || c == '_')
  {
    hide CountChar;
    var line := Times(' ', n) + Times(c, k);
    IndentOf(line, 0, n);
    assert line[n..] == Times(c, k);
    CountAll(c, k);
  }

  lemma {:induction false} RuleSpaced()
    ensures ThematicBreak("* * *") && !ThematicBreak("-*-") && !ThematicBreak("--")
  {
    IndentOf("* * *", 0, 0);
    IndentOf("-*-", 0, 0);
    IndentOf("--", 0, 0);
    assert "* * *"[0..] == "* * *" && "--"[0..] == "--";
    assert "* * *"[1..] == " * *" && " * *"[1..] == "* *" && "* *"[1..] == " *" && " *"[1..] == "*" && "*"[1..] == "";
    assert CountChar("*", '*') == 1 && CountChar(" *", '*') == 1 && CountChar("* *", '*') == 2;
    assert CountChar(" * *", '*') == 2;
    assert "--"[1..] == "-" && "-"[1..] == "";
    assert CountChar("-", '-') == 1;
    assert "-*-"[1] != "-*-"[0] && !IsWs("-*-"[1]);
  }

  /** A row needs a pipe that no backslash stands before. */
  lemma {:induction false} PipeExact(a: string, b: string, c: char)
    requires '\\' !in a && '|' !in a
    ensures HasPipe(a + "|" + b)
    ensures HasPipe(a + ['\\', c] + b) <==> HasPipe(b)
    ensures !HasPipe(a)
    decreases |a|
  {
    if a == "" {
      assert (['\\', c] + b)[2..] == b;
      assert a + ['\\', c] + b == ['\\', c] + b && a + "|" + b == "|" + b;
    } else {
      PipeExact(a[1..], b, c);
      assert (a + "|" + b)[1..] == a[1..] + "|" + b;
      assert (a + ['\\', c] + b)[1..] == a[1..] + ['\\', c] + b;
      assert a[0] in a;
      assert forall x :: x in a[1..] ==> x in a;
    }
  }

  // ---- Tables ----

  /** The rows laid out, each on its line, an empty one before where asked. */
  function TableLaid(rows: seq<TableLine>, n: nat): Styled
    requires n <= |rows|
  {
    if n == 0 then NOTHING
    else Join(TableLaid(rows, n - 1),
              Join(Plain(if n == 1 then "" else if rows[n - 1].blankBefore then "\n\n" else "\n", PLAIN), rows[n - 1].body))
  }

  /** A header, its delimiter row and all rows behind it are one table. */
  lemma {:induction false} TableShows(syn: Syntax, ls: seq<Line>, o: Options)
    requires TableStart(syn, ls) && !IsBlank(ls[0].s) && FenceOpen(ls[0].s).None? && syn.heading(ls[0].s).None?
    requires !ThematicBreak(ls[0].s) && forall k :: 2 <= k < |ls| ==> !IsBlank(ls[k].s) && HasPipe(ls[k].s)
    ensures var rows := syn.table(RowTexts(ls), o); Fold(syn, ls, START, o) == TableLaid(rows, |rows|)
  {
    hide IsBlank, FenceOpen, ThematicBreak, HasPipe, EmitTable, TableLaid;
    AllRows(ls, 2);
    assert ls[..|ls|] == ls;
    var rows := syn.table(RowTexts(ls), o);
    assert ls[|ls|..] == [];
    RowsFrom(rows, 0);
    assert rows[0..] == rows;
    NoTable(rows);
    JoinNothing(EmitTable(START, rows).0);
  }

  lemma {:induction false} NoTable(rows: seq<TableLine>)
    ensures TableLaid(rows, 0) == NOTHING
  {
  }

  lemma {:induction false} AllRows(ls: seq<Line>, j: nat)
    requires j <= |ls| && forall k :: j <= k < |ls| ==> !IsBlank(ls[k].s) && HasPipe(ls[k].s)
    ensures RowsEnd(ls, j) == |ls|
    decreases |ls| - j
  {
    hide IsBlank, HasPipe;
    if j < |ls| {
      AllRows(ls, j + 1);
    }
  }

  lemma {:induction false} RowsFrom(rows: seq<TableLine>, n: nat)
    requires n <= |rows|
    ensures Join(TableLaid(rows, n), EmitTable(START.(anyOutput := n > 0), rows[n..]).0) == TableLaid(rows, |rows|)
    decreases |rows| - n
  {
    hide Join;
    var st := START.(anyOutput := n > 0);
    if n == |rows| {
      assert rows[n..] == [];
      JoinNothing(TableLaid(rows, n));
    } else {
      RowsFrom(rows, n + 1);
      assert rows[n..][0] == rows[n] && rows[n..][1..] == rows[n + 1..];
      RowUnit(st, rows[n..], n);
      JoinAssoc(TableLaid(rows, n), Join(Plain(if n == 0 then "" else if rows[n].blankBefore then "\n\n" else "\n", PLAIN), rows[n].body),
                EmitTable(START.(anyOutput := true), rows[n + 1..]).0);
    }
  }

  lemma {:induction false} RowUnit(st: State, rows: seq<TableLine>, n: nat)
    requires rows != [] && st == START.(anyOutput := n > 0)
    ensures EmitTable(st, rows).0
            == Join(Join(Plain(if n == 0 then "" else if rows[0].blankBefore then "\n\n" else "\n", PLAIN), rows[0].body),
                    EmitTable(START.(anyOutput := true), rows[1..]).0)
  {
    hide Join;
  }
}
