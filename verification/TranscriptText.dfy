/** What the view says: the characters each kind of entry shows, open and
    closed, and where its controls stand among them. */
module TranscriptText {
  import opened Wrappers
  import opened StyledText
  import opened Markdown
  import opened Transcript
  import opened ViewState
  import opened ChatModel

  function Chars(cells: seq<ViewCell>): (s: string)
    ensures |s| == |cells|
  {
    seq(|cells|, k requires 0 <= k < |cells| => cells[k].ch)
  }

  function Letters(cells: seq<Cell>): (s: string)
    ensures |s| == |cells|
  {
    seq(|cells|, k requires 0 <= k < |cells| => cells[k].ch)
  }

  /** The characters of entry i. */
  function Says(look: Look, m: seq<Entry>, i: int, o: Options): string
    requires 0 <= i < |m|
  {
    Chars(RenderEntry(look, m, i, o).cells)
  }

  /** The characters of a text as markdown. */
  function MarkdownSays(look: Look, text: string, o: Options): string {
    Letters(Render(look.syn, text, o).cells)
  }

  function Break(i: int): string {
    if i > 0 then "\n" else ""
  }

  predicate EndsWith(s: string, t: string) {
    |t| <= |s| && s[|s| - |t|..] == t
  }

  lemma {:induction false} SaysStr(s: string, color: Color, style: Style)
    ensures Chars(Str(s, color, style).cells) == s
  {
  }

  lemma {:induction false} SaysJoin(a: seq<ViewCell>, b: seq<ViewCell>)
    ensures Chars(a + b) == Chars(a) + Chars(b)
  {
  }

  lemma {:induction false} SaysMarkdown(look: Look, md: Styled, base: Color, i: int)
    ensures Chars(MarkdownPart(look, md, base, i).cells) == Letters(md.cells)
  {
  }

  lemma {:induction false} Ends(a: string, b: string)
    ensures EndsWith(a + b, b)
  {
  }

  // ---- The three parts of an entry ----

  lemma {:induction false} ControlSays(e: Entry, i: int)
    ensures Chars(EntryControl(e, i).cells)
            == if e.kind == UserText || e.kind == AssistantText || e.kind == Reasoning then "  [Copy]    " else ""
  {
    if e.kind == UserText || e.kind == AssistantText || e.kind == Reasoning {
      SaysStr("  ", COLOR_COPY_CONTROL, PLAIN);
      SaysStr("[Copy]", COLOR_COPY_CONTROL, BOLD);
      SaysStr(" ", COLOR_COPY_CONTROL, PLAIN);
      SaysStr("   ", COLOR_COPY_FEEDBACK, PLAIN);
      assert "  " + "[Copy]" + " " + "   " == "  [Copy]    ";
    }
  }

  function Arrow(collapsed: bool): string {
    if collapsed then " \U{e2}\U{96}\U{b6}" else " \U{e2}\U{96}\U{bc}"
  }

  function Title(e: Entry): string {
    match e.kind
    case ToolCalled => "\n[Tool: " + e.name + "]"
    case Reasoning => "\n[Thinking]"
    case _ => "\n" + e.name
  }

  lemma {:induction false} HeadSays(e: Entry, i: int)
    ensures Chars(EntryHead(e, i).cells)
            == Break(i) + (if Collapsible(e) then Title(e) + Arrow(e.collapsed)
                           else if e.kind == UserText then "\nYou:"
                           else if e.kind == AssistantText then "\nAssistant:" else "")
  {
    hide Str;
    SaysStr(Break(i), EntryColor(e), PLAIN);
    match e.kind
    case UserText => SaysStr("\nYou:", COLOR_USER, BOLD);
    case AssistantText => SaysStr("\nAssistant:", COLOR_ASSISTANT, BOLD);
    case ToolCalled => SaysStr("\n[Tool: " + e.name + "]" + Arrow(e.collapsed), COLOR_TOOL_HEADER, BOLD);
    case Reasoning => SaysStr("\n[Thinking]" + Arrow(e.collapsed), COLOR_THINKING_HEADER, BOLD);
    case CompactionSummary => SaysStr("\n" + e.name + Arrow(e.collapsed), COLOR_THINKING_HEADER, BOLD);
    case _ =>
  }

  function HeadText(e: Entry, i: int): string {
    Chars(EntryHead(e, i).cells) + Chars(EntryControl(e, i).cells)
  }

  lemma {:induction false} SaysParts(look: Look, m: seq<Entry>, i: int, o: Options)
    requires 0 <= i < |m|
    ensures Says(look, m, i, o) == HeadText(m[i], i) + Chars(EntryBody(look, m, i, o).cells)
  {
    hide EntryHead, EntryControl, EntryBody;
    var a, b, c := EntryHead(m[i], i), EntryControl(m[i], i), EntryBody(look, m, i, o);
    SaysJoin(a.cells, b.cells);
    SaysJoin(a.cells + b.cells, c.cells);
  }

  // ---- Prompts, replies and notices ----

  /** A prompt, a reply and a notice show their text, whole. */
  lemma {:induction false} PlainSays(look: Look, m: seq<Entry>, i: int, o: Options)
    requires 0 <= i < |m|
    ensures m[i].kind == UserText ==>
              Says(look, m, i, o) == Break(i) + "\nYou:" + "  [Copy]    " + "\n" + m[i].text
                                     + (if m[i].name == "" then "" else "\n[image: " + m[i].name + "]")
    ensures m[i].kind == AssistantText ==>
              Says(look, m, i, o) == Break(i) + "\nAssistant:" + "  [Copy]    " + "\n" + MarkdownSays(look, m[i].text, o)
    ensures m[i].kind == System ==> Says(look, m, i, o) == Break(i) + "\n[System] " + m[i].text
  {
    hide Says, EntryHead, EntryControl, EntryBody, Render;
    var e := m[i];
    SaysParts(look, m, i, o);
    HeadSays(e, i);
    ControlSays(e, i);
    if e.kind == UserText {
      PromptBody(look, m, i, o);
      assert ("\n" + e.text) + (if e.name == "" then "" else "\n[image: " + e.name + "]")
             == "\n" + e.text + (if e.name == "" then "" else "\n[image: " + e.name + "]");
    } else if e.kind == AssistantText {
      ReplyBody(look, m, i, o);
    } else if e.kind == System {
      SystemBody(look, m, i, o);
      assert Break(i) + "" + "" == Break(i);
    }
  }

  lemma {:induction false} PromptBody(look: Look, m: seq<Entry>, i: int, o: Options)
    requires 0 <= i < |m| && m[i].kind == UserText
    ensures Chars(EntryBody(look, m, i, o).cells)
            == ("\n" + m[i].text) + (if m[i].name == "" then "" else "\n[image: " + m[i].name + "]")
  {
    hide Str;
    var tail := if m[i].name == "" then "" else "\n[image: " + m[i].name + "]";
    SaysStr("\n" + m[i].text, COLOR_USER, PLAIN);
    SaysStr(tail, COLOR_USER, PLAIN);
    SaysJoin(Str("\n" + m[i].text, COLOR_USER).cells, Str(tail, COLOR_USER).cells);
  }

  lemma {:induction false} ReplyBody(look: Look, m: seq<Entry>, i: int, o: Options)
    requires 0 <= i < |m| && m[i].kind == AssistantText
    ensures Chars(EntryBody(look, m, i, o).cells) == "\n" + MarkdownSays(look, m[i].text, o)
  {
    hide Str, Render, MarkdownPart;
    SaysStr("\n", COLOR_ASSISTANT, PLAIN);
    SaysMarkdown(look, Render(look.syn, m[i].text, o), COLOR_ASSISTANT, i);
    SaysJoin(Str("\n", COLOR_ASSISTANT).cells,
             MarkdownPart(look, Render(look.syn, m[i].text, o), COLOR_ASSISTANT, i).cells);
  }

  lemma {:induction false} SystemBody(look: Look, m: seq<Entry>, i: int, o: Options)
    requires 0 <= i < |m| && m[i].kind == System
    ensures Chars(EntryBody(look, m, i, o).cells) == "\n[System] " + m[i].text
  {
    SaysStr("\n[System] " + m[i].text, COLOR_SYSTEM, PLAIN);
  }

  // ---- Blocks ----

  /** A closed block shows its header line and nothing of its text. */
  lemma {:induction false} ClosedSays(look: Look, m: seq<Entry>, i: int, o: Options)
    requires 0 <= i < |m| && Collapsible(m[i]) && m[i].collapsed
    ensures Says(look, m, i, o) == Break(i) + Title(m[i]) + " \U{e2}\U{96}\U{b6}"
                                   + (if m[i].kind == Reasoning then "  [Copy]    " else "")
  {
    hide EntryHead, EntryControl;
    SaysParts(look, m, i, o);
    HeadSays(m[i], i);
    ControlSays(m[i], i);
    assert EntryBody(look, m, i, o).cells == [];
    var s := Break(i) + Title(m[i]) + Arrow(true);
    assert s + "" + "" == s;
    assert s + "  [Copy]    " + "" == s + "  [Copy]    ";
  }

  /** So whatever its text, it renders the same. */
  lemma {:induction false} ClosedHides(look: Look, m: seq<Entry>, i: int, o: Options, text: string)
    requires 0 <= i < |m| && Collapsible(m[i]) && m[i].collapsed
    ensures RenderEntry(look, m[i := m[i].(text := text)], i, o) == RenderEntry(look, m, i, o)
  {
  }

  /** An open block shows the header with the arrow down, and ends with its
      text: a call's input unless it is empty, reasoning as it is, a summary as
      markdown. */
  lemma {:induction false} OpenSays(look: Look, m: seq<Entry>, i: int, o: Options)
    requires 0 <= i < |m| && Collapsible(m[i]) && !m[i].collapsed
    ensures var head := Break(i) + Title(m[i]) + " \U{e2}\U{96}\U{bc}" + (if m[i].kind == Reasoning then "  [Copy]    " else "");
            Says(look, m, i, o)
            == head + (if m[i].text == "" || (m[i].kind == ToolCalled && m[i].text == "{}") then ""
                       else "\n" + (if m[i].kind == CompactionSummary then MarkdownSays(look, m[i].text, o) else m[i].text))
  {
    hide EntryHead, EntryControl, EntryBody, Title, Says, MarkdownSays, Chars, Break, Arrow;
    var e := m[i];
    SaysParts(look, m, i, o);
    HeadSays(e, i);
    ControlSays(e, i);
    OpenBody(look, m, i, o);
    DownArrow();
    Leading(Break(i), Title(e), Arrow(false));
  }

  lemma {:induction false} DownArrow()
    ensures Arrow(false) == " \U{e2}\U{96}\U{bc}"
  {
  }

  lemma {:induction false} Leading(a: string, b: string, c: string)
    ensures a + (b + c) == a + b + c && a + b + c + "" == a + b + c
  {
  }

  lemma {:induction false} OpenBody(look: Look, m: seq<Entry>, i: int, o: Options)
    requires 0 <= i < |m| && Collapsible(m[i]) && !m[i].collapsed
    ensures Chars(EntryBody(look, m, i, o).cells)
            == if m[i].text == "" || (m[i].kind == ToolCalled && m[i].text == "{}") then ""
               else "\n" + (if m[i].kind == CompactionSummary then MarkdownSays(look, m[i].text, o) else m[i].text)
  {
    hide Str, Render, MarkdownPart;
    var e := m[i];
    if e.kind == ToolCalled {
      SaysStr(if e.text != "" && e.text != "{}" then "\n" + e.text else "", COLOR_TOOL_BODY, PLAIN);
    } else if e.text != "" && e.kind == Reasoning {
      SaysStr("\n", COLOR_THINKING_HEADER, PLAIN);
      SaysStr(e.text, COLOR_THINKING_BODY, PLAIN);
      SaysJoin(Str("\n", COLOR_THINKING_HEADER).cells, Str(e.text, COLOR_THINKING_BODY).cells);
    } else if e.text != "" {
      var md := MarkdownPart(look, Render(look.syn, e.text, o), COLOR_THINKING_BODY, i);
      SaysStr("\n", COLOR_THINKING_BODY, PLAIN);
      SaysMarkdown(look, Render(look.syn, e.text, o), COLOR_THINKING_BODY, i);
      SaysJoin(Str("\n", COLOR_THINKING_BODY).cells, md.cells);
    }
  }

  /** Clicking a closed block brings its text, and clicking again hides it. */
  lemma {:induction false} ToggleShows(look: Look, m: Model, i: int)
    requires 0 <= i < |m.entries| && Collapsible(m.entries[i]) && m.entries[i].collapsed
    requires m.entries[i].text != "" && m.entries[i].text != "{}" && m.entries[i].kind != CompactionSummary
    ensures EndsWith(Says(look, Toggled(m, i).entries, i, m.opts), "\n" + m.entries[i].text)
    ensures Toggled(Toggled(m, i), i) == m
  {
    hide Says;
    var m' := Toggled(m, i);
    OpenSays(look, m'.entries, i, m.opts);
    var head := Break(i) + Title(m'.entries[i]) + " \U{e2}\U{96}\U{bc}"
                + (if m'.entries[i].kind == Reasoning then "  [Copy]    " else "");
    Ends(head, "\n" + m.entries[i].text);
    assert Toggled(m', i).entries == m.entries;
  }

  // ---- Results ----

  /** The call a result names is there, and open. */
  predicate CallOpen(m: seq<Entry>, e: Entry) {
    0 <= e.toolIdx < |m| && !m[e.toolIdx].collapsed
  }

  /** The result of the one tool whose output is put in words. */
  predicate InWords(look: Look, m: seq<Entry>, e: Entry) {
    0 <= e.toolIdx < |m| && m[e.toolIdx].name == "date_time" && e.success
    && look.dateTime(e.text, m[e.toolIdx].collapsed).Some?
  }

  /** Shortened: one line of at most 100 bytes stays as it is; of any other the
      first line's first bytes, as many as fit and cut no character, and dots. */
  ghost predicate Shortened(text: string, shown: string) {
    var line := FindNewline(text, 0);
    if line == |text| && line <= 100 then shown == text
    else
      exists k :: 0 <= k <= 100 && k <= line && k < |text|
        && shown == text[..k] + " \U{e2}\U{80}\U{a6}"
        && (k > 0 ==> !Continuation(text[k]))
        && forall j :: k < j <= 100 && j <= line && j < |text| ==> Continuation(text[j])
  }

  lemma {:induction false} BackOffExact(s: string, end: nat)
    requires end < |s|
    ensures var k := BackOff(s, end);
            && k <= end && (k > 0 ==> !Continuation(s[k])) && forall j :: k < j <= end ==> Continuation(s[j])
    decreases end
  {
    if end > 0 && Continuation(s[end]) {
      BackOffExact(s, end - 1);
    }
  }

  lemma {:induction false} ShortenExact(s: string)
    ensures Shortened(s, Shorten(s))
  {
    var line := FindNewline(s, 0);
    var end := if line < 100 then line else 100;
    if end < |s| {
      BackOffExact(s, end);
      var k := BackOff(s, end);
      assert Shorten(s) == s[..k] + " \U{e2}\U{80}\U{a6}";
    }
  }

  /** A result shows "[OK]" exactly when it is a success, else "[ERR]", all in
      that one colour; then its whole output if its call is open, and a
      shortened one if the call is closed or unknown. */
  lemma {:induction false} ResultSays(look: Look, m: seq<Entry>, i: int, o: Options)
    requires 0 <= i < |m| && m[i].kind == ToolResult
    ensures var e := m[i];
            var tag := Break(i) + (if e.success then "[OK] " else "[ERR] ");
            var said := Says(look, m, i, o);
            && tag <= said
            && (!InWords(look, m, e) && CallOpen(m, e) ==> said == tag + e.text)
            && (!InWords(look, m, e) && !CallOpen(m, e) ==> Shortened(e.text, said[|tag|..]))
            && (InWords(look, m, e) ==> Some(said[|tag|..]) == look.dateTime(e.text, m[e.toolIdx].collapsed))
    ensures forall k :: 0 <= k < |RenderEntry(look, m, i, o).cells| ==>
              RenderEntry(look, m, i, o).cells[k].color == if m[i].success then 0x1EA032 else 0xC81E1E
  {
    var e := m[i];
    var tag := if e.success then "[OK] " else "[ERR] ";
    ResultParts(look, m, i, o);
    assert (Break(i) + tag + ResultText(look, m, e))[|Break(i) + tag|..] == ResultText(look, m, e);
    ShortenExact(e.text);
  }

  lemma {:induction false} ResultParts(look: Look, m: seq<Entry>, i: int, o: Options)
    requires 0 <= i < |m| && m[i].kind == ToolResult
    ensures Says(look, m, i, o)
            == Break(i) + (if m[i].success then "[OK] " else "[ERR] ") + ResultText(look, m, m[i])
  {
    hide Str, EntryHead, EntryControl, ResultText;
    SaysParts(look, m, i, o);
    HeadSays(m[i], i);
    ControlSays(m[i], i);
    SaysStr((if m[i].success then "[OK] " else "[ERR] ") + ResultText(look, m, m[i]), EntryColor(m[i]), PLAIN);
    assert Break(i) + "" + "" == Break(i);
  }

  // ---- Where the controls stand ----

  lemma {:induction false} MarkOf(look: Look, m: seq<Entry>, i: int, o: Options, k: nat)
    requires 0 <= i < |m| && k < |RenderEntry(look, m, i, o).marks|
    ensures var head, control := EntryHead(m[i], i), EntryControl(m[i], i);
            var mark := RenderEntry(look, m, i, o).marks[k];
            && (mark.Header? ==> head.marks != [] && mark == head.marks[0])
            && (mark.Copy? ==> control.marks != [] && mark == Shift(control.marks[0], |head.cells|))
  {
    hide EntryBody, EntryHead;
    var head, control, body := EntryHead(m[i], i), EntryControl(m[i], i), EntryBody(look, m, i, o);
    EntryBodyOk(look, m, i, o);
    HeadMarks(m[i], i);
    var mark := RenderEntry(look, m, i, o).marks[k];
    if k < |head.marks| {
      assert mark == Append(head, control).marks[k] == head.marks[k];
    } else if k < |head.marks| + |control.marks| {
      assert mark == Append(head, control).marks[k] == Shift(control.marks[k - |head.marks|], |head.cells|);
    } else {
      assert mark == Shift(body.marks[k - |head.marks| - |control.marks|], |Append(head, control).cells|);
    }
  }

  lemma {:induction false} Between(a: string, b: string, c: string)
    ensures (a + b + c)[|a|..|a| + |b|] == b
  {
  }

  /** A block's header line can be clicked from its first to its last
      character; no other entry has such a line. */
  lemma {:induction false} HeaderStands(look: Look, m: seq<Entry>, i: int, o: Options, mark: Mark)
    requires 0 <= i < |m| && mark in RenderEntry(look, m, i, o).marks && mark.Header?
    ensures Collapsible(m[i]) && mark.start == |Break(i)| < mark.end <= |Says(look, m, i, o)|
    ensures Says(look, m, i, o)[mark.start..mark.end] == Title(m[i]) + Arrow(m[i].collapsed)
  {
    hide EntryBody, EntryHead, EntryControl, Says, RenderEntry, Title, Arrow, Break, Chars;
    var k :| 0 <= k < |RenderEntry(look, m, i, o).marks| && RenderEntry(look, m, i, o).marks[k] == mark;
    MarkOf(look, m, i, o, k);
    HeadMarks(m[i], i);
    HeaderSays(look, m, i, o);
  }

  /** "[Copy]" of a prompt, a reply or reasoning can be clicked, and nothing of
      any other entry. */
  lemma {:induction false} CopyStands(look: Look, m: seq<Entry>, i: int, o: Options, mark: Mark)
    requires 0 <= i < |m| && mark in RenderEntry(look, m, i, o).marks && mark.Copy?
    ensures m[i].kind == UserText || m[i].kind == AssistantText || m[i].kind == Reasoning
    ensures 0 <= mark.start < mark.end <= |Says(look, m, i, o)| && Says(look, m, i, o)[mark.start..mark.end] == "[Copy]"
  {
    hide EntryBody, EntryHead, EntryControl, Says, RenderEntry, Title, Arrow, Break, Chars;
    var k :| 0 <= k < |RenderEntry(look, m, i, o).marks| && RenderEntry(look, m, i, o).marks[k] == mark;
    ControlMarks(m[i], i);
    MarkOf(look, m, i, o, k);
    CopySays(look, m, i, o);
  }

  lemma {:induction false} HeaderSays(look: Look, m: seq<Entry>, i: int, o: Options)
    requires 0 <= i < |m| && Collapsible(m[i])
    ensures var said, n := Says(look, m, i, o), |EntryHead(m[i], i).cells|;
            |Break(i)| < n <= |said| && said[|Break(i)|..n] == Title(m[i]) + Arrow(m[i].collapsed)
  {
    hide EntryBody, EntryHead, EntryControl, Says, Title, Break;
    var e := m[i];
    SaysParts(look, m, i, o);
    HeadSays(e, i);
    var rest := Chars(EntryControl(e, i).cells) + Chars(EntryBody(look, m, i, o).cells);
    var line := Title(e) + Arrow(e.collapsed);
    Between(Break(i), line, rest);
    assert Says(look, m, i, o) == Break(i) + line + rest;
    assert |EntryHead(e, i).cells| == |Break(i)| + |line|;
  }

  lemma {:induction false} CopySays(look: Look, m: seq<Entry>, i: int, o: Options)
    requires 0 <= i < |m| && (m[i].kind == UserText || m[i].kind == AssistantText || m[i].kind == Reasoning)
    ensures var said, n := Says(look, m, i, o), |EntryHead(m[i], i).cells|;
            n + 8 <= |said| && said[n + 2..n + 8] == "[Copy]"
  {
    hide EntryBody, EntryHead, EntryControl, Says;
    var e := m[i];
    SaysParts(look, m, i, o);
    ControlSays(e, i);
    var head, body := Chars(EntryHead(e, i).cells), Chars(EntryBody(look, m, i, o).cells);
    Between(head + "  ", "[Copy]", "    " + body);
    assert "  [Copy]    " == "  " + "[Copy]" + "    ";
    assert Says(look, m, i, o) == head + "  " + "[Copy]" + ("    " + body);
  }

  lemma {:induction false} ControlMarks(e: Entry, i: int)
    ensures EntryControl(e, i).marks
            == if e.kind == UserText || e.kind == AssistantText || e.kind == Reasoning then [Copy(2, 8, 9, i)] else []
  {
  }

  lemma {:induction false} HeadMarks(e: Entry, i: int)
    ensures EntryHead(e, i).marks
            == if Collapsible(e) then [Header(|Break(i)|, |EntryHead(e, i).cells|, i)] else []
  {
  }

  /** And they are there. */
  lemma {:induction false} ControlsThere(look: Look, m: seq<Entry>, i: int, o: Options)
    requires 0 <= i < |m|
    ensures Collapsible(m[i]) ==> exists mark :: mark in RenderEntry(look, m, i, o).marks && mark.Header?
    ensures m[i].kind == UserText || m[i].kind == AssistantText || m[i].kind == Reasoning ==>
              exists mark :: mark in RenderEntry(look, m, i, o).marks && mark.Copy?
  {
    hide EntryHead, EntryBody;
    HeadMarks(m[i], i);
    var n := |EntryHead(m[i], i).marks|;
    if Collapsible(m[i]) {
      assert RenderEntry(look, m, i, o).marks[0] in RenderEntry(look, m, i, o).marks;
    }
    if m[i].kind == UserText || m[i].kind == AssistantText || m[i].kind == Reasoning {
      assert RenderEntry(look, m, i, o).marks[n] in RenderEntry(look, m, i, o).marks;
    }
  }

  /** A link of the rendered markdown as the view registers it. */
  predicate LinkAt(mark: Mark, l: Link, at: int, i: int) {
    mark == LinkTo(at + l.start, at + l.end, i, l.target, l.tentative)
  }

  predicate ShowsMarkdown(e: Entry) {
    e.kind == AssistantText || (e.kind == CompactionSummary && !e.collapsed && e.text != "")
  }

  /** The links of a reply or an open summary are those of its markdown, each
      over its own characters and with its own target. */
  lemma {:induction false} LinksStand(look: Look, m: seq<Entry>, i: int, o: Options, k: nat)
    requires 0 <= i < |m| && ShowsMarkdown(m[i]) && k < |Render(look.syn, m[i].text, o).links|
    ensures var marks, links := RenderEntry(look, m, i, o).marks, Render(look.syn, m[i].text, o).links;
            && |marks| == 1 + |links| && !marks[0].LinkTo?
            && LinkAt(marks[1 + k], links[k], |Says(look, m, i, o)| - |MarkdownSays(look, m[i].text, o)|, i)
  {
    hide EntryHead, EntryBody, EntryControl, Render, RenderEntry, Says, MarkdownSays, Append, Break;
    LinksBody(look, m, i, o);
    LeadMarks(m[i], i);
    ShownLengths(look, m, i, o);
    RenderedMarks(look, m, i, o);
    var lead, body := Append(EntryHead(m[i], i), EntryControl(m[i], i)), EntryBody(look, m, i, o);
    assert RenderEntry(look, m, i, o).marks[1 + k] == Shift(body.marks[k], |lead.cells|);
  }

  /** No other entry has any. */
  lemma {:induction false} NoLinks(look: Look, m: seq<Entry>, i: int, o: Options)
    requires 0 <= i < |m| && !ShowsMarkdown(m[i])
    ensures forall k :: 0 <= k < |RenderEntry(look, m, i, o).marks| ==> !RenderEntry(look, m, i, o).marks[k].LinkTo?
  {
    hide EntryHead, EntryBody, EntryControl, Render, RenderEntry, Append;
    LinksBody(look, m, i, o);
    LeadMarks(m[i], i);
    RenderedMarks(look, m, i, o);
  }

  lemma {:induction false} RenderedMarks(look: Look, m: seq<Entry>, i: int, o: Options)
    requires 0 <= i < |m|
    ensures var lead := Append(EntryHead(m[i], i), EntryControl(m[i], i));
            && RenderEntry(look, m, i, o).marks == lead.marks + ShiftAll(EntryBody(look, m, i, o).marks, |lead.cells|)
            && |lead.cells| == |EntryHead(m[i], i).cells| + |EntryControl(m[i], i).cells|
  {
    hide EntryHead, EntryBody, EntryControl;
  }

  lemma {:induction false} LeadMarks(e: Entry, i: int)
    ensures var marks := Append(EntryHead(e, i), EntryControl(e, i)).marks;
            && (forall k :: 0 <= k < |marks| ==> !marks[k].LinkTo?)
            && (e.kind == AssistantText || e.kind == CompactionSummary ==> |marks| == 1)
  {
    hide EntryHead, EntryControl, Break;
    HeadMarks(e, i);
    ControlMarks(e, i);
  }

  lemma {:induction false} ShownLengths(look: Look, m: seq<Entry>, i: int, o: Options)
    requires 0 <= i < |m|
    ensures |Says(look, m, i, o)|
            == |EntryHead(m[i], i).cells| + |EntryControl(m[i], i).cells| + |EntryBody(look, m, i, o).cells|
    ensures |MarkdownSays(look, m[i].text, o)| == |Render(look.syn, m[i].text, o).cells|
  {
    hide EntryHead, EntryBody, EntryControl, Render;
  }

  lemma {:induction false} LinksBody(look: Look, m: seq<Entry>, i: int, o: Options)
    requires 0 <= i < |m|
    ensures var body := EntryBody(look, m, i, o);
            var md := Render(look.syn, m[i].text, o);
            if m[i].kind == AssistantText || (m[i].kind == CompactionSummary && !m[i].collapsed && m[i].text != "")
            then |body.cells| == 1 + |md.cells| && |body.marks| == |md.links|
                 && forall k :: 0 <= k < |md.links| ==> LinkAt(body.marks[k], md.links[k], 1, i)
            else body.marks == []
  {
    hide Render;
  }

  /** A click is a hit exactly when it lands in one of the ranges; for headers
      also on the line break right behind one. */
  lemma {:induction false} HitExact(ms: seq<Mark>, text: seq<ViewCell>, offset: int)
    ensures var hit := FirstHit(CoversOffset(offset), ms);
            && (hit.Some? ==> hit.value in ms && hit.value.start <= offset < hit.value.end)
            && (hit.None? ==> forall k :: 0 <= k < |ms| ==> !(ms[k].start <= offset < ms[k].end))
    ensures var hit, broken := FirstHit(CoversHeader(text, offset), ms), 0 <= offset < |text| && text[offset].ch == '\n';
            && (hit.Some? ==> hit.value in ms && hit.value.start <= offset
                              && (if broken then offset <= hit.value.end else offset < hit.value.end))
            && (hit.None? ==> forall k :: 0 <= k < |ms| ==>
                  !(ms[k].start <= offset && (if broken then offset <= ms[k].end else offset < ms[k].end)))
  {
  }

  // ---- The tick ----

  lemma {:induction false} SlotAt(look: Look, m: seq<Entry>, i: int, o: Options)
    requires 0 <= i < |m| && (m[i].kind == UserText || m[i].kind == AssistantText || m[i].kind == Reasoning)
    ensures SlotOf(RenderEntry(look, m, i, o).marks) == Some(|EntryHead(m[i], i).cells| + 9)
  {
    hide EntryHead, EntryBody;
    HeadMarks(m[i], i);
    var r := RenderEntry(look, m, i, o);
    var n := |EntryHead(m[i], i).marks|;
    assert r.marks[n] == Copy(|EntryHead(m[i], i).cells| + 2, |EntryHead(m[i], i).cells| + 8, |EntryHead(m[i], i).cells| + 9, i);
    if n > 0 {
      assert r.marks[0].Header? && r.marks[1..][0].Copy?;
    }
  }

  /** With its tick an entry says the same, but for the check mark behind the
      word "[Copy]". */
  lemma {:induction false} TickSays(look: Look, m: seq<Entry>, i: int, o: Options)
    requires 0 <= i < |m| && (m[i].kind == UserText || m[i].kind == AssistantText || m[i].kind == Reasoning)
    ensures exists head, tail ::
              && Says(look, m, i, o) == head + "  [Copy]    " + tail
              && Chars(Lit(RenderEntry(look, m, i, o)).cells) == head + "  [Copy] \U{e2}\U{9c}\U{93}" + tail
  {
    hide EntryBody, EntryHead, EntryControl, RenderEntry, SlotOf;
    SaysParts(look, m, i, o);
    ControlSays(m[i], i);
    SlotAt(look, m, i, o);
    var r := RenderEntry(look, m, i, o);
    var head, tail := Chars(EntryHead(m[i], i).cells), Chars(EntryBody(look, m, i, o).cells);
    var said := Says(look, m, i, o);
    assert said == head + "  [Copy]    " + tail;
    var f := |head| + 9;
    var lit := Lit(r).cells;
    assert lit == r.cells[..f] + CHECK_SLOT + r.cells[f + 3..];
    CheckSays();
    SaysJoin(r.cells[..f], CHECK_SLOT);
    SaysJoin(r.cells[..f] + CHECK_SLOT, r.cells[f + 3..]);
    assert Chars(r.cells[..f]) == said[..f] && Chars(r.cells[f + 3..]) == said[f + 3..];
    Slotted(head, tail, said, f);
  }

  lemma {:induction false} CheckSays()
    ensures |CHECK_SLOT| == 3 && Chars(CHECK_SLOT) == "\U{e2}\U{9c}\U{93}"
  {
  }

  lemma {:induction false} Slotted(head: string, tail: string, said: string, f: nat)
    requires said == head + "  [Copy]    " + tail && f == |head| + 9
    ensures said[..f] + "\U{e2}\U{9c}\U{93}" + said[f + 3..] == head + "  [Copy] \U{e2}\U{9c}\U{93}" + tail
  {
    assert "  [Copy]    "[..9] == "  [Copy] ";
    assert said[..f] == head + "  [Copy] ";
    assert said[f + 3..] == tail;
  }

  // ---- The whole view ----

  function AllSay(look: Look, m: seq<Entry>, n: nat, o: Options): string
    requires n <= |m|
  {
    if n == 0 then "" else AllSay(look, m, n - 1, o) + Says(look, m, n - 1, o)
  }

  /** The view says what its entries say, one after the other. */
  lemma {:induction false} ViewSays(look: Look, m: seq<Entry>, o: Options)
    ensures Chars(RenderAll(look, m, o).cells) == AllSay(look, m, |m|, o)
  {
    assert Parts(look, m, o)[..|m|] == Parts(look, m, o);
    FirstSay(look, m, |m|, o);
  }

  lemma {:induction false} FirstSay(look: Look, m: seq<Entry>, n: nat, o: Options)
    requires n <= |m|
    ensures Chars(Concat(Parts(look, m, o)[..n]).cells) == AllSay(look, m, n, o)
    decreases n
  {
    hide RenderEntry;
    var ps := Parts(look, m, o);
    if n > 0 {
      FirstSay(look, m, n - 1, o);
      assert ps[..n][..n - 1] == ps[..n - 1];
      SaysJoin(Concat(ps[..n - 1]).cells, ps[n - 1].cells);
    }
  }
}
