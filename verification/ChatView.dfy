/** The incremental transcript view: every live operation edits the text view
    in place, and leaves it showing what a rebuild from the entries would. */
module ChatViews {
  import opened Wrappers
  import opened StyledText
  import opened Markdown
  import opened Transcript
  import opened ViewState
  import opened ChatModel

  class ChatView {
    const look: Look

    // the text view
    var text: seq<ViewCell>

    var model: seq<Entry>
    var entryStarts: seq<int>
    var headerRanges: seq<Mark>
    var copyRanges: seq<Mark>
    var linkRanges: seq<Mark>
    var streaming: bool
    var reasoningStreaming: bool
    var deferRebuild: bool
    var thinkingDisplay: Thinking
    var pendingTools: seq<int>
    var feedbackIdx: int
    var feedbackGeneration: int
    var mdOpts: Options
    var mdStream: MdStream

    // what the text view shows, entry by entry
    ghost var shown: seq<Rendered>

    ghost function Abs(): Model
      reads this
    {
      Model(model, streaming, reasoningStreaming, pendingTools, thinkingDisplay, mdOpts)
    }

    /** Text, range lists and entry starts belong to the parts shown. */
    ghost predicate ViewInv()
      reads this
    {
      && feedbackIdx >= -1
      && Shows(text, headerRanges, copyRanges, linkRanges, shown, feedbackIdx)
      && (!deferRebuild ==>
            && feedbackIdx < |shown| <= |entryStarts|
            && forall i :: 0 <= i < |shown| ==> entryStarts[i] == StartOf(shown, i))
    }

    ghost predicate StreamOk()
      reads this
    {
      streaming && LastIs(model, AssistantText) ==> mdStream == FreshStream(look, Abs())
    }

    ghost predicate Valid()
      reads this
    {
      && ViewInv() && ModelOk(Abs()) && |entryStarts| == |model|
      && (!deferRebuild ==> shown == Parts(look, model, mdOpts) && StreamOk())
    }

    /** A tick ends in a new generation only, and none comes up elsewhere. */
    twostate predicate TickLasts()
      reads this
    {
      && feedbackGeneration >= old(feedbackGeneration)
      && (feedbackIdx == old(feedbackIdx) || (feedbackIdx == -1 && feedbackGeneration > old(feedbackGeneration)))
    }

    constructor (look: Look, opts: Options, display: Thinking)
      ensures Valid() && !deferRebuild
      ensures Abs() == Model([], false, false, [], display, opts) && text == [] && feedbackIdx == -1
    {
      hide Concat, PartOk, FreshStream, StartOf, Shows, ModelOk;
      this.look := look;
      text, model, entryStarts := [], [], [];
      headerRanges, copyRanges, linkRanges := [], [], [];
      streaming, reasoningStreaming, deferRebuild := false, false, false;
      thinkingDisplay, pendingTools := display, [];
      feedbackIdx, feedbackGeneration := -1, 0;
      mdOpts, mdStream := opts, NO_STREAM;
      shown := [];
      new;
      ShowsNothing();
      ClearedOk(Abs());
    }

    // ---- Text view primitives ----

    method InsertText(offset: int, cells: seq<ViewCell>)
      requires 0 <= offset <= |text|
      modifies `text
      ensures text == old(text)[..offset] + cells + old(text)[offset..]
    {
      text := text[..offset] + cells + text[offset..];
    }

    method DeleteText(start: int, end: int)
      requires 0 <= start <= end <= |text|
      modifies `text
      ensures text == old(text)[..start] + old(text)[end..]
    {
      text := text[..start] + text[end..];
    }

    /** Text is replaced by inserting before deleting: the content never
        transiently shrinks. */
    method InsertThenDelete(start: int, end: int, cells: seq<ViewCell>)
      requires 0 <= start <= end <= |text|
      modifies `text
      ensures text == old(text)[..start] + cells + old(text)[end..]
    {
      InsertText(start, cells);
      if end > start {
        DeleteText(start + |cells|, start + |cells| + (end - start));
      }
      ReplacedText(old(text), start, end, cells, text);
    }

    /** A rendered piece's click ranges are registered. */
    method Register(offset: int, buf: Rendered)
      modifies `headerRanges, `copyRanges, `linkRanges
      ensures var add := ShiftAll(buf.marks, offset);
              && headerRanges == old(headerRanges) + Headers(add)
              && copyRanges == old(copyRanges) + Copies(add)
              && linkRanges == old(linkRanges) + Links(add)
    {
      var add := ShiftAll(buf.marks, offset);
      headerRanges := headerRanges + Headers(add);
      copyRanges := copyRanges + Copies(add);
      linkRanges := linkRanges + Links(add);
    }

    /** _InsertRendered: the text goes in, its click ranges are registered. */
    method InsertRendered(offset: int, buf: Rendered)
      requires 0 <= offset <= |text| && (buf.cells == [] ==> buf.marks == [])
      modifies `text, `headerRanges, `copyRanges, `linkRanges
      ensures text == old(text)[..offset] + buf.cells + old(text)[offset..]
      ensures var add := ShiftAll(buf.marks, offset);
              && headerRanges == old(headerRanges) + Headers(add)
              && copyRanges == old(copyRanges) + Copies(add)
              && linkRanges == old(linkRanges) + Links(add)
    {
      if |buf.cells| == 0 {
        assert ShiftAll(buf.marks, offset) == [];
        return;
      }
      InsertText(offset, buf.cells);
      Register(offset, buf);
    }

    // ---- Copy feedback ----

    method SetCopyFeedback(modelIdx: int, visible: bool)
      requires modelIdx >= 0
      requires Shows(text, headerRanges, copyRanges, linkRanges, shown, if visible then -1 else modelIdx)
      modifies `text
      ensures Shows(text, headerRanges, copyRanges, linkRanges, shown, if visible then modelIdx else -1)
    {
      hide Concat, PartOk, Shows;
      var i := 0;
      while i < |copyRanges|
        invariant 0 <= i <= |copyRanges| && text == old(text)
        invariant forall k :: 0 <= k < i ==> copyRanges[k].modelIdx != modelIdx
      {
        if copyRanges[i].modelIdx == modelIdx {
          var m := copyRanges[i];
          CopyInView(text, headerRanges, copyRanges, linkRanges, shown, if visible then -1 else modelIdx, m);
          ShowsToggle(text, headerRanges, copyRanges, linkRanges, shown,
                      if visible then -1 else modelIdx, modelIdx, m);
          var start := m.feedbackStart;
          var buf := if visible then CHECK_SLOT else BLANK_SLOT;
          InsertText(start, buf);
          DeleteText(start + |buf|, start + |buf| + 3);
          SwapSlot(old(text), start, buf, text);
          return;
        }
        i := i + 1;
      }
      ShowsNoSlot(text, headerRanges, copyRanges, linkRanges, shown, modelIdx);
    }

    method ClearCopyFeedback()
      requires feedbackIdx >= -1
      requires Shows(text, headerRanges, copyRanges, linkRanges, shown, feedbackIdx)
      modifies `text, `feedbackIdx, `feedbackGeneration
      ensures feedbackIdx == -1 && feedbackGeneration == old(feedbackGeneration) + 1
      ensures Shows(text, headerRanges, copyRanges, linkRanges, shown, -1)
      ensures old(feedbackIdx) == -1 ==> text == old(text)
    {
      feedbackGeneration := feedbackGeneration + 1;
      if feedbackIdx >= 0 {
        SetCopyFeedback(feedbackIdx, false);
      }
      feedbackIdx := -1;
    }

    // ---- Entries in the view ----

    method PushEntry(entry: Entry) returns (idx: int)
      modifies `model, `entryStarts
      ensures model == old(model) + [entry] && idx == |model| - 1
      ensures entryStarts == old(entryStarts) + [if deferRebuild then 0 else |text|]
    {
      model := model + [entry];
      entryStarts := entryStarts + [if deferRebuild then 0 else |text|];
      idx := |model| - 1;
    }

    /** _AppendEntry: the entry just pushed is rendered at the end. */
    method AppendEntry(idx: int)
      requires ViewInv() && 0 <= idx == |model| - 1
      requires !deferRebuild ==> |shown| == idx && |entryStarts| == idx + 1 && entryStarts[idx] == |text|
      modifies `text, `headerRanges, `copyRanges, `linkRanges, `shown
      ensures ViewInv()
      ensures shown == if deferRebuild then old(shown) else old(shown) + [RenderEntry(look, model, idx, mdOpts)]
    {
      hide Shows, Concat, PartOk, RenderEntry, ShiftAll, Headers, Copies, Links;
      if deferRebuild {
        return;
      }
      var buf := RenderEntry(look, model, idx, mdOpts);
      EntryOk(look, model, idx, mdOpts);
      ShowsPush(text, headerRanges, copyRanges, linkRanges, shown, feedbackIdx, buf);
      ShownLength(text, headerRanges, copyRanges, linkRanges, shown, feedbackIdx);
      StartPush(shown, buf);
      PartNonEmpty(buf, idx);
      ghost var t0 := text;
      InsertRendered(|text|, buf);
      assert text == t0 + buf.cells;
      shown := shown + [buf];
    }

    /** _ReplaceEntry: one entry re-rendered in place. */
    method ReplaceEntry(i: int)
      requires ViewInv()
      requires !deferRebuild ==> |shown| == |model| == |entryStarts|
      modifies `text, `headerRanges, `copyRanges, `linkRanges, `entryStarts, `feedbackIdx, `feedbackGeneration,
               `mdStream, `shown
      ensures ViewInv() && |entryStarts| == |old(entryStarts)|
      ensures shown == if deferRebuild || !(0 <= i < |model|) then old(shown)
                       else old(shown)[i := RenderEntry(look, model, i, mdOpts)]
      ensures mdStream == if !deferRebuild && 0 <= i < |model| && i == old(mdStream).idx
                          then FreshStream(look, Abs()) else old(mdStream)
      ensures feedbackGeneration >= old(feedbackGeneration)
      ensures feedbackIdx == old(feedbackIdx) || (feedbackIdx == -1 && feedbackGeneration > old(feedbackGeneration))
    {
      hide Shows, Concat, PartOk, RenderEntry, ShiftAll, Headers, Copies, Links, FilterMap, FreshStream, StartOf;
      if deferRebuild || i < 0 || i >= |model| {
        return;
      }
      if feedbackIdx == i {
        ClearCopyFeedback();
      }
      var buf := RenderEntry(look, model, i, mdOpts);
      Splice(i, buf);
      if i == mdStream.idx {
        ResyncStream();
      }
    }

    /** The text, ranges and starts of entry `i` give way to a new rendering. */
    method Splice(i: nat, buf: Rendered)
      requires ViewInv() && !deferRebuild && feedbackIdx != i && i < |shown| == |model| == |entryStarts|
      requires buf == RenderEntry(look, model, i, mdOpts)
      modifies `text, `headerRanges, `copyRanges, `linkRanges, `entryStarts, `shown
      ensures ViewInv() && |entryStarts| == |old(entryStarts)| && shown == old(shown)[i := buf]
    {
      hide Shows, Concat, PartOk, RenderEntry, ShiftAll, Headers, Copies, Links, FilterMap, StartOf, Relocate;
      EntryOk(look, model, i, mdOpts);
      PartNonEmpty(buf, i);
      ShownLength(text, headerRanges, copyRanges, linkRanges, shown, feedbackIdx);
      StartStep(shown, i);
      StartBound(shown, i);
      ShowsReplace(text, headerRanges, copyRanges, linkRanges, shown, feedbackIdx, i, buf);
      var start := entryStarts[i];
      var end := if i + 1 < |model| then entryStarts[i + 1] else |text|;
      assert end == start + |shown[i].cells|;
      var delta := |buf.cells| - (end - start);
      ghost var starts0 := entryStarts;
      headerRanges := DropAndShift(headerRanges, i, end, delta);
      copyRanges := DropAndShift(copyRanges, i, end, delta);
      linkRanges := DropAndShift(linkRanges, i, end, delta);
      entryStarts := ShiftStarts(entryStarts, i + 1, delta);
      StartsAfter(starts0, entryStarts, shown, i, buf);
      SwapRendered(start, end, buf);
      shown := shown[i := buf];
    }

    /** Insert the new rendering before removing the old one. */
    method SwapRendered(start: int, end: int, buf: Rendered)
      requires 0 <= start <= end <= |text| && buf.cells != []
      modifies `text, `headerRanges, `copyRanges, `linkRanges
      ensures text == old(text)[..start] + buf.cells + old(text)[end..]
      ensures var add := ShiftAll(buf.marks, start);
              && headerRanges == old(headerRanges) + Headers(add)
              && copyRanges == old(copyRanges) + Copies(add)
              && linkRanges == old(linkRanges) + Links(add)
    {
      InsertThenDelete(start, end, buf.cells);
      Register(start, buf);
    }

    /** The three loops that drop an entry's ranges and shift those after it. */
    method DropAndShift(ranges: seq<Mark>, i: int, end: int, delta: int) returns (out: seq<Mark>)
      ensures out == FilterMap(Relocate(i, end, delta), ranges)
    {
      out := [];
      var k := 0;
      while k < |ranges|
        invariant 0 <= k <= |ranges| && out == FilterMap(Relocate(i, end, delta), ranges[..k])
      {
        assert ranges[..k + 1][..k] == ranges[..k];
        var m := ranges[k];
        if m.modelIdx != i {
          out := out + [if m.start >= end then Shift(m, delta) else m];
        }
        k := k + 1;
      }
      assert ranges[..k] == ranges;
    }

    method ShiftStarts(starts: seq<int>, from: int, delta: int) returns (out: seq<int>)
      requires 0 <= from
      ensures |out| == |starts|
      ensures forall j :: 0 <= j < |starts| ==> out[j] == if j < from then starts[j] else starts[j] + delta
    {
      out := starts;
      var j := from;
      while j < |starts|
        invariant from <= j && |out| == |starts|
        invariant forall k :: 0 <= k < |starts| ==> out[k] == if from <= k < j then starts[k] + delta else starts[k]
      {
        out := out[j := out[j] + delta];
        j := j + 1;
      }
    }

    /** _Rebuild: the simple form, one SetText for the whole transcript. */
    method Rebuild()
      requires feedbackIdx >= -1 && Shows(text, headerRanges, copyRanges, linkRanges, shown, feedbackIdx)
      requires |entryStarts| == |model| && !deferRebuild
      modifies `text, `headerRanges, `copyRanges, `linkRanges, `entryStarts, `feedbackIdx, `feedbackGeneration,
               `mdStream, `shown
      ensures ViewInv() && |entryStarts| == |model|
      ensures feedbackIdx == -1 && feedbackGeneration > old(feedbackGeneration)
      ensures shown == Parts(look, model, mdOpts) && mdStream == FreshStream(look, Abs())
      ensures var all := RenderAll(look, model, mdOpts);
              && text == all.cells && headerRanges == Headers(all.marks)
              && copyRanges == Copies(all.marks) && linkRanges == Links(all.marks)
    {
      hide Shows, Concat, PartOk, RenderEntry, ShiftAll, Headers, Copies, Links, FreshStream, Append, StartOf, Parts;
      ClearCopyFeedback();
      RenderRows();
      AllPartsOk(look, model, mdOpts);
      ShowsRebuilt(shown);
      assert Shows(text, headerRanges, copyRanges, linkRanges, shown, -1);
      ResyncStream();
    }

    method RenderRows()
      requires |entryStarts| == |model|
      modifies `text, `headerRanges, `copyRanges, `linkRanges, `entryStarts, `shown
      ensures shown == Parts(look, model, mdOpts) && |entryStarts| == |model|
      ensures forall k :: 0 <= k < |model| ==> entryStarts[k] == StartOf(shown, k)
      ensures var all := Concat(shown);
              && text == all.cells && headerRanges == Headers(all.marks)
              && copyRanges == Copies(all.marks) && linkRanges == Links(all.marks)
    {
      hide Concat, RenderEntry, ShiftAll, Headers, Copies, Links, FilterMap, Append, StartOf, Parts;
      ghost var parts := Parts(look, model, mdOpts);
      var buf := EMPTY;
      var i := 0;
      ConcatNone();
      while i < |model|
        invariant 0 <= i <= |model| && |entryStarts| == |model|
        invariant buf == Concat(parts[..i])
        invariant forall k :: 0 <= k < i ==> entryStarts[k] == StartOf(parts, k)
      {
        entryStarts := entryStarts[i := |buf.cells|];
        StartIs(parts, i);
        assert parts[..i + 1] == parts[..i] + [parts[i]];
        ConcatPush(parts[..i], parts[i]);
        buf := Append(buf, RenderEntry(look, model, i, mdOpts));
        i := i + 1;
      }
      assert parts[..i] == parts;
      text := buf.cells;
      headerRanges := Headers(buf.marks);
      copyRanges := Copies(buf.marks);
      linkRanges := Links(buf.marks);
      shown := parts;
    }

    // ---- Streaming ----

    /** _ResyncStream: the cache of a from-scratch rendering of the last reply. */
    method ResyncStream()
      modifies `mdStream
      ensures mdStream == FreshStream(look, Abs())
    {
      hide RenderFromSpec;
      mdStream := NO_STREAM;
      if !streaming || |model| == 0 || model[|model| - 1].kind != AssistantText {
        return;
      }
      var inc := RenderFrom(look.syn, model[|model| - 1].text, 0, START, mdOpts);
      mdStream := MdStream(|model| - 1, inc.frozenEnd, inc.state, inc.tail);
    }

    /** _StreamMarkdown: only the open tail of the reply is rendered again, and
        only the bytes that differ are touched. `t0` is the text before. */
    method StreamMarkdown(ghost t0: string, ghost delta: string)
      requires ViewInv() && |entryStarts| == |model| && streaming && LastIs(model, AssistantText)
      requires model[|model| - 1].text == t0 + delta
      requires var m0 := SetLast(model, model[|model| - 1].(text := t0));
               !deferRebuild ==> shown == Parts(look, m0, mdOpts) && mdStream == FreshStream(look, Abs().(entries := m0))
      modifies `text, `headerRanges, `copyRanges, `linkRanges, `shown, `mdStream
      ensures ViewInv()
      ensures if deferRebuild then shown == old(shown) && mdStream == old(mdStream)
              else shown == Parts(look, model, mdOpts) && mdStream == FreshStream(look, Abs())
    {
      hide Shows, Concat, PartOk, RenderEntry, RenderFromSpec, FreshStream, MarkdownPart, AssistantLead, StartOf,
           Join, BodyOk, LeadOk2, PartsOk;
      if deferRebuild {
        return;
      }
      var last := |model| - 1;
      ghost var m0 := SetLast(model, model[last].(text := t0));
      assert model == SetLast(m0, m0[last].(text := t0 + delta));
      StreamCache(look, Abs().(entries := m0), delta);
      if mdStream.idx == last && model[last].kind == AssistantText {
        var inc := RenderFrom(look.syn, model[last].text, mdStream.frozenSrc, mdStream.state, mdOpts);
        var next := Join(inc.frozen, inc.tail);
        ReplaceTail(m0, t0, delta, next);
        mdStream := MdStream(last, inc.frozenEnd, inc.state, inc.tail);
      }
    }

    /** The view's last bytes, the old open tail, become `next`. */
    method ReplaceTail(ghost m0: seq<Entry>, ghost t0: string, ghost delta: string, next: Styled)
      requires ViewInv() && !deferRebuild && |entryStarts| == |model| && streaming && LastIs(m0, AssistantText)
      requires m0[|m0| - 1].text == t0 && model == SetLast(m0, m0[|m0| - 1].(text := t0 + delta))
      requires shown == Parts(look, m0, mdOpts) && mdStream == FreshStream(look, Abs().(entries := m0))
      requires mdStream.frozenSrc <= |t0|
      requires var inc := RenderFromSpec(look.syn, t0 + delta, mdStream.frozenSrc, mdStream.state, mdOpts);
               next == Join(inc.frozen, inc.tail)
      modifies `text, `linkRanges, `shown
      ensures ViewInv() && shown == Parts(look, model, mdOpts)
    {
      hide Shows, Concat, PartOk, RenderEntry, RenderFromSpec, Render, AssistantLead, StartOf,
           Join, BodyOk, LeadOk2, PartsOk, FilterMap, DropTailLinks;
      var last := |model| - 1;
      var tail := mdStream.tail;
      ghost var before := Parts(look, m0, mdOpts)[..last];
      ghost var lead, x, y := TailSplit(m0, t0, delta, next);
      ShowsTail(text, headerRanges, copyRanges, linkRanges, before, lead, x, y, feedbackIdx);
      EditTail(last, tail, next);
      shown := before + [Append(lead, y)];
      LastTextOnly(look, m0, t0 + delta, mdOpts);
      assert shown == Parts(look, model, mdOpts);
      StartsSameBefore(before, Append(lead, x), Append(lead, y));
    }

    /** The edit itself: past the common prefix the new tail is inserted, then
        the rest of the old one deleted, and the tail's links re-registered. */
    method EditTail(last: int, tail: Styled, next: Styled)
      requires |tail.cells| <= |text|
      requires text[|text| - |tail.cells|..] == PaintCells(look, tail.cells, COLOR_ASSISTANT)
      modifies `text, `linkRanges
      ensures var at := old(|text|) - |tail.cells|;
              && text == old(text)[..at] + PaintCells(look, next.cells, COLOR_ASSISTANT)
              && linkRanges == FilterMap(DropTailLinks(last, at), old(linkRanges)) + ShiftAll(LinkMarks(next.links, last), at)
    {
      hide FilterMap, DropTailLinks, PaintCells, ShiftAll, LinkMarks;
      var keep := CommonPrefix(tail, next);
      var tailStart := |text| - |tail.cells|;
      InsertThenDelete(tailStart + keep, |text|, PaintCells(look, SliceCells(next, keep), COLOR_ASSISTANT));
      TailSpliced(look, old(text), tail.cells, next.cells, keep, text);
      linkRanges := RegisterTail(linkRanges, last, tailStart, next.links);
    }

    ghost method TailSplit(m0: seq<Entry>, t0: string, delta: string, next: Styled)
      returns (lead: Rendered, x: Rendered, y: Rendered)
      requires streaming && LastIs(m0, AssistantText) && m0[|m0| - 1].text == t0
      requires mdStream == FreshStream(look, Abs().(entries := m0)) && mdStream.frozenSrc <= |t0|
      requires var inc := RenderFromSpec(look.syn, t0 + delta, mdStream.frozenSrc, mdStream.state, mdOpts);
               next == Join(inc.frozen, inc.tail)
      ensures var n := |m0| - 1;
              && x == MarkdownPart(look, mdStream.tail, COLOR_ASSISTANT, n)
              && y == MarkdownPart(look, next, COLOR_ASSISTANT, n)
              && Parts(look, m0, mdOpts) == Parts(look, m0, mdOpts)[..n] + [Append(lead, x)]
              && RenderEntry(look, SetLast(m0, m0[n].(text := t0 + delta)), n, mdOpts) == Append(lead, y)
              && LeadOk2(lead, n) && BodyOk(x, n) && BodyOk(y, n) && PartOk(Append(lead, y), n)
    {
      hide PartOk, RenderEntry, RenderFromSpec, Render, AssistantLead, Join, BodyOk, LeadOk2, MarkdownPart, Append;
      var n := |m0| - 1;
      StreamParts(look, m0, delta, mdOpts);
      var prev := RenderFromSpec(look.syn, t0, 0, START, mdOpts);
      lead := AssistantLead(look, m0[n], n, prev.frozen);
      x := MarkdownPart(look, mdStream.tail, COLOR_ASSISTANT, n);
      y := MarkdownPart(look, next, COLOR_ASSISTANT, n);
      var ps := Parts(look, m0, mdOpts);
      assert ps == ps[..n] + [ps[n]];
    }

    /** The links of the old tail go, those of the new one are registered. */
    method RegisterTail(ranges: seq<Mark>, last: int, tailStart: int, links: seq<Link>) returns (out: seq<Mark>)
      ensures out == FilterMap(DropTailLinks(last, tailStart), ranges) + ShiftAll(LinkMarks(links, last), tailStart)
    {
      out := [];
      var k := 0;
      while k < |ranges|
        invariant 0 <= k <= |ranges| && out == FilterMap(DropTailLinks(last, tailStart), ranges[..k])
      {
        assert ranges[..k + 1][..k] == ranges[..k];
        if !(ranges[k].LinkTo? && ranges[k].modelIdx == last && ranges[k].start >= tailStart) {
          out := out + [ranges[k]];
        }
        k := k + 1;
      }
      assert ranges[..k] == ranges;
      ghost var kept := out;
      k := 0;
      while k < |links|
        invariant 0 <= k <= |links| && out == kept + ShiftAll(LinkMarks(links[..k], last), tailStart)
      {
        var l := links[k];
        out := out + [LinkTo(tailStart + l.start, tailStart + l.end, last, l.target, l.tentative)];
        k := k + 1;
      }
      assert links[..k] == links;
    }

    // ---- Operations ----

    ghost predicate Core()
      reads this
    {
      && ViewInv() && ModelOk(Abs()) && |entryStarts| == |model|
      && (!deferRebuild ==> shown == Parts(look, model, mdOpts))
    }

    /** A new entry, pushed and shown. */
    method AppendNew(entry: Entry)
      requires Core() && ModelOk(Push(Abs(), entry))
      modifies `model, `entryStarts, `text, `headerRanges, `copyRanges, `linkRanges, `shown
      ensures Core() && Abs() == Push(old(Abs()), entry)
    {
      hide Shows, RenderEntry, StartOf, ModelOk;
      if !deferRebuild {
        ShownLength(text, headerRanges, copyRanges, linkRanges, shown, feedbackIdx);
        PartsPush(look, Abs(), entry);
      }
      var idx := PushEntry(entry);
      AppendEntry(idx);
    }

    method EndReasoningStreaming()
      requires Valid()
      modifies this
      ensures TickLasts()
      ensures Valid() && deferRebuild == old(deferRebuild)
      ensures Abs() == EndReasoning(old(Abs()))
    {
      hide Shows, RenderEntry, StartOf, ModelOk, FreshStream, Parts;
      EndReasoningOk(Abs());
      ToolsEarlier(Abs());
      ReasoningLast(Abs());
      if !reasoningStreaming {
        return;
      }
      reasoningStreaming := false;
      if |model| > 0 && model[|model| - 1].kind == Reasoning && thinkingDisplay == ExpandedWhileStreaming {
        var n := |model| - 1;
        UpdateOne(look, model, n, model[n].(collapsed := true), mdOpts);
        model := model[n := model[n].(collapsed := true)];
        ReplaceEntry(n);
      }
    }

    method AppendUserText(text: string, names: seq<string>)
      requires Valid()
      modifies this
      ensures TickLasts()
      ensures Valid() && deferRebuild == old(deferRebuild)
      ensures Abs() == UserTextAdded(old(Abs()), text, JoinNames(names))
    {
      hide Shows, RenderEntry, StartOf, ModelOk, FreshStream, Parts;
      SettleOk(Abs());
      EndReasoningStreaming();
      streaming := false;
      var joined := "";
      var i := 0;
      while i < |names|
        invariant 0 <= i <= |names| && joined == JoinNames(names[..i])
        invariant Core() && Abs() == Settle(old(Abs())) && deferRebuild == old(deferRebuild) && TickLasts()
      {
        assert names[..i + 1][..i] == names[..i];
        if i > 0 {
          joined := joined + ", ";
        }
        joined := joined + names[i];
        i := i + 1;
      }
      assert names[..i] == names;
      PushOk(Abs(), NewEntry(UserText, text, joined));
      AppendNew(NewEntry(UserText, text, joined));
    }

    /** The part of AppendTextDelta before the delta: the reply it goes to. */
    method OpenReply()
      requires Valid()
      modifies this
      ensures TickLasts()
      ensures Valid() && deferRebuild == old(deferRebuild)
      ensures Abs() == Opened(old(Abs()))
    {
      hide Shows, RenderEntry, StartOf, ModelOk, FreshStream, Parts;
      EndReasoningOk(Abs());
      EndReasoningStreaming();
      if !streaming || |model| == 0 || model[|model| - 1].kind != AssistantText {
        NewReply();
      }
    }

    method NewReply()
      requires Valid() && !reasoningStreaming
      modifies this
      ensures Valid() && deferRebuild == old(deferRebuild) && TickLasts()
      ensures Abs() == Push(old(Abs()), NewEntry(AssistantText, "", "")).(streaming := true)
    {
      hide Shows, RenderEntry, StartOf, ModelOk, FreshStream, Parts;
      PushOk(Abs(), NewEntry(AssistantText, "", ""));
      AppendNew(NewEntry(AssistantText, "", ""));
      FlagsOk(Abs(), Abs().(streaming := true));
      streaming := true;
      mdStream := NO_STREAM.(idx := |model| - 1);
      FreshEmpty(look, Abs());
    }

    method AppendTextDelta(delta: string)
      requires Valid()
      modifies this
      ensures TickLasts()
      ensures Valid() && deferRebuild == old(deferRebuild)
      ensures Abs() == TextDelta(old(Abs()), delta)
    {
      hide Shows, RenderEntry, StartOf, ModelOk, FreshStream, Parts, Opened;
      TextDeltaOk(Abs(), delta);
      OpenReply();
      var n := |model| - 1;
      ghost var t0 := model[n].text;
      ghost var m0 := model;
      model := model[n := model[n].(text := model[n].text + delta)];
      GrownBack(m0, delta);
      StreamMarkdown(t0, delta);
    }

    method EndStreaming()
      requires Valid()
      modifies this
      ensures TickLasts()
      ensures Valid() && deferRebuild == old(deferRebuild)
      ensures Abs() == Settle(old(Abs()))
    {
      hide Shows, RenderEntry, StartOf, ModelOk, FreshStream, Parts;
      SettleOk(Abs());
      EndReasoningStreaming();
      streaming := false;
      mdStream := NO_STREAM;
    }

    method SetThinkingDisplay(d: Thinking)
      requires Valid()
      modifies `thinkingDisplay
      ensures Valid() && Abs() == old(Abs()).(thinking := d)
    {
      hide Shows, RenderEntry, StartOf, ModelOk, Parts, RenderFromSpec;
      FlagsOk(Abs(), Abs().(thinking := d));
      thinkingDisplay := d;
    }

    method AppendReasoningDelta(delta: string)
      requires Valid()
      modifies this
      ensures TickLasts()
      ensures Valid() && deferRebuild == old(deferRebuild)
      ensures Abs() == ReasoningDelta(old(Abs()), delta)
    {
      hide Shows, RenderEntry, StartOf, ModelOk, FreshStream, Parts;
      ReasoningDeltaOk(Abs(), delta);
      ReasoningLast(Abs());
      if !reasoningStreaming {
        var collapsed := thinkingDisplay == AlwaysCollapsed;
        PushOk(Abs(), NewEntry(Reasoning, "", "").(collapsed := collapsed));
        AppendNew(NewEntry(Reasoning, "", "").(collapsed := collapsed));
        reasoningStreaming := true;
      }
      GrowReasoning(delta);
    }

    /** The delta lands at the very end of the text. */
    method GrowReasoning(delta: string)
      requires ViewInv() && |entryStarts| == |model| && LastIs(model, Reasoning)
      requires !deferRebuild ==> shown == Parts(look, model, mdOpts)
      modifies `model, `text, `headerRanges, `copyRanges, `linkRanges, `shown
      ensures ViewInv() && |entryStarts| == |model| && (!deferRebuild ==> shown == Parts(look, model, mdOpts))
      ensures var n := |old(model)| - 1;
              model == SetLast(old(model), old(model)[n].(text := old(model)[n].text + delta))
    {
      hide Shows, RenderEntry, StartOf, ReasoningAdded;
      var n := |model| - 1;
      var e := model[n];
      var buf := ThinkingBuffer(e, delta);
      ghost var m0 := model;
      model := model[n := e.(text := e.text + delta)];
      if !deferRebuild {
        ReasoningGrown(look, m0, delta, mdOpts);
        LastTextOnly(look, m0, e.text + delta, mdOpts);
        ghost var before := shown[..n];
        assert shown == before + [shown[n]];
        ShowsExtend(text, headerRanges, copyRanges, linkRanges, before, shown[n], feedbackIdx, buf);
        StartsSameBefore(before, shown[n], Append(shown[n], buf));
        ghost var grown := Append(shown[n], buf);
        RegisterNothing(|text|);
        ghost var text0 := text;
        InsertRendered(|text|, buf);
        assert text == text0 + buf.cells && headerRanges == old(headerRanges) && copyRanges == old(copyRanges)
               && linkRanges == old(linkRanges);
        shown := before + [grown];
        assert shown == Parts(look, model, mdOpts);
      }
    }

    method ThinkingBuffer(e: Entry, delta: string) returns (buf: Rendered)
      ensures buf == ReasoningAdded(e, delta) && buf.marks == []
    {
      buf := EMPTY;
      if !e.collapsed && delta != "" {
        if e.text == "" {
          buf := Append(buf, Str("\n", COLOR_THINKING_HEADER));
        }
        buf := Append(buf, Str(delta, COLOR_THINKING_BODY));
      }
    }

    method AppendToolCalled(name: string, input: string)
      requires Valid()
      modifies this
      ensures TickLasts()
      ensures Valid() && deferRebuild == old(deferRebuild)
      ensures Abs() == ToolCallAdded(old(Abs()), name, input)
    {
      hide Shows, RenderEntry, StartOf, ModelOk, FreshStream, Parts;
      ToolCallOk(Abs(), name, input);
      SettleOk(Abs());
      EndReasoningStreaming();
      streaming := false;
      PushOk(Abs(), NewEntry(ToolCalled, input, name));
      AppendNew(NewEntry(ToolCalled, input, name));
      pendingTools := pendingTools + [|model| - 1];
    }

    method AppendToolResult(output: string, success: bool, callId: string)
      requires Valid()
      modifies this
      ensures TickLasts()
      ensures Valid() && deferRebuild == old(deferRebuild)
      ensures Abs() == ToolResultAdded(old(Abs()), output, success, callId)
    {
      hide Shows, RenderEntry, StartOf, ModelOk, FreshStream, Parts;
      ToolResultOk(Abs(), output, success, callId);
      SettleOk(Abs());
      EndReasoningStreaming();
      streaming := false;
      var toolIdx := TakePending();
      AppendNew(Entry(ToolResult, output, "", success, false, callId, toolIdx));
    }

    /** The oldest tool call still waiting is collapsed in place. */
    method TakePending() returns (toolIdx: int)
      requires Core() && !streaming
      modifies this
      ensures TickLasts()
      ensures Core() && deferRebuild == old(deferRebuild)
      ensures Abs() == PendingTaken(old(Abs()))
      ensures toolIdx == if old(pendingTools) == [] then -1 else old(pendingTools)[0]
    {
      hide Shows, RenderEntry, StartOf, ModelOk, FreshStream, Parts;
      PendingTakenOk(Abs());
      toolIdx := -1;
      if |pendingTools| > 0 {
        var idx := pendingTools[0];
        toolIdx := idx;
        ghost var m0 := Abs();
        pendingTools := pendingTools[1..];
        if idx >= 0 && idx < |model| && !model[idx].collapsed {
          UpdateOne(look, model, idx, model[idx].(collapsed := true), mdOpts);
          model := model[idx := model[idx].(collapsed := true)];
          ReplaceEntry(idx);
        }
        assert Abs() == PendingTaken(m0) by {
          if 0 <= idx < |m0.entries| && m0.entries[idx].collapsed {
            assert m0.entries[idx := m0.entries[idx].(collapsed := true)] == m0.entries;
          }
        }
      }
    }

    method UpdateToolResult(callId: string, output: string, success: bool) returns (found: bool)
      requires Valid()
      modifies this
      ensures TickLasts()
      ensures Valid() && deferRebuild == old(deferRebuild)
      ensures Abs() == ResultUpdated(old(Abs()), callId, output, success)
      ensures found == (callId != "" && NewestResult(old(model), callId) >= 0)
    {
      hide Valid, Shows, RenderEntry, StartOf, ModelOk, FreshStream, Parts;
      if |callId| == 0 {
        return false;
      }
      var i := |model| - 1;
      while i >= 0
        invariant -1 <= i < |model| && Valid() && Abs() == old(Abs()) && deferRebuild == old(deferRebuild) && TickLasts()
        invariant forall k :: i < k < |model| ==> !(model[k].kind == ToolResult && model[k].callId == callId)
      {
        if model[i].kind == ToolResult && model[i].callId == callId {
          assert NewestResult(model, callId) == i;
          RewriteResult(i, output, success);
          return true;
        }
        i := i - 1;
      }
      found := false;
    }

    method RewriteResult(i: int, output: string, success: bool)
      requires Valid() && 0 <= i < |model| && model[i].kind == ToolResult
      modifies this
      ensures Valid() && deferRebuild == old(deferRebuild) && TickLasts()
      ensures Abs() == old(Abs()).(entries := old(model)[i := old(model)[i].(text := output, success := success)])
    {
      hide Shows, RenderEntry, StartOf, ModelOk, FreshStream, Parts;
      var e := model[i].(text := output, success := success);
      RewriteOk(Abs(), i, e);
      UpdateOne(look, model, i, e, mdOpts);
      FreshOther(look, Abs(), i, e);
      model := model[i := e];
      ReplaceEntry(i);
    }

    method AppendSystem(text: string)
      requires Valid()
      modifies this
      ensures TickLasts()
      ensures Valid() && deferRebuild == old(deferRebuild)
      ensures Abs() == SystemAdded(old(Abs()), text)
    {
      hide Shows, RenderEntry, StartOf, ModelOk, FreshStream, Parts;
      SettleOk(Abs());
      EndReasoningStreaming();
      streaming := false;
      PushOk(Abs(), NewEntry(System, text, ""));
      AppendNew(NewEntry(System, text, ""));
    }

    method AppendCompactionSummary(header: string, summary: string)
      requires Valid()
      modifies this
      ensures TickLasts()
      ensures Valid() && deferRebuild == old(deferRebuild)
      ensures Abs() == SummaryAdded(old(Abs()), header, summary)
    {
      hide Shows, RenderEntry, StartOf, ModelOk, FreshStream, Parts;
      SettleOk(Abs());
      EndReasoningStreaming();
      streaming := false;
      var e := NewEntry(CompactionSummary, summary, header).(collapsed := true);
      PushOk(Abs(), e);
      AppendNew(e);
    }

    method Clear()
      requires Valid()
      modifies this
      ensures TickLasts()
      ensures Valid() && deferRebuild == old(deferRebuild)
      ensures Abs() == Cleared(old(Abs())) && text == [] && feedbackIdx == -1
    {
      hide Shows, StartOf, ModelOk, FreshStream, Parts;
      ClearedOk(Abs());
      ClearCopyFeedback();
      ResetFields();
      ShowsNothing();
      assert Parts(look, [], mdOpts) == [];
    }

    method ResetFields()
      modifies `text, `model, `entryStarts, `headerRanges, `copyRanges, `linkRanges, `streaming,
               `reasoningStreaming, `pendingTools, `mdStream, `shown
      ensures text == [] && model == [] && entryStarts == [] && shown == []
      ensures headerRanges == [] && copyRanges == [] && linkRanges == []
      ensures !streaming && !reasoningStreaming && pendingTools == [] && mdStream == NO_STREAM
    {
      streaming, reasoningStreaming, pendingTools := false, false, [];
      mdStream, model, entryStarts := NO_STREAM, [], [];
      headerRanges, copyRanges, linkRanges := [], [], [];
      text := [];
      shown := [];
    }

    predicate Copyable(e: Entry) {
      e.kind == UserText || e.kind == AssistantText || e.kind == Reasoning
    }

    method CopyEntry(modelIdx: int, copied: bool, timerOk: bool)
      requires Valid()
      modifies this
      ensures Valid() && deferRebuild == old(deferRebuild) && Abs() == old(Abs())
      ensures if copied && 0 <= modelIdx < |model| && Copyable(model[modelIdx])
              then feedbackIdx == (if timerOk then modelIdx else -1) && feedbackGeneration > old(feedbackGeneration)
              else text == old(text) && feedbackIdx == old(feedbackIdx) && feedbackGeneration == old(feedbackGeneration)
    {
      hide RenderEntry, StartOf, ModelOk, FreshStream, Parts, Shows;
      if modelIdx < 0 || modelIdx >= |model| {
        return;
      }
      var kind := model[modelIdx].kind;
      if kind != UserText && kind != AssistantText && kind != Reasoning {
        return;
      }
      if !copied {
        return;
      }
      ClearCopyFeedback();
      feedbackIdx := modelIdx;
      SetCopyFeedback(modelIdx, true);
      ShownCount();
      if !timerOk {
        ClearCopyFeedback();
      }
    }

    lemma {:induction false} ShownCount()
      ensures !deferRebuild && shown == Parts(look, model, mdOpts) ==> |shown| == |model|
    {
    }

    method ResetCopyFeedback(generation: int)
      requires Valid()
      modifies this
      ensures Valid() && deferRebuild == old(deferRebuild) && Abs() == old(Abs())
      ensures if generation == old(feedbackGeneration)
              then feedbackIdx == -1 && feedbackGeneration > old(feedbackGeneration)
              else text == old(text) && feedbackIdx == old(feedbackIdx) && feedbackGeneration == old(feedbackGeneration)
    {
      hide Shows, RenderEntry, StartOf, ModelOk, FreshStream, Parts;
      if generation == feedbackGeneration {
        ClearCopyFeedback();
      }
    }

    /** Entries from `j` on that still show a tool call's former state. */
    ghost predicate FreshBut(j: int, tool: int)
      reads this
    {
      && |shown| == |model|
      && forall k :: 0 <= k < |model| ==>
           shown[k] == RenderEntry(look, model, k, mdOpts)
           || (k >= j && model[k].kind == ToolResult && model[k].toolIdx == tool)
    }

    method ToggleBlock(i: int)
      requires Valid()
      modifies this
      ensures TickLasts()
      ensures Valid() && deferRebuild == old(deferRebuild)
      ensures Abs() == Toggled(old(Abs()), i)
    {
      hide Shows, RenderEntry, StartOf, ModelOk, FreshStream, Parts;
      if i < 0 || i >= |model| {
        return;
      }
      if model[i].kind != ToolCalled && model[i].kind != Reasoning && model[i].kind != CompactionSummary {
        return;
      }
      ToggleEntry(i, model[i].(collapsed := !model[i].collapsed));
      if model[i].kind == ToolCalled {
        RefreshResults(i);
      }
    }

    method ToggleEntry(i: int, e: Entry)
      requires Valid() && 0 <= i < |model| && Collapsible(model[i])
      requires e == model[i].(collapsed := !model[i].collapsed)
      modifies this
      ensures TickLasts()
      ensures ViewInv() && |entryStarts| == |model| && deferRebuild == old(deferRebuild)
      ensures Abs() == old(Abs()).(entries := old(model)[i := e]) && ModelOk(Abs())
      ensures !deferRebuild ==> StreamOk()
      ensures !deferRebuild && e.kind == ToolCalled ==> FreshBut(i + 1, i)
      ensures !deferRebuild && e.kind != ToolCalled ==> shown == Parts(look, model, mdOpts)
    {
      hide Shows, RenderEntry, StartOf, ModelOk, FreshStream, Parts;
      ghost var m0 := Abs();
      RewriteOk(m0, i, e);
      FreshOther(look, m0, i, e);
      ToggleParts(look, m0, i, e);
      model := model[i := e];
      ReplaceEntry(i);
      if !deferRebuild && e.kind != ToolCalled {
        assert shown == Parts(look, model, mdOpts);
      }
    }

    /** The results of a toggled tool call are re-rendered after it. */
    method RefreshResults(tool: int)
      requires ViewInv() && |entryStarts| == |model| && 0 <= tool < |model|
      requires !deferRebuild ==> StreamOk() && FreshBut(tool + 1, tool)
      modifies `text, `headerRanges, `copyRanges, `linkRanges, `entryStarts, `feedbackIdx, `feedbackGeneration,
               `mdStream, `shown
      ensures TickLasts()
      ensures ViewInv() && |entryStarts| == |model|
      ensures !deferRebuild ==> StreamOk() && shown == Parts(look, model, mdOpts)
    {
      hide Shows, RenderEntry, StartOf, FreshStream, Parts;
      var j := tool + 1;
      while j < |model|
        invariant tool < j <= |model| && ViewInv() && |entryStarts| == |model| && TickLasts()
        invariant !deferRebuild ==> StreamOk() && FreshBut(j, tool)
      {
        if model[j].kind == ToolResult && model[j].toolIdx == tool {
          StreamElsewhere(j);
          ReplaceEntry(j);
        }
        j := j + 1;
      }
    }

    lemma {:induction false} StreamElsewhere(j: int)
      requires 0 <= j < |model| && model[j].kind != AssistantText
      ensures streaming && LastIs(model, AssistantText) ==> FreshStream(look, Abs()).idx != j
    {
    }

    method SetMarkdownLayout(cols: int, ascii: bool)
      requires Valid()
      modifies this
      ensures TickLasts()
      ensures Valid() && deferRebuild == old(deferRebuild)
      ensures Abs() == old(Abs()).(opts := Options(cols, ascii))
    {
      hide Shows, RenderEntry, StartOf, ModelOk, FreshStream, Parts;
      if cols == mdOpts.maxCols && ascii == mdOpts.asciiBorders {
        return;
      }
      ghost var o := mdOpts;
      FlagsOk(Abs(), Abs().(opts := Options(cols, ascii)));
      mdOpts := Options(cols, ascii);
      if deferRebuild {
        return;
      }
      Relayout(o);
    }

    /** Entry `k` shows the new layout, or the old one if its turn is to come. */
    ghost predicate LaidOut(i: int, o: Options)
      reads this
    {
      && |shown| == |model|
      && (forall k :: 0 <= k < |model| ==>
            shown[k] == RenderEntry(look, model, k, if k < i then mdOpts else o))
      && (streaming && LastIs(model, AssistantText) ==>
            mdStream == FreshStream(look, if i < |model| then Abs().(opts := o) else Abs()))
    }

    method Relayout(ghost o: Options)
      requires ViewInv() && !deferRebuild && |entryStarts| == |model| && LaidOut(0, o)
      modifies `text, `headerRanges, `copyRanges, `linkRanges, `entryStarts, `feedbackIdx, `feedbackGeneration,
               `mdStream, `shown
      ensures TickLasts()
      ensures ViewInv() && StreamOk() && |entryStarts| == |model| && shown == Parts(look, model, mdOpts)
    {
      hide Shows, RenderEntry, StartOf, FreshStream, Parts, WidthDependent;
      var i := 0;
      StreamLayout(o);
      while i < |model|
        invariant 0 <= i <= |model| && ViewInv() && |entryStarts| == |model| && LaidOut(i, o) && TickLasts()
      {
        LayoutFreeAt(i, o);
        StreamLayout(o);
        if (model[i].kind == AssistantText || (model[i].kind == CompactionSummary && !model[i].collapsed))
           && WidthDependent(look.syn, model[i].text) {
          ReplaceEntry(i);
        }
        i := i + 1;
      }
    }

    lemma {:induction false} LayoutFreeAt(i: int, o: Options)
      requires 0 <= i < |model|
      ensures LayoutSensitive(look, model[i]) || RenderEntry(look, model, i, o) == RenderEntry(look, model, i, mdOpts)
    {
      hide RenderEntry;
      if !LayoutSensitive(look, model[i]) {
        LayoutFree(look, model, i, o, mdOpts);
      }
    }

    lemma {:induction false} StreamLayout(o: Options)
      ensures streaming && LastIs(model, AssistantText) ==>
                && FreshStream(look, Abs().(opts := o)).idx == |model| - 1
                && (WidthDependent(look.syn, model[|model| - 1].text)
                    || FreshStream(look, Abs().(opts := o)) == FreshStream(look, Abs()))
      ensures model == [] ==> !LastIs(model, AssistantText)
    {
      hide RenderFromSpec, WidthDependent;
      if streaming && LastIs(model, AssistantText) && !WidthDependent(look.syn, model[|model| - 1].text) {
        WidthIndependent(look.syn, model[|model| - 1].text, o, mdOpts);
      }
    }

    // ---- Batches ----

    method BeginBatch()
      requires Valid()
      modifies `deferRebuild
      ensures Valid() && deferRebuild && Abs() == old(Abs())
    {
      hide Shows, RenderEntry, StartOf, ModelOk, FreshStream, Parts;
      deferRebuild := true;
    }

    method EndBatch()
      requires Valid()
      modifies this
      ensures TickLasts()
      ensures Valid() && !deferRebuild && Abs() == old(Abs())
      ensures old(deferRebuild) ==>
                var all := RenderAll(look, model, mdOpts);
                && text == all.cells && headerRanges == Headers(all.marks)
                && copyRanges == Copies(all.marks) && linkRanges == Links(all.marks) && feedbackIdx == -1
    {
      hide Shows, RenderEntry, StartOf, ModelOk, FreshStream, Parts, Concat, Headers, Copies, Links;
      if !deferRebuild {
        return;
      }
      deferRebuild := false;
      Rebuild();
    }

    // ---- Clicks ----

    method FindCopyAt(offset: int) returns (idx: int)
      requires Valid() && !deferRebuild
      ensures var hit := FirstHit(CoversOffset(offset), Copies(RenderAll(look, model, mdOpts).marks));
              idx == if hit.Some? then hit.value.modelIdx else -1
    {
      hide Shows, RenderEntry, StartOf, ModelOk, FreshStream, Parts, Concat, Copies, Headers, Links;
      LookupsMatch(text, headerRanges, copyRanges, linkRanges, shown, feedbackIdx, offset);
      var i := 0;
      while i < |copyRanges|
        invariant 0 <= i <= |copyRanges|
        invariant FirstHit(CoversOffset(offset), copyRanges) == FirstHit(CoversOffset(offset), copyRanges[i..])
      {
        if offset >= copyRanges[i].start && offset < copyRanges[i].end {
          return copyRanges[i].modelIdx;
        }
        i := i + 1;
      }
      return -1;
    }

    method FindBlockAt(offset: int) returns (idx: int)
      requires Valid() && !deferRebuild
      ensures var all := RenderAll(look, model, mdOpts);
              var hit := FirstHit(CoversHeader(all.cells, offset), Headers(all.marks));
              idx == if hit.Some? then hit.value.modelIdx else -1
    {
      hide Shows, RenderEntry, StartOf, ModelOk, FreshStream, Parts, Concat, Copies, Headers, Links;
      HeaderHitRebuilt(text, headerRanges, copyRanges, linkRanges, shown, feedbackIdx, offset);
      HeadersFromZero(text, headerRanges, copyRanges, linkRanges, shown, feedbackIdx);
      var i := 0;
      while i < |headerRanges|
        invariant 0 <= i <= |headerRanges|
        invariant FirstHit(CoversHeader(text, offset), headerRanges) == FirstHit(CoversHeader(text, offset), headerRanges[i..])
      {
        var h := headerRanges[i];
        if offset >= h.start && (offset < h.end
                                 || (offset == h.end && offset < |text| && text[offset].ch == '\n')) {
          return h.modelIdx;
        }
        i := i + 1;
      }
      return -1;
    }

    /** The index into the range list; what matters is the range found. */
    method FindLinkAt(offset: int) returns (idx: int)
      requires Valid() && !deferRebuild
      ensures -1 <= idx < |linkRanges|
      ensures (if idx >= 0 then Some(linkRanges[idx]) else None)
              == FirstHit(CoversOffset(offset), Links(RenderAll(look, model, mdOpts).marks))
    {
      hide Shows, RenderEntry, StartOf, ModelOk, FreshStream, Parts, Concat, Copies, Headers, Links;
      LookupsMatch(text, headerRanges, copyRanges, linkRanges, shown, feedbackIdx, offset);
      var i := 0;
      while i < |linkRanges|
        invariant 0 <= i <= |linkRanges|
        invariant FirstHit(CoversOffset(offset), linkRanges) == FirstHit(CoversOffset(offset), linkRanges[i..])
      {
        if offset >= linkRanges[i].start && offset < linkRanges[i].end {
          return i;
        }
        i := i + 1;
      }
      return -1;
    }

    // ---- Runs ----

    /** Where the tick may be after an operation. */
    twostate predicate Ticked(op: Op)
      reads this
    {
      match op
      case OpCopy(i, copied, timerOk) =>
        if copied && 0 <= i < |old(model)| && Copyable(old(model)[i])
        then feedbackIdx == (if timerOk then i else -1) && feedbackGeneration > old(feedbackGeneration)
        else feedbackIdx == old(feedbackIdx) && feedbackGeneration == old(feedbackGeneration)
      case OpResetFeedback(generation) =>
        if generation == old(feedbackGeneration) then feedbackIdx == -1 && feedbackGeneration > old(feedbackGeneration)
        else feedbackIdx == old(feedbackIdx) && feedbackGeneration == old(feedbackGeneration)
      case _ => TickLasts()
    }

    method Perform(op: Op)
      requires Valid()
      modifies this
      ensures Valid() && deferRebuild == old(deferRebuild)
      ensures Abs() == Apply(old(Abs()), op)
      ensures Ticked(op)
    {
      hide Valid, UserTextAdded, TextDelta, ReasoningDelta, EndReasoning, Settle, ToolCallAdded, ToolResultAdded,
           ResultUpdated, SystemAdded, SummaryAdded, Toggled, Cleared;
      match op
      case OpUserText(t, names) => AppendUserText(t, names);
      case OpTextDelta(delta) => AppendTextDelta(delta);
      case OpReasoningDelta(delta) => AppendReasoningDelta(delta);
      case OpEndReasoning => EndReasoningStreaming();
      case OpEndStreaming => EndStreaming();
      case OpToolCalled(name, input) => AppendToolCalled(name, input);
      case OpToolResult(output, success, callId) => AppendToolResult(output, success, callId);
      case OpUpdateResult(callId, output, success) =>
        var found := UpdateToolResult(callId, output, success);
      case OpSystem(t) => AppendSystem(t);
      case OpSummary(header, summary) => AppendCompactionSummary(header, summary);
      case OpToggle(i) => ToggleBlock(i);
      case OpLayout(cols, ascii) => SetMarkdownLayout(cols, ascii);
      case OpThinking(d) => SetThinkingDisplay(d);
      case OpCopy(i, copied, timerOk) => CopyEntry(i, copied, timerOk);
      case OpResetFeedback(generation) => ResetCopyFeedback(generation);
      case OpClear => Clear();
    }

    method PerformAll(ops: seq<Op>)
      requires Valid()
      modifies this
      ensures Valid() && deferRebuild == old(deferRebuild)
      ensures Abs() == ApplyAll(old(Abs()), ops)
      ensures feedbackGeneration >= old(feedbackGeneration)
      ensures feedbackIdx == -1 || feedbackIdx == old(feedbackIdx) || OpCopy(feedbackIdx, true, true) in ops
    {
      hide Valid, Apply;
      var i := 0;
      while i < |ops|
        invariant 0 <= i <= |ops| && Valid() && deferRebuild == old(deferRebuild)
        invariant Abs() == ApplyAll(old(Abs()), ops[..i])
        invariant feedbackGeneration >= old(feedbackGeneration)
        invariant feedbackIdx == -1 || feedbackIdx == old(feedbackIdx) || OpCopy(feedbackIdx, true, true) in ops
      {
        assert ops[..i + 1][..i] == ops[..i];
        Perform(ops[i]);
        i := i + 1;
      }
      assert ops[..i] == ops;
    }

    /** Any operations, live: text, starts and ranges are those of a rebuild,
        the tick of the entry copied last apart. */
    method RunLive(ops: seq<Op>)
      requires Valid() && !deferRebuild
      modifies this
      ensures Valid() && !deferRebuild
      ensures Abs() == ApplyAll(old(Abs()), ops)
      ensures feedbackIdx == -1 || feedbackIdx == old(feedbackIdx) || OpCopy(feedbackIdx, true, true) in ops
      ensures var all := RenderAll(look, model, mdOpts);
              && text == Concat(Displayed(Parts(look, model, mdOpts), feedbackIdx)).cells
              && multiset(headerRanges) == multiset(Headers(all.marks))
              && multiset(copyRanges) == multiset(Copies(all.marks))
              && multiset(linkRanges) == multiset(Links(all.marks))
              && (forall i :: 0 <= i < |model| ==> entryStarts[i] == StartOf(Parts(look, model, mdOpts), i))
              && |entryStarts| == |model|
    {
      hide RenderEntry, StartOf, ModelOk, FreshStream, Parts, Concat, Copies, Headers, Links, PartOk, Displayed;
      PerformAll(ops);
      RangesMatch(text, headerRanges, copyRanges, linkRanges, shown, feedbackIdx);
    }

    /** The tick gone, the live view is the rebuilt one. */
    method DropTick()
      requires Valid() && !deferRebuild
      modifies `text, `feedbackIdx, `feedbackGeneration
      ensures Valid() && feedbackIdx == -1 && text == RenderAll(look, model, mdOpts).cells
    {
      hide RenderEntry, StartOf, ModelOk, FreshStream, Parts, Concat, PartOk, Shows;
      ClearCopyFeedback();
      ShowsPlain(text, headerRanges, copyRanges, linkRanges, shown);
    }

    /** The same operations as a batch end in the same transcript: the same
        entries, and the text and ranges of the rebuild. */
    method RunBatch(ops: seq<Op>)
      requires Valid() && !deferRebuild
      modifies this
      ensures Valid() && !deferRebuild && feedbackIdx == -1
      ensures Abs() == ApplyAll(old(Abs()), ops)
      ensures var all := RenderAll(look, model, mdOpts);
              && text == all.cells
              && headerRanges == Headers(all.marks) && copyRanges == Copies(all.marks) && linkRanges == Links(all.marks)
    {
      hide Valid, Concat, Headers, Copies, Links, Parts;
      BeginBatch();
      PerformAll(ops);
      EndBatch();
    }
  }

  /** Two views of the same transcript, one fed live and one in a batch, end
      with the same entries, flags, text and click ranges. */
  method LiveMatchesBatch(live: ChatView, batch: ChatView, ops: seq<Op>)
    requires live != batch && live.look == batch.look
    requires live.Valid() && batch.Valid() && !live.deferRebuild && !batch.deferRebuild
    requires live.Abs() == batch.Abs()
    modifies live, batch
    ensures live.Valid() && batch.Valid()
    ensures live.Abs() == batch.Abs() == ApplyAll(old(live.Abs()), ops)
    ensures live.text == batch.text
    ensures multiset(live.headerRanges) == multiset(batch.headerRanges)
    ensures multiset(live.copyRanges) == multiset(batch.copyRanges)
    ensures multiset(live.linkRanges) == multiset(batch.linkRanges)
  {
    hide ChatView.Valid, RenderAll, Headers, Copies, Links, Parts, StartOf, Concat, Displayed;
    live.RunLive(ops);
    live.DropTick();
    batch.RunBatch(ops);
  }

  lemma {:induction false} ShowsPlain(text: seq<ViewCell>, hs: seq<Mark>, cs: seq<Mark>, ls: seq<Mark>,
                                      shown: seq<Rendered>)
    requires Shows(text, hs, cs, ls, shown, -1)
    ensures text == Concat(shown).cells
  {
  }

  lemma {:induction false} CopyInView(text: seq<ViewCell>, hs: seq<Mark>, cs: seq<Mark>, ls: seq<Mark>,
                                      shown: seq<Rendered>, fb: int, m: Mark)
    requires Shows(text, hs, cs, ls, shown, fb) && m in cs
    ensures 0 <= m.modelIdx < |shown| && m.Copy?
  {
    hide Concat, PartOk;
    ConcatMarks(shown, 0);
    assert m in hs + cs + ls;
    assert m in multiset(hs + cs + ls);
    assert m in Concat(shown).marks;
  }

  /** Insert then delete three bytes: the slot is overwritten. */
  lemma {:induction false} SwapSlot(before: seq<ViewCell>, start: int, slot: seq<ViewCell>, after: seq<ViewCell>)
    requires 0 <= start && start + 3 <= |before| && |slot| == 3
    requires var mid := before[..start] + slot + before[start..];
             after == mid[..start + 3] + mid[start + 6..]
    ensures after == Overwrite(before, start, slot)
  {
  }

  lemma {:induction false} ShownLength(text: seq<ViewCell>, hs: seq<Mark>, cs: seq<Mark>, ls: seq<Mark>,
                                       shown: seq<Rendered>, fb: int)
    requires Shows(text, hs, cs, ls, shown, fb)
    ensures |text| == |Concat(shown).cells| == StartOf(shown, |shown|)
  {
    hide Concat, PartOk;
    DisplayedKeeps(shown, fb);
    assert shown[..|shown|] == shown;
  }

  lemma {:induction false} StartIs(ps: seq<Rendered>, i: nat)
    requires i <= |ps|
    ensures StartOf(ps, i) == |Concat(ps[..i]).cells|
  {
  }

  lemma {:induction false} StartBound(shown: seq<Rendered>, i: nat)
    requires i < |shown|
    ensures StartOf(shown, i) + |shown[i].cells| <= StartOf(shown, |shown|)
  {
    hide Concat;
    MarksAround(shown, i);
    assert shown[..|shown|] == shown;
  }

  lemma {:induction false} StartsAfter(before: seq<int>, after: seq<int>, shown: seq<Rendered>, i: nat, q: Rendered)
    requires i < |shown| <= |before| == |after|
    requires forall k :: 0 <= k < |shown| ==> before[k] == StartOf(shown, k)
    requires forall k :: 0 <= k < |shown| ==>
               after[k] == if k < i + 1 then before[k] else before[k] + (|q.cells| - |shown[i].cells|)
    ensures forall k :: 0 <= k < |shown| ==> after[k] == StartOf(shown[i := q], k)
  {
    hide StartOf;
    StartReplace(shown, i, q);
  }

  lemma {:induction false} PartNonEmpty(p: Rendered, i: int)
    requires PartOk(p, i)
    ensures p.cells != []
  {
  }

  lemma {:induction false} ConcatNone()
    ensures Concat([]) == EMPTY
  {
  }

  lemma {:induction false} AllPartsOk(look: Look, m: seq<Entry>, o: Options)
    ensures PartsOk(Parts(look, m, o), 0)
  {
    hide RenderEntry, PartOk;
    var ps := Parts(look, m, o);
    forall k | 0 <= k < |ps| ensures PartOk(ps[k], 0 + k) {
      EntryOk(look, m, k, o);
    }
  }

  lemma {:induction false} ReplacedText(before: seq<ViewCell>, start: int, end: int, cells: seq<ViewCell>,
                                        after: seq<ViewCell>)
    requires 0 <= start <= end <= |before|
    requires var mid := before[..start] + cells + before[start..];
             after == mid[..start + |cells|] + mid[start + |cells| + (end - start)..]
    ensures after == before[..start] + cells + before[end..]
  {
  }

  lemma {:induction false} RegisterNothing(at: int)
    ensures Headers(ShiftAll([], at)) == [] && Copies(ShiftAll([], at)) == [] && Links(ShiftAll([], at)) == []
  {
  }

  /** Inserting what differs past the common prefix and deleting the rest of
      the old tail replaces the tail. */
  lemma {:induction false} TailSpliced(look: Look, before: seq<ViewCell>, tail: seq<Cell>, next: seq<Cell>, keep: int,
                                       after: seq<ViewCell>)
    requires 0 <= keep <= |tail| <= |before| && keep <= |next| && tail[..keep] == next[..keep]
    requires before[|before| - |tail|..] == PaintCells(look, tail, COLOR_ASSISTANT)
    requires after == before[..|before| - |tail| + keep] + PaintCells(look, next[keep..], COLOR_ASSISTANT) + before[|before|..]
    ensures after == before[..|before| - |tail|] + PaintCells(look, next, COLOR_ASSISTANT)
  {
  }

  lemma {:induction false} StartsSameBefore(before: seq<Rendered>, p: Rendered, q: Rendered)
    ensures forall k :: 0 <= k <= |before| ==> StartOf(before + [p], k) == StartOf(before + [q], k)
  {
    hide StartOf;
    StartPush(before, p);
    StartPush(before, q);
  }

  lemma {:induction false} GrownBack(m: seq<Entry>, delta: string)
    requires m != []
    ensures var g := Grown(m, delta);
            |g| == |m| && g[|m| - 1].text == m[|m| - 1].text + delta && g[|m| - 1].kind == m[|m| - 1].kind
            && SetLast(g, g[|m| - 1].(text := m[|m| - 1].text)) == m
  {
  }

  lemma {:induction false} HeadersFromZero(text: seq<ViewCell>, hs: seq<Mark>, cs: seq<Mark>, ls: seq<Mark>,
                                           shown: seq<Rendered>, fb: int)
    requires Shows(text, hs, cs, ls, shown, fb)
    ensures forall k :: 0 <= k < |hs| ==> 0 <= hs[k].start < hs[k].end
  {
    hide Concat, PartOk;
    ConcatMarks(shown, 0);
    forall k | 0 <= k < |hs| ensures 0 <= hs[k].start < hs[k].end {
      assert hs[k] in hs + cs + ls;
      assert hs[k] in multiset(hs + cs + ls);
      assert hs[k] in Concat(shown).marks;
    }
  }

  /** Toggling re-renders the block; only results of a toggled tool call may
      show its former state for a moment. */
  lemma {:induction false} ToggleParts(look: Look, m: Model, i: int, e: Entry)
    requires ModelOk(m) && 0 <= i < |m.entries| && e.kind == m.entries[i].kind && e.name == m.entries[i].name
    ensures var m' := m.entries[i := e];
            var ps := Parts(look, m.entries, m.opts)[i := RenderEntry(look, m', i, m.opts)];
            forall k :: 0 <= k < |m'| ==>
              || ps[k] == RenderEntry(look, m', k, m.opts)
              || (k > i && e.kind == ToolCalled && m'[k].kind == ToolResult && m'[k].toolIdx == i)
  {
    hide RenderEntry;
    var m' := m.entries[i := e];
    forall k | 0 <= k < |m'| && k != i && !(m'[k].kind == ToolResult && m'[k].toolIdx == i)
      ensures RenderEntry(look, m', k, m.opts) == RenderEntry(look, m.entries, k, m.opts)
    {
      RenderSame(look, m', m.entries, k, m.opts);
    }
  }
}
