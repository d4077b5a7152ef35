# HaiCode: verified models

HaiCode is a coding assistant for Haiku: an engine runs the agentic loop and
stores each session's transcript, a window shows it while it streams. This
project models the parts whose correctness spans many operations, in Dafny, and
proves what they promise. `dafny verify dfyconfig.toml` checks everything.

## What is modelled

**The transcript view** (`Styled`, `Markdown`, `Transcript`, `ViewState`,
`ChatModel`, `ChatView`, `TranscriptText`, `ChatRuns`, `MarkdownShows`). The
view keeps entries, a text of styled bytes, the offset each entry starts at,
three lists of click ranges and a cache for the reply that streams. `Rebuild` is
the simple form: render everything, set the text once. Every live operation
edits the text in place and shifts offsets; the class `ChatView` does the same,
loop by loop, and `Valid()` ties its fields to the canonical renderings of its
entries. What those renderings say is stated character for character, open and
closed, and what a transcript holds after a run of operations against the run
itself. The cache relies on a law of the markdown renderer; the renderer's fold
over lines is modelled and the law is proved, for every inline renderer and
table layout, as is what the fold shows of blank lines, fences and tables.

**Joining a live stream** (`StreamEngine`, `StreamWindow`, `StreamReplay`,
`StreamOrder`, `StreamLook`, `StreamStale`, `StreamTold`, `StreamJoin`,
`StreamInputs`). Engine threads, the relay's active-session filter and the
window's message queue are a transition system whose steps interleave in any
order, with session switches, retries and loads at any time. The window's
filters are a class; its handlers equal the functions the system steps by.
`Since` keeps the books of what the window was told after a load and changes
nothing; the engine as told differs from the engine where the relay cut a string
at a NUL byte. Some of what one might expect holds only under a condition, and
the condition is exact each time:

- A load is exact unless certain messages were still on their way: a start of
  an already stored step moves the window to that step with its floors at zero,
  and the step's queued bytes then show a second time. `LoadExact` gives the
  condition on the queued messages, `LateLoad` a run that violates it,
  `LostByte` a byte that never shows.
- Calls show when they are announced. A reply cut off at its length limit is
  stored with calls the turn never announces, so live they do not show
  (`CutOffDiffers`), while a call left running shows both ways (`LeftRunning`);
  a call dropped as malformed shows a result no row keeps (`DroppedDiffers`); a
  reply with two calls shows them in another order than a reload
  (`TwoCallsDiffer`).
- An answer rewrites a stored row and a shown result, each found in its own way:
  without an id only the row is (`NamelessAnswer`), an id JSON escapes may miss
  the row (`MissedAnswer`), and a result that arrives late may take the answer
  (`StrayAnswer`).
- The relay forwards C strings, so a prompt or an output shows up to its first
  NUL byte and a reload shows it whole (`PromptCutShort`, `OutputCutShort`).

`JoinedOrderExact` says when the entries agree, `JoinedLookExact` when prompts,
replies, reasoning, calls and results do to the last byte.

**History, compaction and retry** (`History`, `HistoryCost`, `Store`,
`StoreRuns`, `StoreTables`, `Replay`).
The backward split over exchanges, the store's statements over rows and
checkpoints, and whole runs of turns, compactions that take a while, crashes,
start-up sweeps and retries that use sequence numbers again. `saw` records, per
checkpoint, the rows there were when it was taken. Assumption: writes to one
session come one after the other, with a clock that never runs back; finding a
boundary and inserting its pending row is one such write.

**Codecs** (`UrlCodec`, `Base64`, `CodecTables`). Percent-encoding and query strings (sections
2.1 and 2.3 of RFC 3986), base64 in wrapping 32-bit arithmetic and its URL-safe
form (sections 4 and 5 of RFC 4648).

**The session list** (`Sidebar`) and **layered configuration** (`Config`,
`ConfigFile`, `ConfigRead`, `ConfigMerge`). The in-place re-sort against a rebuild; reading a file into a
layer, project settings over the user's own with presence-driven merging, and
the fingerprint of accepted content, SHA-256 and the dump of a JSON document
taken as injective. That a project's gated settings never count before they are
accepted is not true of every file. A permission rule with a member that is no
string throws, which ends the reading and keeps what was stored before without
recording that it is there (`RuleSlips`, `AgentSlips`), even behind agents the
user did accept (`RuleRidesAlong`); and an explicit empty build command counts
as no gated key and is still merged. `AuthorityOfFile` is the exact condition,
for every file, accepted or not, and every user configuration.

## Model

| member | source | states |
|---|---|---|
| ChatViews.LiveMatchesBatch | gui/src/ChatView.cpp:909-922 | fed the same operations, one view live and one between BeginBatch and EndBatch, the live one with its tick cleared: same entries, flags, text, and click ranges as multisets, a reply still streaming included |
| ChatViews.ChatView.RunLive | gui/src/ChatView.cpp:499-1116 | after every run of operations outside a batch the text is the concatenation of all canonical renderings but for the 3-byte slot of one tick, each entry start is the length of all entries before it, and the three range lists are a rebuild's as multisets; the tick, if any, was there before or is that of an entry the run copied |
| ChatViews.ChatView.RunBatch | gui/src/ChatView.cpp:606-627 | a batch ends in exactly the rebuild: text, range lists in order, no tick |
| ChatViews.ChatView.DropTick | gui/src/ChatView.cpp:1010-1018 | clearing the tick makes the text byte for byte the rebuild |
| ChatViews.ChatView.Perform | gui/src/ChatView.cpp:629-1116 | each operation does to the entries and flags what its value-level description says, keeps the whole view invariant, and moves the tick as CopyEntry and ResetCopyFeedback say; any other only takes it away, in a new generation |
| ChatViews.ChatView.Rebuild | gui/src/ChatView.cpp:606-627 | renders everything once, sets text, starts and ranges from it and re-creates the streaming cache |
| ChatViews.ChatView.AppendEntry | gui/src/ChatView.cpp:507-516 | the pushed entry appears at the end; all other parts stay |
| ChatViews.ChatView.ReplaceEntry | gui/src/ChatView.cpp:518-573 | one entry gives way to its new rendering, later offsets shifted, its ranges replaced; a streamed entry's cache is rebuilt; nothing else changes |
| ChatViews.ChatView.SwapRendered | gui/src/ChatView.cpp:518-552 | insert-then-delete replaces exactly the old bytes of the entry |
| ChatViews.ChatView.DropAndShift | gui/src/ChatView.cpp:529-552 | ranges of the entry go, later ones move by the length difference, earlier ones stay |
| ChatViews.ChatView.ShiftStarts | gui/src/ChatView.cpp:553-560 | later entry starts move by the length difference |
| ChatViews.ChatView.StreamMarkdown | gui/src/ChatView.cpp:663-706 | a delta's in-place edit of the open tail, past the common prefix only, leaves the rendering of the whole longer reply and a cache equal to a fresh one |
| ChatViews.ChatView.ReplaceTail | gui/src/ChatView.cpp:674-706 | the old tail is the text's last bytes and gives way to the new frozen output plus tail |
| ChatViews.ChatView.RegisterTail | gui/src/ChatView.cpp:690-701 | link ranges of the old tail go and those of the new tail come, frozen ones stay |
| ChatViews.ChatView.ResyncStream | gui/src/ChatView.cpp:708-723 | the cache equals one built from the reply's text alone |
| ChatViews.ChatView.SetCopyFeedback | gui/src/ChatView.cpp:972-1008 | only the three-byte slot of that entry changes, to the tick or back |
| ChatViews.ChatView.ClearCopyFeedback | gui/src/ChatView.cpp:1010-1018 | the tick goes, a new feedback generation begins; without a tick the text is untouched |
| ChatViews.ChatView.ResetCopyFeedback | gui/src/ChatView.cpp:1020-1025 | a timer of the current generation takes the tick away and begins another; one of an older generation changes neither text nor tick nor generation |
| ChatViews.ChatView.CopyEntry | gui/src/ChatView.cpp:1027-1052 | with the clipboard filled from a prompt, a reply or reasoning the tick is that entry's alone, in a new generation, or nobody's if the timer failed; in every other case neither text nor tick nor generation changes; entries and flags stay |
| ChatViews.ChatView.AppendUserText | gui/src/ChatView.cpp:629-642 | ends a reasoning block, then adds the prompt with its attachment names |
| ChatViews.ChatView.AppendTextDelta | gui/src/ChatView.cpp:644-661 | opens a reply when none streams, then extends its text |
| ChatViews.ChatView.AppendReasoningDelta | gui/src/ChatView.cpp:779-799 | opens a thinking block when none streams, then extends it; the buffer edit equals its new rendering |
| ChatViews.ChatView.EndReasoningStreaming | gui/src/ChatView.cpp:801-813 | the block ends and, in the display that expands only while streaming, collapses |
| ChatViews.ChatView.EndStreaming | gui/src/ChatView.cpp:725-731 | reply and reasoning end; text stays |
| ChatViews.ChatView.AppendToolCalled | gui/src/ChatView.cpp:815-826 | the call shows and waits for its result |
| ChatViews.ChatView.AppendToolResult | gui/src/ChatView.cpp:828-850 | the oldest waiting call stops waiting and collapses; the result is added and names it |
| ChatViews.ChatView.UpdateToolResult | gui/src/ChatView.cpp:852-868 | the newest result with that id is rewritten, if there is one and the id is not empty |
| ChatViews.ChatView.AppendSystem | gui/src/ChatView.cpp:870-878 | a notice shows; the streaming reply ends |
| ChatViews.ChatView.AppendCompactionSummary | gui/src/ChatView.cpp:880-889 | a collapsed summary shows |
| ChatViews.ChatView.Clear | gui/src/ChatView.cpp:891-907 | all entries, ranges and caches go; display settings stay |
| ChatViews.ChatView.ToggleBlock | gui/src/ChatView.cpp:1095-1116 | the entry, and with a call its result, is shown or hidden; entries of other kinds stay |
| ChatViews.ChatView.SetMarkdownLayout | gui/src/ChatView.cpp:759-777 | after a layout change every entry is rendered for the new one although only width-dependent replies were re-rendered |
| ChatViews.ChatView.BeginBatch | gui/src/ChatView.cpp:908-913 | entries stay as they are while the view is deferred |
| ChatViews.ChatView.EndBatch | gui/src/ChatView.cpp:915-921 | text and ranges are the rebuild of the entries; without a batch nothing changes in them |
| ChatViews.ChatView.FindCopyAt | gui/src/ChatView.cpp:962-969 | finds at every offset what the rebuilt view's list gives |
| ChatViews.ChatView.FindBlockAt | gui/src/ChatView.cpp:1055-1067 | finds at every offset, the line break behind a header included, what the rebuilt view gives over the rebuilt text, a tick shown or not |
| ViewState.HeaderHitRebuilt | gui/src/ChatView.cpp:1055-1067 | a tick hides no line break, so header lookups agree over live and rebuilt text |
| ChatViews.ChatView.FindLinkAt | gui/src/ChatView.cpp:930-938 | the link found at every offset is the rebuilt view's |
| ChatViews.TailSpliced | gui/src/ChatView.cpp:676-689 | inserting what differs past the common prefix and deleting the rest of the old tail replaces the tail |
| ViewState.LookupsMatch | gui/src/ChatView.cpp:930-970 | header, copy and link lookups in lists of any order agree with the rebuilt lists at every offset |
| ViewState.RangesMatch | gui/src/ChatView.cpp:468-490 | the three lists are the rebuilt view's as multisets |
| ViewState.OneCovers | gui/src/ChatView.cpp:930-970 | no offset lies in two different ranges |
| ViewState.HeadersApart | gui/src/ChatView.cpp:1055-1067 | headers of different entries never touch, so the line break behind one is not another's |
| ViewState.ShowsReplace | gui/src/ChatView.cpp:518-573 | replacing one entry's bytes and relocating marks gives the view of the parts with that one replaced |
| ViewState.ShowsTail | gui/src/ChatView.cpp:663-706 | replacing an open tail gives the view with that entry's new part |
| ViewState.ShowsToggle | gui/src/ChatView.cpp:972-1008 | overwriting one slot is exactly the tick of that entry |
| ViewState.ShowsExtend | gui/src/ChatView.cpp:779-799 | bytes added at the very end extend the last part only |
| ViewState.HitOrderFree | gui/src/ChatView.cpp:930-970 | with disjoint ranges the first hit does not depend on the list's order |
| Transcript.EntryOk | gui/src/ChatView.cpp:378-466 | every canonical rendering keeps its ranges inside itself, ascending and disjoint, header first, one 3-byte copy slot at most |
| Transcript.ConcatMarks | gui/src/ChatView.cpp:468-490 | so do all parts together |
| Transcript.RelocateParts | gui/src/ChatView.cpp:529-560 | dropping one entry's marks and shifting later ones gives the marks of all other parts around the new one |
| Transcript.StartReplace | gui/src/ChatView.cpp:553-560 | only starts behind a replaced entry move, by the length difference |
| ChatModel.ApplyOk | gui/src/ChatView.cpp:629-1116 | every operation keeps: while reasoning streams its block is the last entry, each waiting entry is a call and waits once, each result names an earlier call that no longer waits, or none |
| ChatModel.StreamParts | gui/src/ChatView.cpp:663-706 | a delta changes the last part only, and splits it where the frozen output ends |
| ChatModel.StreamCache | gui/src/ChatView.cpp:663-706 | the cache carried on from a delta equals a fresh one for the longer reply |
| ChatModel.ReasoningGrown | gui/src/ChatView.cpp:779-799 | a thinking delta's rendering is the old one plus the inserted bytes |
| ChatModel.LayoutFree | gui/src/ChatView.cpp:759-777 | an entry outside the width-dependent replies renders the same for every layout |
| ChatModel.RenderSame | gui/src/ChatView.cpp:378-466 | an entry's rendering depends on no other entry but the call it answers |
| TranscriptText.PlainSays | gui/src/ChatView.cpp:378-466 | a prompt shows its label, its copy control, its whole text and its attachments' names; a reply its label, its control and its rendered markdown; a notice its whole text: character for character |
| TranscriptText.ClosedSays | gui/src/ChatView.cpp:378-466 | a closed call, reasoning block or summary shows its title and the arrow that points right, nothing else but reasoning's copy control |
| TranscriptText.ClosedHides | gui/src/ChatView.cpp:378-466 | and renders the same whatever its text is |
| TranscriptText.OpenSays | gui/src/ChatView.cpp:378-466 | an open one shows the arrow that points down and ends with its text: a call's input unless empty or {}, reasoning as it is, a summary as markdown |
| TranscriptText.ToggleShows | gui/src/ChatView.cpp:1095-1116 | toggling a closed call or reasoning block brings its text at the end, toggling twice changes nothing |
| TranscriptText.ResultSays | gui/src/ChatView.cpp:378-466 | a result shows [OK] exactly on success, else [ERR], all in that one colour; then its whole output if its call is open, and under a closed or unknown call a shortened one, or what the date_time formatter makes of it |
| TranscriptText.ShortenExact | gui/src/ChatView.cpp:415-430 | one line of at most 100 bytes stays whole; of any other text the longest prefix of its first line within 100 bytes that cuts no character, and dots |
| TranscriptText.HeaderStands | gui/src/ChatView.cpp:378-466 | a header range covers exactly a block's title and arrow, and no other entry has one |
| TranscriptText.CopyStands | gui/src/ChatView.cpp:378-466 | a copy range covers exactly the word [Copy] of a prompt, a reply or reasoning, and no other entry has one |
| TranscriptText.ControlsThere | gui/src/ChatView.cpp:378-466 | and each of those entries has its range |
| TranscriptText.LinksStand | gui/src/ChatView.cpp:378-466 | the links of a reply or an open summary are those of its markdown, each over its own characters with its own target |
| TranscriptText.NoLinks | gui/src/ChatView.cpp:378-466 | no other entry has any |
| TranscriptText.HitExact | gui/src/ChatView.cpp:930-969 | a click is a hit exactly when it lands in a range, or for a header on the line break right behind it |
| TranscriptText.TickSays | gui/src/ChatView.cpp:972-1008 | with its tick an entry shows the same characters but for the check mark behind [Copy] |
| TranscriptText.ViewSays | gui/src/ChatView.cpp:606-627 | the rebuilt view says what its entries say, one after the other |
| ChatRuns.RunSays | gui/src/ChatView.cpp:629-907 | after every run without clearing or answers: prompts, calls, results, notices and summaries are exactly those of the run, as given and in order, and the replies' texts and the reasoning's are all deltas of the run joined |
| ChatRuns.ResultsInOrder | gui/src/ChatView.cpp:815-850 | after every run: results name the calls in the order the calls came, each at most once, and the calls no result names are those that wait |
| ChatRuns.RunAsSet | gui/src/ChatView.cpp:779-889 | untouched by the user a call is open exactly while it waits, a summary closed, reasoning open as its setting says while it streams and after |
| ChatRuns.UpdateExact | gui/src/ChatView.cpp:852-868 | an answer rewrites the newest result of a call with that id, no other entry, and none without an id |
| ChatRuns.NamesJoined | gui/src/ChatView.cpp:629-642 | attachment names are joined by a comma and a blank |
| Markdown.ResumeStream | lib/include/haicode/markdown.h:93-115 | for every text and delta: resuming at the frozen end gives the frozen output, end, state and tail of rendering the longer text from scratch, and frozen plus tail is that rendering |
| Markdown.FrozenPlusTail | lib/src/util/markdown.cpp:1219-1245 | from any line start and state, frozen then tail is the fold of the whole rest |
| Markdown.UnitStable | lib/src/util/markdown.cpp:1080-1215 | a complete unit stays what it is under every continuation of the text |
| Markdown.FreezeExtend | lib/src/util/markdown.cpp:1219-1245 | freezing a longer text freezes first what was frozen, then goes on from that state |
| Markdown.ResumeLines | lib/src/util/markdown.cpp:172-188 | where the frozen part ends any longer text has a line start, with the lines not yet consumed |
| Markdown.LinesExtend | lib/src/util/markdown.cpp:172-188 | appending text keeps all finished lines |
| Markdown.SplitLines | lib/src/util/markdown.cpp:172-188 | the loop yields the lines of the text, each with its end and whether its break has come |
| Markdown.RenderFrom | lib/src/util/markdown.cpp:1219-1245 | the incremental loop computes frozen output, frozen end, state and tail of the fold |
| Markdown.RenderingStep | lib/src/util/markdown.cpp:1219-1245 | one more unit keeps what the loop has computed so far |
| Markdown.WidthIndependent | lib/src/util/markdown.cpp:1385-1407 | a text that is not width dependent renders the same, frozen part included, at every width and border style |
| MarkdownShows.LinesLaid | lib/src/util/markdown.cpp:774-785 | whatever the lines, each blank or shown by itself: the rendering is the lines in order, one empty line where one or more blank ones were between them, none at either end |
| MarkdownShows.FencedVerbatim | lib/src/util/markdown.cpp:1085-1133 | from a fence to the line that closes it or the end every line is shown as it is, blank ones, headings, rules and pipes too, less at most the fence's own indentation; the fences do not show |
| MarkdownShows.FenceLabel | lib/src/util/markdown.cpp:1108-1129 | a fence with a language shows its first word, dimmed |
| MarkdownShows.TableShows | lib/src/util/markdown.cpp:1143-1163 | a header, its delimiter row and all rows behind it are one table, laid out row by row, an empty line before where asked |
| MarkdownShows.RuleShows | lib/src/util/markdown.cpp:1137-1142 | a rule is as wide as the view, at least three columns, in dashes or box lines |
| MarkdownShows.FenceExact | lib/src/util/markdown.cpp:235-250 | a line opens a fence exactly with three or more backticks or tildes, and no backtick in a backtick fence's language |
| MarkdownShows.CloseExact | lib/src/util/markdown.cpp:254-262 | and closes one exactly with as many or more of the same and nothing behind |
| MarkdownShows.RuleExact | lib/src/util/markdown.cpp:286-298 | one mark repeated is a rule exactly from three on, indented by at most three, if it is a dash, a star or an underscore |
| MarkdownShows.RuleSpaced | lib/src/util/markdown.cpp:286-298 | its marks may stand apart, but not two kinds of them together |
| MarkdownShows.PipeExact | lib/src/util/markdown.cpp:379-387 | a pipe counts unless a backslash stands before it |
| MarkdownShows.TabStop | lib/src/util/markdown.cpp:216-230 | a tab leads to the next multiple of four columns |
| MarkdownShows.TrimExact | lib/src/util/markdown.cpp:200-206 | trimming takes the blanks at both ends and nothing else |
| MarkdownShows.BlankExact | lib/src/util/markdown.cpp:190-198 | blank are the space and the five characters from tab to carriage return |
| MarkdownShows.StripExact | lib/src/util/markdown.cpp:1094-1097 | of a line of code as many leading blanks go as it has, at most the fence's indentation |
| MarkdownShows.LinesHold | lib/src/util/markdown.cpp:172-188 | without carriage returns the lines and their breaks joined are the text |
| MarkdownShows.CrDropped | lib/src/util/markdown.cpp:172-188 | one carriage return before a break goes with it |
| StyledText.CommonPrefix | lib/src/util/markdown.cpp:79-107 | the length found is a common prefix of bytes and styles, does not split a character, and is the longest such |
| StreamEngine.ActOk | lib/src/engine/engine.cpp:2310-2910 | every engine action, a dropped call, an answer that finds no row to rewrite and a turn that ends with calls unannounced or one running included, keeps step ids unique between rows and stream, and what it publishes is recorded in the engine first |
| StreamEngine.StaysRecorded | lib/include/haicode/engine.h:99-115 | what an event says stays true: its generation is reached, its bytes are in the in-flight copy at its offset |
| StreamEngine.TailCut | lib/src/engine/engine.cpp:1242-1265 | a retry keeps the rows up to the newest prompt, that one included, and all of them when there is none |
| StreamWindow.MainWindow.LoadHistory | gui/src/MainWindow.cpp:2026-2142 | a load shows all rows in order, then the in-flight copy, and sets step, floors and generation to match |
| StreamWindow.MainWindow.HandleStepStarted | gui/src/MainWindow.cpp:2286-2305 | a new step resets both floors; the same step keeps them; another session's changes nothing |
| StreamWindow.MainWindow.HandleTextDelta | gui/src/MainWindow.cpp:2177-2188 | an accepted delta, or one that names no step, is shown once at the end; any other changes nothing |
| StreamWindow.MainWindow.HandleReasoningDelta | gui/src/MainWindow.cpp:2191-2199 | the same for reasoning, with its own floor |
| StreamWindow.MainWindow.HandlePromptStarted | gui/src/MainWindow.cpp:2307-2319 | a prompt shows unless another session's or already loaded |
| StreamWindow.MainWindow.HandleToolCalled | gui/src/MainWindow.cpp:2235-2249 | a call shows unless another session's or already loaded |
| StreamWindow.MainWindow.HandleToolResult | gui/src/MainWindow.cpp:2251-2284 | a replacing result rewrites the newest shown one of its call, any other is added |
| StreamReplay.LoadAgrees | lib/src/engine/engine.cpp:1416-1425 | a load taken in one step with the in-flight copy shows every byte of every stored reply, note included, and of the stream once and in order, and every prompt and result once |
| StreamReplay.FollowAgrees | lib/include/haicode/engine.h:99-115 | every action told as it is but an answer, seen at once, keeps that agreement: of replies stored since the load every streamed byte shows, of dropped calls each result once |
| StreamReplay.AnswerAgrees | lib/src/engine/engine.cpp:2880-2910 | an answer, to a call with or without an id, changes exactly the newest told result of that id, or shows one more, and nothing else |
| StreamReplay.LoadedIgnores | gui/src/MainWindow.cpp:2201-2233 | of all events recorded before a load, the loaded window ignores exactly those that neither start another step nor bring a dropped call's result: no byte or row of theirs shows twice |
| StreamOrder.StoredOrder | gui/src/MainWindow.cpp:2059-2121 | when no call is open, the entries on screen look like a reload's exactly when, since the load, no reply made more than one call, every call was announced, and prompts, calls and results were told as they are stored |
| StreamOrder.StoredCalls | gui/src/MainWindow.cpp:2235-2249 | and its calls are the stored ones exactly when every call of a reply stored since the load was announced and calls were told as they are stored |
| StreamOrder.CallsExact | lib/src/engine/engine.cpp:2705-2735 | the live calls of a run of rows are the stored calls if and only if each was announced before the next prompt or reply, with a result or left without one |
| StreamOrder.CallsBounded | gui/src/MainWindow.cpp:2235-2249 | at any time no call shows more often than it is stored |
| StreamOrder.OrderExact | gui/src/MainWindow.cpp:2235-2284 | the live order of a run of rows is the reload's order if and only if every reply has at most one call and every call was announced |
| StreamInputs.CutOffDiffers | lib/src/engine/engine.cpp:2705-2709 | a reply stored with one call and cut off at its length limit: live no call, reloaded one |
| StreamInputs.LeftRunning | lib/src/engine/engine.cpp:1688-1700 | a turn that fails while its one call runs, announced and without a result: the call shows live and reloaded alike |
| StreamInputs.DroppedDiffers | lib/src/engine/engine.cpp:2566-2612 | a malformed call dropped from a reply: live its result, reloaded none |
| StreamInputs.NamelessAnswer | lib/src/engine/engine.cpp:2880-2910 | the answer to a call that came without an id: live two results, reloaded one |
| StreamInputs.MissedAnswer | lib/src/db/db.cpp:955-985 | the answer to a call whose id JSON escapes, missed by the search in the rows: live the answer, reloaded what was there before |
| StreamInputs.StrayAnswer | gui/src/MainWindow.cpp:2251-2284 | a dropped call's result that arrives after the load takes the answer to the stored call of the same id; its own result stays as it was, a reload shows the answer |
| StreamInputs.PromptCutShort | gui/src/GuiEventRelay.cpp:53-66 | a prompt shows up to its first NUL byte, so live and reloaded alike exactly when it has none |
| StreamInputs.OutputCutShort | gui/src/GuiEventRelay.cpp:91-140 | and so for a call's text and a tool's output |
| StreamOrder.TwoCallsDiffer | lib/src/engine/engine.cpp:2715-2815 | two calls: live call, result, call, result; reloaded both calls first |
| StreamOrder.OrderKept | gui/src/MainWindow.cpp:2235-2319 | every action told as it is keeps the exact description of what shows since the load; AnswerOrder adds answers |
| StreamStale.LoadExact | gui/src/MainWindow.cpp:2026-2051 | after a load and the messages already on their way, the window agrees with the engine if and only if those messages are harmless: no start of another step followed by bytes of a kept step, none that leaves the window away from the streaming step |
| StreamStale.NoStraysExact | gui/src/MainWindow.cpp:2286-2305 | bytes show of a step that neither streams nor is stored if and only if a start that moves the window to such a step is followed by bytes of it |
| StreamStale.LeftStepLoses | gui/src/MainWindow.cpp:2217-2233 | left at another step, the window ignores the next delta of the streaming one |
| StreamStale.LostByte | gui/src/MainWindow.cpp:2286-2305 | a concrete queue after which a reply never shows |
| StreamStale.HandleStale | gui/src/MainWindow.cpp:2217-2305 | exactly which earlier messages change the loaded window, and how |
| StreamStale.OneStepHarmless | lib/include/haicode/engine.h:481-496 | messages that start no step but the streaming one are harmless |
| StreamStale.StoredReplyRepeats | gui/src/MainWindow.cpp:2286-2305 | a concrete queue, the start and text of an already stored step, shows the reply twice |
| StreamTold.HeardAgrees | gui/src/GuiEventRelay.cpp:67-140 | whatever the engine does, answers included, the window that hears of it, strings cut at NUL bytes, keeps its agreement with the engine as told |
| StreamTold.MirrorsKept | gui/src/GuiEventRelay.cpp:67-140 | every action keeps the engine as told and the engine alike: same rows, steps, generations and open calls, each reply's bytes told whole or short |
| StreamTold.ToldExact | gui/src/GuiEventRelay.cpp:67-115 | prompts and calls were told as they are stored exactly when none stored since the load has a NUL byte |
| StreamTold.BooksStayTrue | lib/src/engine/engine.cpp:2880-2910 | as long as nothing is cut, rows and stream are told as they are; if no answer goes astray either, to no id, past its row or to another result, the backed results say what the stored rows say |
| StreamTold.ToldWhole | gui/src/GuiEventRelay.cpp:67-140 | then, with a row behind every result that shows, all was told as it is stored |
| StreamTold.ExtraStays | gui/src/MainWindow.cpp:2251-2284 | a result no row stands behind, such as an answer to a call without an id leaves, stays until the next load, and as long the results on screen are not the stored ones |
| StreamTold.LoadJoins | gui/src/MainWindow.cpp:2026-2051 | a load begins this agreement exactly when the messages on their way are harmless |
| StreamJoin.JoinedStreamExact | gui/src/GuiEventRelay.cpp:26-140 | after every interleaved run with harmless loads, once nothing is on its way: every byte told of the current step and of every stored reply once and in order (but not the note of a reply stored since the load), each prompt as told once in stored order, one backed result per stored one; the bytes are the engine's exactly when each reply was told whole, the prompts exactly when none since the load has a NUL byte; with nothing cut and no answer astray the backed results say what their rows say |
| StreamJoin.JoinedCallsExact | gui/src/MainWindow.cpp:2235-2249 | then, between turns, each call shows once and in stored order if and only if every call of a reply stored since the load was announced and none has a NUL byte |
| StreamJoin.JoinedStreamSafe | gui/src/GuiEventRelay.cpp:67-89 | at every moment of such a run, drained or not: what shows of a step is a prefix of what was told of it, prompts are a prefix, results a prefix call by call, no call shows more often than told; with nothing cut since the load, the same of what the engine holds |
| StreamJoin.JoinedOrderExact | gui/src/MainWindow.cpp:2235-2284 | then, between turns, screen and reload list the same prompts, calls and results in the same order if and only if, since the last load, no reply made more than one call, every call was announced, no prompt or call has a NUL byte, and the results told are the stored ones, each with its row |
| StreamJoin.JoinedLookExact | gui/src/MainWindow.cpp:2026-2142 | then, between turns, what the screen shows of prompts, replies, reasoning, calls and results is to the last byte what a reload shows of them if and only if moreover no reply has a note, each was told whole, no reasoning came after text of its step and no bytes showed of a step never stored |
| StreamLook.LookExact | gui/src/MainWindow.cpp:2132-2142 | the same for any window whose books agree with an engine as told, against a reload of what is stored |
| StreamLook.LookKept | lib/include/haicode/engine.h:99-115 | every action told as it is keeps the description of the interleaved look; AnswerLook adds answers |
| StreamJoin.LoadNeedsHarmless | gui/src/MainWindow.cpp:2026-2051 | a load keeps the invariant if and only if it is harmless; otherwise a kept byte shows twice, or the window is left at another step until its own starts again |
| StreamJoin.StepKeeps | gui/src/GuiEventRelay.cpp:26-49 | each step of engine, relay, window and user keeps the invariant |
| StreamJoin.LateLoad | gui/src/MainWindow.cpp:2026-2051 | a concrete run that reaches a load which is not harmless |
| History.CutExact | lib/src/compaction/compaction.cpp:132-180 | for every history, budget and floor: the cut separates two exchanges, keeps exactly the last exchange or what fits, and as much as fits; when all fits, exactly the oldest exchange is cut |
| History.CutUnique | lib/src/compaction/compaction.cpp:132-180 | no other cut has these properties |
| History.NoCutExact | lib/src/compaction/compaction.cpp:170-179 | there is no cut exactly when all fits or is one exchange, and the first exchange reaches the end |
| History.SplitHistory | lib/src/compaction/compaction.cpp:116-185 | the nested loops return what the recursive description gives, for every input |
| History.SerializedSize | lib/src/compaction/compaction.cpp:73-104 | the loops add up the record's cost, which BareCost, TextCost and PartCost determine |
| HistoryCost.BareCost | lib/src/compaction/compaction.cpp:73-104 | a record without a JSON object, or with nothing in it, costs 64, an empty result 112 |
| HistoryCost.TextCost | lib/src/compaction/compaction.cpp:73-104 | every further byte of a prompt, a reply or another record counts one, of a result's output up to 64 KiB in all and nothing past it |
| HistoryCost.PartCost | lib/src/compaction/compaction.cpp:73-104 | one more call of a reply adds 48 and its name and whole input, one more attachment of a prompt or result 48 and its path |
| HistoryCost.KeptCost | lib/src/compaction/compaction.cpp:132-160 | what is kept costs the sum of its records' costs |
| HistoryCost.EndExact | lib/src/compaction/compaction.cpp:107-112 | a prompt is an exchange of its own, any other record one with all results directly behind it, nothing else |
| HistoryCost.BudgetOf | lib/src/compaction/compaction.cpp:132-132 | the budget is four bytes a token for every 32-bit setting, a negative one wrapping around 64 bits |
| History.ExchangeEndOf | lib/src/compaction/compaction.cpp:107-112 | the loop finds the first row past the exchange |
| History.SplitProgress | lib/src/compaction/compaction.cpp:116-185 | with rising numbers: -1 exactly when at most one exchange lies past the floor; otherwise a strictly higher boundary with fewer, at least one, exchanges past it |
| History.RepeatedCompaction | lib/src/compaction/compaction.cpp:116-185 | repeated compaction stops in fewer rounds than exchanges, with rising boundaries, and leaves exactly the last exchange |
| History.ApplyCheckpoint | lib/src/compaction/compaction.cpp:413-440 | the block, then every row past the boundary in order |
| HistoryCost.BlockSays | lib/src/compaction/compaction.cpp:397-440 | the context's first record ends with the checkpoint's summary under its heading, and two checkpoints open alike exactly when their summaries are the same |
| History.ApplyTwice | lib/src/compaction/compaction.cpp:413-440 | a second checkpoint replaces the first if and only if no row lies between its boundary and a higher first one |
| History.SplitOfContext | lib/src/compaction/compaction.cpp:116-185 | splitting what a checkpoint left gives the boundary of splitting the whole history past it |
| History.AfterIsRegion | lib/src/compaction/compaction.cpp:413-440 | with rising numbers the kept rows are the rows past the floor |
| Store.SessionStore.AppendMessage | lib/src/db/db.cpp:675-706 | the new row gets the highest number plus one; all else stays |
| Store.SessionStore.UpdateMessageData | lib/src/db/db.cpp:708-720 | exactly the rows with that number get the new data, and keep all else |
| Store.SessionStore.DeleteMessagesAfter | lib/src/db/db.cpp:722-758 | rows above go; of the checkpoints exactly those with a boundary above, or taken no earlier than the row was written |
| Store.SessionStore.InsertCheckpoint | lib/src/db/db.cpp:782-804 | a pending checkpoint with a fresh id is added |
| Store.SessionStore.CompleteCheckpoint | lib/src/db/db.cpp:806-816 | exactly the checkpoint with that id becomes complete, if it is still there |
| Store.SessionStore.FailCheckpoint | lib/src/db/db.cpp:818-826 | exactly the checkpoint with that id becomes failed |
| Store.SessionStore.LatestComplete | lib/src/db/db.cpp:828-849 | a complete checkpoint with the highest boundary, or none |
| Store.SessionStore.ListComplete | lib/src/db/db.cpp:851-875 | all complete checkpoints ordered by boundary |
| Store.SessionStore.PruneStale | lib/src/db/db.cpp:877-884 | only old incomplete checkpoints go; their number is returned |
| Store.SessionStore.ClearStaleContexts | lib/src/db/db.cpp:886-897 | only complete checkpoints below the highest boundary lose their context; the number of those that had one is returned |
| StoreTables.PrunedExact | lib/src/db/db.cpp:877-884 | a checkpoint is left exactly when it was there and is complete or was updated late enough, as often as before and in order |
| StoreTables.SummariesKept | lib/src/db/db.cpp:877-884 | no summary is pruned, however old |
| StoreTables.SweepKeepsSummaries | lib/src/db/db.cpp:877-897 | a sweep leaves each complete checkpoint with its id, boundary, summary and times, in order; the newest keeps its context, the others lose it |
| StoreTables.SweepKeepsContext | lib/src/db/db.cpp:877-897 | after every run a sweep leaves the latest checkpoint, and the context the model gets, as they were |
| StoreTables.ClearedCount | lib/src/db/db.cpp:886-897 | the number reported is that of the checkpoints that changed |
| StoreTables.RowHolds | lib/src/db/db.cpp:675-706 | a new row holds what its writer gave, and a number above all others |
| StoreTables.RowRewritten | lib/src/db/db.cpp:708-720 | a rewrite replaces all data of the rows with that number and nothing else |
| StoreTables.CheckpointTaken | lib/src/engine/engine.cpp:3134-3190 | a compaction that finds a boundary takes one pending checkpoint with it and the context it was given; one that finds none changes no table |
| StoreTables.SummaryStored | lib/src/db/db.cpp:806-826 | a commit stores the summary with its own compaction's checkpoint, one given up stores none, no other checkpoint changes |
| StoreRuns.NoDeletedRowSeen | lib/src/db/db.cpp:722-758 | after every run: rows are numbered 1 to n; no checkpoint saw a row that was deleted since; the next row's number is above every boundary |
| StoreRuns.RetryCutsSuffix | lib/src/db/db.cpp:722-758 | a retry keeps the rows up to the last prompt, with none after it, and exactly the checkpoints taken before it was written: a suffix goes, of all and of the complete ones |
| StoreRuns.ContextWhole | lib/src/engine/engine.cpp:3102-3110 | after every run the context past the latest complete checkpoint starts with no orphaned tool result, and every result in it follows its reply |
| StoreRuns.CompactionProgress | lib/src/engine/engine.cpp:3112-3200 | a compaction finds a boundary exactly when more than one exchange is open, and its commit strictly raises the floor and leaves fewer |
| StoreRuns.StepKeeps | lib/src/db/db.cpp:675-898 | every append, rewrite, compaction step, crash, sweep and retry keeps the store sound |
| StoreRuns.RetryKeeps | lib/src/engine/engine.cpp:1242-1265 | a retry keeps it, although numbers are used again |
| StoreRuns.CompactKeeps | lib/src/engine/engine.cpp:3134-3190 | a boundary found and inserted keeps it |
| StoreRuns.SweepKeeps | lib/src/db/db.cpp:877-898 | the sweep at start-up keeps it |
| Replay.ReplayExact | gui/src/MainWindow.cpp:2052-2131 | after every run, reloading shows each row once in order and each complete checkpoint exactly once, right after the row its boundary names |
| Replay.ReplayHolds | gui/src/MainWindow.cpp:2124-2130 | for any rows and checkpoints each row shows once, and each checkpoint let through once and in order |
| Replay.LoadTranscript | gui/src/MainWindow.cpp:2052-2131 | the two loops with their shared index produce that transcript |
| UrlCodec.RoundTrip | lib/src/auth/codex_auth.cpp:49-89 | decoding undoes encoding on every byte string |
| UrlCodec.DecodeEncode | lib/src/auth/codex_auth.cpp:49-89 | whatever follows the encoded string |
| UrlCodec.EncodePlain | lib/src/auth/codex_auth.cpp:49-64 | an encoding holds unreserved bytes and escapes only |
| UrlCodec.UrlEncode | lib/src/auth/codex_auth.cpp:49-64 | the loop encodes byte by byte |
| UrlCodec.UrlDecode | lib/src/auth/codex_auth.cpp:74-89 | the loop decodes escapes, and keeps a broken or cut-off escape as it is |
| UrlCodec.ParseQuery | lib/src/auth/codex_auth.cpp:109-127 | the loop parses the query between the question mark and the first space |
| UrlCodec.ParseBuilt | lib/src/auth/codex_auth.cpp:109-127 | a query of encoded pairs parses to those pairs, the later of two with one key, with or without a space and more text |
| UrlCodec.ParseExact | lib/src/auth/codex_auth.cpp:385-406 | with distinct keys: exactly those pairs and nothing else |
| UrlCodec.BuildUrl | lib/src/auth/codex_auth.cpp:385-406 | the loop joins base and encoded pairs |
| CodecTables.UnreservedExact | lib/src/auth/codex_auth.cpp:49-64 | unescaped are letters, digits and - . _ ~, no other byte |
| CodecTables.HexExact | lib/src/auth/codex_auth.cpp:66-72 | hexadecimal digits count in both cases, each for its place in the table, and no other byte |
| CodecTables.AnyEscapes | lib/src/auth/codex_auth.cpp:74-89 | however a query was written, bytes as they are or as escapes in either case, decoding gives the bytes |
| CodecTables.RequestParsed | lib/src/auth/codex_auth.cpp:109-127 | of a request line what stands between the question mark and the first blank are the pairs, with & between and = inside |
| Base64.SafeRoundTrip | lib/src/auth/codex_auth.cpp:328-354 | decoding undoes encoding on every byte string; only URL-safe symbols, no padding, four for three bytes rounded up |
| Base64.RoundTrip64 | lib/src/util/util.cpp:43-101 | base64 decoding undoes encoding, from any left-over bits in the 32-bit word |
| Base64.LowBits | lib/src/util/util.cpp:74-101 | the wrapped 32-bit word holds the last symbols read |
| Base64.Base64Encode | lib/src/util/util.cpp:43-72 | the loop encodes three bytes at a time, then the rest with padding |
| Base64.Base64Decode | lib/src/util/util.cpp:74-101 | the loop decodes up to padding or the first foreign character |
| Base64.B64UrlEncode | lib/src/auth/codex_auth.cpp:328-339 | encodes, swaps the alphabet and stops at the padding |
| Base64.B64UrlDecode | lib/src/auth/codex_auth.cpp:341-354 | swaps back, pads to a multiple of four, decodes |
| CodecTables.SymbolTable | lib/src/util/util.cpp:43-72 | the 64 symbols are the standard's table, and the URL-safe ones its other table, place by place |
| CodecTables.GroupExact | lib/src/util/util.cpp:43-72 | three bytes are four symbols of six bits each, the first bits first |
| CodecTables.LeftOver | lib/src/util/util.cpp:43-72 | one or two bytes left over are filled with zero bits and padded |
| CodecTables.KnownBase64 | lib/src/util/util.cpp:43-72 | the first three test vectors of section 10 of RFC 4648 |
| Sidebar.RefreshAgrees | gui/src/MainWindow.cpp:333-398 | with at most fifty rows, whose sessions are the store's newest, the in-place refresh leaves the sessions, times and order of a rebuild |
| Sidebar.SortAgrees | gui/src/MainWindow.cpp:366-379 | re-sorting by fresh times gives the query's own order |
| Sidebar.RankedUnique | gui/src/MainWindow.cpp:361-379 | two lists ranked by this comparison with the same rows are one, so any sort gives it |
| Sidebar.SortedRanked | lib/src/db/db.cpp:361-367 | the order is total on sessions with distinct ids |
| Sidebar.QueryNewest | lib/src/db/db.cpp:361-367 | as many sessions are listed as fit, times never rise, none left out is newer than one listed, and of one time the higher ids come first |
| Sidebar.LessExact | lib/src/db/db.cpp:361-367 | names are compared by the first character that differs, or by length |
| Sidebar.SessionList.SyncModifiedTimes | gui/src/MainWindow.cpp:333-360 | ids and labels stay index-parallel to the rows; rows move only if the sessions match, and if not each row has its old time or its fresh one |
| Sidebar.SessionList.OnSessionListReordered | gui/src/MainWindow.cpp:1557-1579 | ids and labels follow the rows, each label looked up by its session; unknown sessions change nothing |
| Sidebar.SessionList.RefreshSessionList | gui/src/MainWindow.cpp:1533-1550 | the rebuild shows the newest fifty, with parallel lists |
| Sidebar.ReorderedParallel | gui/src/MainWindow.cpp:1557-1579 | after a re-sort each label is still its session's |
| Config.ProvidersAreGlobal | lib/src/config/config.cpp:878-889 | whatever a project's file says, merged providers are the user's own |
| Config.AuthorityIsGlobal | lib/src/config/config.cpp:975-995 | for every layer whose fingerprint is not the accepted one: merged permissions, agents, build command and search keys are the user's own if and only if a gated key was seen or the layer holds nothing that slips by unseen |
| ConfigFile.AuthorityOfFile | lib/src/config/config.cpp:145-405 | for every file, accepted or not, and every user configuration: the merged gated settings are the user's own with exactly the accepted content added if and only if no misspelt rule ended the reading after agents that change the user's were stored, none did after a rule was stored in a file accepted for its agents or without any, and no empty build command is read over one of the user's in a file accepted or with nothing else gated |
| ConfigFile.AcceptedContent | lib/src/config/config.cpp:975-995 | the content added is that of the file whose fingerprint the user accepted |
| ConfigFile.RuleRidesAlong | lib/src/config/config.cpp:214-227 | a file accepted for its agent, to which a good rule and a misspelt one are added: the fingerprint still matches and the rule is merged over every base |
| ConfigFile.NeededExact | lib/src/config/config.cpp:803-814 | when the user is asked, told from the document |
| ConfigFile.RecordedExact | lib/src/config/config.cpp:199-227 | every gated value read is recorded as present if and only if no misspelt rule ended the reading after something was stored |
| ConfigFile.GatedSeenExact | lib/src/config/config.cpp:803-814 | has_gated_keys sees exactly the layers with a gated value, unless something was lost that way with no agent on record |
| ConfigFile.RuleSlips | lib/src/config/config.cpp:32-45 | a file with a rule whose action is a number after a good one: the good one is merged unasked |
| ConfigFile.AgentSlips | lib/src/config/config.cpp:199-220 | a file with an agent with such a rule after another agent: the other is merged unasked |
| ConfigFile.LostUnprinted | lib/src/config/config.cpp:816-861 | what is lost that way has no part in the fingerprint, which is that of the document with its agents only |
| ConfigFile.LoadLayer | lib/src/config/config.cpp:145-405 | section by section, and up to an exception, the method fills the layer the file describes |
| ConfigFile.AppendPermissions | lib/src/config/config.cpp:32-45 | the loop reads rules up to the first that fails |
| ConfigFile.ReadAgents | lib/src/config/config.cpp:199-220 | the loop stores agents up to the first whose rules fail |
| ConfigRead.RuleRead | lib/src/config/config.cpp:32-45 | a rule counts exactly if it names an action; it allows or denies exactly if it says so and else asks; a missing resource is any |
| ConfigRead.RulesRoundTrip | lib/src/config/config.cpp:32-45 | a list of rules written with their own strings reads back as itself, for all three effects |
| ConfigRead.FailsExact | lib/src/config/config.cpp:32-45 | a rule ends the reading exactly when its action, resource or effect is there and no string, a price when one of its four members is no number |
| ConfigRead.AgentGiven | lib/src/config/config.cpp:199-220 | what any entry gives an agent: a step limit only above zero, strings where there are strings, its rules |
| ConfigRead.AgentRoundTrip | lib/src/config/config.cpp:199-220 | an agent written with what it gives reads back as itself, whatever it leaves out |
| ConfigRead.AgentsRoundTrip | lib/src/config/config.cpp:199-220 | so does a table of agents with distinct names |
| ConfigRead.SettingsRead | lib/src/config/config.cpp:145-405 | for every file: each single-valued setting the reading reaches has the value its own place in the file gives, if that is one it may have, and is recorded; every other has its default and is not |
| ConfigRead.SectionsRead | lib/src/config/config.cpp:145-405 | for every file read to its end: providers, agents, rules, lists, model tables, prices and search keys hold what their own places give, and nothing else |
| ConfigRead.TextsExact | lib/src/config/config.cpp:228-244 | lists keep their strings in order |
| ConfigRead.OneText | lib/src/config/config.cpp:228-244 | and drop everything that is no string |
| ConfigRead.SameInt | lib/src/config/config.cpp:246-254 | integers keep their value in 32 bits, or what is left of it there |
| Config.Merge | lib/src/config/config.cpp:415-511 | the loops compute the per-key merge |
| ConfigMerge.ScalarMerged | lib/src/config/config.cpp:415-438 | a setting the layer recorded wins, any other leaves the user's |
| ConfigMerge.MapsMerged | lib/src/config/config.cpp:490-511 | in the maps the layer's keys win and all others stay |
| ConfigMerge.ProviderMerged | lib/src/config/config.cpp:440-458 | a provider both have keeps every part the layer does not give |
| ConfigMerge.AgentMerged | lib/src/config/config.cpp:460-470 | an agent both have keeps every part the layer leaves out; its rules replace the user's or stay |
| ConfigMerge.ListsMerged | lib/src/config/config.cpp:472-488 | rules and instructions come after the user's own in order, skills too, each once |
| ConfigMerge.NothingMerged | lib/src/config/config.cpp:415-511 | a layer whose file gave nothing changes nothing |
| ConfigMerge.MergedTwice | lib/src/config/config.cpp:415-511 | merging a layer again adds nothing but its rules and instructions |
| ConfigFile.FileFingerprint | lib/src/config/config.cpp:816-861 | for all files: where two lose the same, fingerprints agree and both or neither give a build command exactly when they leave the same gated settings over every user configuration; where not, never both |
| Config.OnlyGatedLost | lib/src/config/config.cpp:863-876 | stripping loses gated settings only |
| Config.FingerprintExact | lib/src/config/config.cpp:816-861 | two layers have one fingerprint exactly when their gated content is the same |
| Config.FingerprintIsEffect | lib/src/config/config.cpp:816-861 | for all layers: with the same unrecorded content, they leave the same gated settings over every user configuration exactly when their fingerprints agree and both or neither give a build command; with different unrecorded content the two never go together |
| Config.EffectExact | lib/src/config/config.cpp:415-511 | for all layers: they do exactly when their gated values are the same and both or neither give a build command |
| Config.EmptyBuildCommand | lib/src/config/config.cpp:816-861 | an empty build command changes the effect but not the fingerprint |
| Config.LayerBox.LoadProjectLayer | lib/src/config/config.cpp:975-995 | providers always go; gated keys go unless the stored fingerprint matches |
| Config.LayerBox.StripUntrusted | lib/src/config/config.cpp:863-876 | exactly the gated values and their presence go |
| Config.LayerBox.StripProjectProviders | lib/src/config/config.cpp:880-889 | exactly the providers and their presence go |

## Left out

- Styles are stored per byte rather than as runs; equal bytes and styles are the same text either way.
- Inline markdown, headings, list and quote bodies, the delimiter test and table layout are parameters of the fold; the laws hold for each of them.
- Offsets and sizes are unbounded integers; 32-bit widths matter only in base64, where they are written out, and in the budget, whose wrap-around is.
- Scrolling, colours in use, fonts, clipboard, timers and link opening: the outcomes of the clipboard and of starting a timer are parameters of CopyEntry.
- ChatViews.ChatView.FindLinkAt: states the range found, not its index, because a live list and a rebuilt one may order links differently.
- StreamJoin.JoinedStreamExact: assumes harmless loads, the exact condition of LoadExact, because without it the claim is false (LateLoad).
- StreamJoin.JoinedOrderExact: speaks about states between turns; within a turn OrderKept describes what shows.
- StreamJoin.JoinedLookExact: compares prompts, reply and reasoning bytes, calls and results; notices such as "Interrupted.", errors, plan notices and live compaction summaries also differ from a reload and are not compared. It takes pieces of bytes as they are stored and streamed; how the view draws a step's pieces as blocks is the transcript view's part.
- Deltas without a step id are shown by the window's handlers as the source does, but no engine of the transition system sends one.
- Screenshot lines, build-hook lines and status updates in the window are not part of the stream model; its engine performs one session's actions one at a time.
- An answer comes right after the result it is for, and its search in the stored rows finds that row or, with an id that JSON escapes, perhaps none; other rewrites of rows are in the store model only.
- A call's text stands for its name and its dumped input as one string; the dump never has a NUL byte, and where the name has one the model cuts the input off too.
- The relay's other subscriptions, and messages that carry no row or delta.
- History.Split: sums of sizes do not wrap at 64 bits, because such histories do not fit in memory; JSON parsing is a flag and the sizes of the parsed fields.
- The table of rows is kept in insertion order, which NoDeletedRowSeen shows to be the order of numbers; other sessions' rows, transactions and write errors are left out.
- How a summary is written, its validation, token estimates and the hysteresis that triggers compaction.
- Parsing the text of a configuration file: ConfigFile reads a parsed document, visiting an object's fields in the order they come; the defaults of the single-valued settings are a parameter. The global scope's write-back and the trust prompt's text.
- The OAuth callback server, token refresh and account parsing around the codecs.
- Selection, badges and drawing of the session list.
