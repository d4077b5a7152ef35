/** Joining a live stream: engine threads, the relay's active-session filter
    and the window's message queue, in every interleaving, with sessions
    switched and turns retried at any time. */
module StreamJoin {
  import opened Wrappers
  import opened StreamEngine
  import opened StreamWindow
  import opened StreamReplay
  import opened StreamOrder
  import opened StreamLook
  import opened StreamStale
  import opened StreamTold

  /** An event between its recording and its arrival in the window's queue:
      the relay checks the active session first and sends later, strings cut. */
  datatype Outgoing = Outgoing(event: Event, admitted: bool)

  datatype Session = Session(engine: Engine, outbox: Option<Outgoing>)

  /** A message in the window's queue. */
  datatype Post = Post(sid: nat, event: Event)

  /** `active` and `relay` are the session the window shows and the one the
      relay forwards; `since` only keeps the books of what the window was told
      since the last load. */
  datatype World = World(sessions: seq<Session>, active: nat, relay: nat, loading: bool, queue: seq<Post>,
                         window: Window, since: Since)

  datatype Step =
    | EngineStep(sid: nat, action: Action)
    | RelayCheck(sid: nat)     // is the event's session the active one?
    | RelaySend(sid: nat)      // the message enters the queue
    | Select(sid: nat)         // the user switches: until the load, no message is handled
    | Retry                    // the idle active session loses its tail, then reloads
    | Route                    // _LoadHistory points the relay at the session
    | Load                     // rows and in-flight copy, read in one step
    | HandleNext               // the next message in the queue

  predicate Enabled(w: World, s: Step) {
    match s
    case EngineStep(sid, a) =>
      sid < |w.sessions| && w.sessions[sid].outbox.None? && !a.CutTail? && Allowed(w.sessions[sid].engine, a)
      && Says(w.sessions[sid].engine, a)
    case RelayCheck(sid) => sid < |w.sessions| && w.sessions[sid].outbox.Some? && !w.sessions[sid].outbox.value.admitted
    case RelaySend(sid) => sid < |w.sessions| && w.sessions[sid].outbox.Some? && w.sessions[sid].outbox.value.admitted
    case Select(sid) => !w.loading && sid < |w.sessions|
    case Retry =>
      !w.loading && w.active < |w.sessions| && w.sessions[w.active].outbox.None?
      && Allowed(w.sessions[w.active].engine, CutTail)
    case Route => w.loading
    case Load => w.loading && w.relay == w.active < |w.sessions|
    case HandleNext => !w.loading && w.queue != []
  }

  function Acted(ss: Session, a: Action): Session
    requires Allowed(ss.engine, a)
  {
    var (e', ev) := Act(ss.engine, a);
    match ev
    case None => ss.(engine := e')
    case Some(x) => Session(e', Some(Outgoing(x, false)))
  }

  /** The session's messages in the queue, in order. */
  function Posted(queue: seq<Post>, sid: nat): seq<Event> {
    if queue == [] then []
    else (if queue[0].sid == sid then [queue[0].event] else []) + Posted(queue[1..], sid)
  }

  function Waiting(outbox: Option<Outgoing>): seq<Event> {
    match outbox case None => [] case Some(o) => [CutEvent(o.event)]
  }

  /** Everything of the session's on its way to the window, in order. */
  function OnItsWay(w: World, sid: nat): seq<Event>
    requires sid < |w.sessions|
  {
    Posted(w.queue, sid) + Waiting(w.sessions[sid].outbox)
  }

  /** The books after an action; the engine as told allows what the engine
      does, so nothing is ever left out of them. */
  function Noted(since: Since, e: Engine, a: Action): Since
    requires Allowed(e, a)
  {
    if a.Answer? || Allowed(since.told, CutAction(a)) then Books(since, e, a) else since
  }

  function Do(w: World, s: Step): World
    requires Enabled(w, s)
  {
    match s
    case EngineStep(sid, a) =>
      w.(sessions := w.sessions[sid := Acted(w.sessions[sid], a)],
         since := if sid == w.active && !w.loading then Noted(w.since, w.sessions[sid].engine, a) else w.since)
    case RelayCheck(sid) =>
      var ss := w.sessions[sid];
      var out := if sid == w.relay then Some(ss.outbox.value.(admitted := true)) else None;
      w.(sessions := w.sessions[sid := ss.(outbox := out)])
    case RelaySend(sid) =>
      var ss := w.sessions[sid];
      w.(sessions := w.sessions[sid := ss.(outbox := None)], queue := w.queue + [Post(sid, CutEvent(ss.outbox.value.event))])
    case Select(sid) => w.(active := sid, loading := true)
    case Retry => w.(sessions := w.sessions[w.active := Acted(w.sessions[w.active], CutTail)], loading := true)
    case Route => w.(relay := w.active)
    case Load =>
      var ss := w.sessions[w.active];
      w.(window := Loaded(ss.engine), loading := false, since := BooksAt(ss.engine, OnItsWay(w, w.active)))
    case HandleNext =>
      var p := w.queue[0];
      w.(queue := w.queue[1..], window := if p.sid == w.active then Handle(w.window, p.event) else w.window)
  }

  /** The messages on their way at this load do no harm. */
  predicate HarmlessLoad(w: World)
    requires w.active < |w.sessions|
  {
    Harmless(w.sessions[w.active].engine, OnItsWay(w, w.active))
  }

  // ---- Invariant ----

  /** What the window will show when everything on its way has arrived. */
  ghost function Settled(w: World): Window
    requires w.active < |w.sessions|
  {
    HandleAll(w.window, OnItsWay(w, w.active))
  }

  ghost predicate SessionsOk(w: World) {
    && w.active < |w.sessions|
    && (forall sid :: 0 <= sid < |w.sessions| ==>
          EngineOk(w.sessions[sid].engine) && AllRecorded(w.sessions[sid].engine, OnItsWay(w, sid)))
  }

  /** The part about the window the user looks at. */
  ghost predicate Showing(w: World)
    requires w.active < |w.sessions|
  {
    && w.relay == w.active && BooksTrue(w.since, w.sessions[w.active].engine)
    && Joined(Settled(w), w.since, w.sessions[w.active].engine)
  }

  ghost predicate Inv(w: World) {
    SessionsOk(w) && (!w.loading ==> Showing(w))
  }

  ghost predicate Initial(w: World) {
    && w.active < |w.sessions| && w.loading && w.queue == []
    && forall sid :: 0 <= sid < |w.sessions| ==> w.sessions[sid] == Session(IDLE, None)
  }

  // ---- Each step keeps it ----

  lemma {:induction false} ActedRecorded(e: Engine, a: Action, evs: seq<Event>)
    requires EngineOk(e) && AllRecorded(e, evs) && Allowed(e, a)
    ensures EngineOk(Act(e, a).0) && AllRecorded(Act(e, a).0, evs)
    ensures Act(e, a).1.Some? ==> AllRecorded(Act(e, a).0, evs + [CutEvent(Act(e, a).1.value)])
  {
    hide EngineOk, Recorded, Act, Allowed, CutEvent;
    ActOk(e, a);
    if Act(e, a).1.Some? {
      CutRecorded(Act(e, a).0, Act(e, a).1.value);
    }
    forall k | 0 <= k < |evs| ensures Recorded(Act(e, a).0, evs[k]) {
      StaysRecorded(e, a, evs[k]);
    }
  }

  lemma {:induction false} PostedPush(queue: seq<Post>, p: Post, sid: nat)
    ensures Posted(queue + [p], sid) == Posted(queue, sid) + (if p.sid == sid then [p.event] else [])
    decreases |queue|
  {
    if queue == [] {
      assert queue + [p] == [p] && [p][1..] == [];
    } else {
      var first := if queue[0].sid == sid then [queue[0].event] else [];
      var last := if p.sid == sid then [p.event] else [];
      assert (queue + [p])[1..] == queue[1..] + [p];
      PostedPush(queue[1..], p, sid);
      assert first + (Posted(queue[1..], sid) + last) == (first + Posted(queue[1..], sid)) + last;
    }
  }

  /** What an engine step adds to what is on its way. */
  lemma {:induction false} EngineSends(w: World, sid: nat, a: Action, w': World)
    requires sid < |w.sessions| && w.sessions[sid].outbox.None? && Allowed(w.sessions[sid].engine, a)
    requires w'.sessions == w.sessions[sid := Acted(w.sessions[sid], a)] && w'.queue == w.queue
    ensures var ev := Act(w.sessions[sid].engine, a).1;
            && (forall other: nat :: other < |w.sessions| && other != sid ==> OnItsWay(w', other) == OnItsWay(w, other))
            && OnItsWay(w', sid) == OnItsWay(w, sid) + (if ev.Some? then [CutEvent(ev.value)] else [])
  {
    hide Act, Allowed, CutEvent;
  }

  lemma {:induction false} ActedSessions(w: World, sid: nat, a: Action, w': World)
    requires SessionsOk(w) && sid < |w.sessions| && w.sessions[sid].outbox.None? && Allowed(w.sessions[sid].engine, a)
    requires w'.sessions == w.sessions[sid := Acted(w.sessions[sid], a)] && w'.queue == w.queue && w'.active == w.active
    ensures SessionsOk(w')
  {
    hide EngineOk, AllRecorded, OnItsWay, Act, Allowed;
    var e := w.sessions[sid].engine;
    EngineSends(w, sid, a, w');
    ActedRecorded(e, a, OnItsWay(w, sid));
    assert w'.sessions[sid].engine == Act(e, a).0;
    if Act(e, a).1.None? {
      assert OnItsWay(w', sid) == OnItsWay(w, sid);
    }
  }

  lemma {:induction false} ActiveActs(w: World, a: Action)
    requires Inv(w) && !w.loading && Enabled(w, EngineStep(w.active, a))
    ensures Showing(Do(w, EngineStep(w.active, a)))
  {
    hide Joined, BooksTrue, Mirrors, Act, Allowed, Handle, HandleAll, EngineOk, AllRecorded, OnItsWay, Books, CutEvent;
    var ss := w.sessions[w.active];
    var evs := OnItsWay(w, w.active);
    JoinedMirrors(Settled(w), w.since, ss.engine);
    HeardAgrees(Settled(w), w.since, ss.engine, a);
    BooksStayTrue(w.since, ss.engine, a);
    EngineSends(w, w.active, a, Do(w, EngineStep(w.active, a)));
    assert Acted(ss, a).engine == Act(ss.engine, a).0;
    if Act(ss.engine, a).1.Some? {
      HandleAllPush(w.window, evs, CutEvent(Act(ss.engine, a).1.value));
    } else {
      assert evs + [] == evs;
    }
  }

  lemma {:induction false} JoinedMirrors(w: Window, since: Since, e: Engine)
    requires Joined(w, since, e)
    ensures Mirrors(since.told, e)
  {
  }

  lemma {:induction false} StepEngine(w: World, sid: nat, a: Action)
    requires Inv(w) && Enabled(w, EngineStep(sid, a))
    ensures Inv(Do(w, EngineStep(sid, a)))
  {
    hide Agreed, Act, Allowed, HandleAll, OnItsWay, SessionsOk;
    SessionsActive(w);
    ActedSessions(w, sid, a, Do(w, EngineStep(sid, a)));
    if !w.loading {
      if sid == w.active {
        ActiveActs(w, a);
      } else {
        EngineSends(w, sid, a, Do(w, EngineStep(sid, a)));
      }
    }
  }

  lemma {:induction false} SessionsActive(w: World)
    requires SessionsOk(w)
    ensures w.active < |w.sessions|
  {
  }

  /** The relay moves an event on, or drops one of another session. */
  lemma {:induction false} RelayMoves(w: World, s: Step, sid: nat)
    requires Enabled(w, s) && (s.RelayCheck? || s.RelaySend?) && sid < |w.sessions|
    ensures |Do(w, s).sessions| == |w.sessions| && Do(w, s).sessions[sid].engine == w.sessions[sid].engine
    ensures OnItsWay(Do(w, s), sid) <= OnItsWay(w, sid)
    ensures sid == w.relay || sid != s.sid || s.RelaySend? ==> OnItsWay(Do(w, s), sid) == OnItsWay(w, sid)
  {
    if s.RelaySend? {
      PostedPush(w.queue, Post(s.sid, CutEvent(w.sessions[s.sid].outbox.value.event)), sid);
    }
  }

  lemma {:induction false} RecordedPrefix(e: Engine, a: seq<Event>, b: seq<Event>)
    requires AllRecorded(e, b) && a <= b
    ensures AllRecorded(e, a)
  {
  }

  lemma {:induction false} StepRelay(w: World, s: Step)
    requires Inv(w) && Enabled(w, s) && (s.RelayCheck? || s.RelaySend?)
    ensures Inv(Do(w, s))
  {
    hide Agreed, HandleAll, EngineOk, AllRecorded, OnItsWay;
    var w' := Do(w, s);
    forall sid: nat | sid < |w.sessions|
      ensures EngineOk(w'.sessions[sid].engine) && AllRecorded(w'.sessions[sid].engine, OnItsWay(w', sid))
    {
      RelayMoves(w, s, sid);
      RecordedPrefix(w.sessions[sid].engine, OnItsWay(w', sid), OnItsWay(w, sid));
    }
    RelayMoves(w, s, w.active);
  }

  /** A load leads to a window that agrees, now and after every later step,
      exactly when it is harmless. After any other a byte shows twice, or the
      window is left at another step than the one that streams: it ignores that
      step until its start is announced again, as a retried attempt does. */
  lemma {:induction false} LoadNeedsHarmless(w: World)
    requires Inv(w) && Enabled(w, Load)
    ensures Inv(Do(w, Load)) <==> HarmlessLoad(w)
  {
    hide Joined, BooksTrue, EngineOk, AllRecorded, Loaded, HandleAll, Harmless, BooksAt;
    var w' := Do(w, Load);
    assert forall sid: nat :: sid < |w.sessions| ==> OnItsWay(w', sid) == OnItsWay(w, sid);
    var e, evs := w.sessions[w.active].engine, OnItsWay(w, w.active);
    LoadJoins(e, evs);
    LoadBooksTrue(e, evs);
  }

  lemma {:induction false} Taken(w: World, sid: nat)
    requires Enabled(w, HandleNext) && sid < |w.sessions|
    ensures OnItsWay(w, sid)
            == (if w.queue[0].sid == sid then [w.queue[0].event] else []) + OnItsWay(Do(w, HandleNext), sid)
  {
  }

  lemma {:induction false} StepHandle(w: World)
    requires Inv(w) && Enabled(w, HandleNext)
    ensures Inv(Do(w, HandleNext))
  {
    hide Agreed, EngineOk, Recorded, HandleAll, Handle, OnItsWay;
    var w' := Do(w, HandleNext);
    forall sid: nat | sid < |w.sessions| ensures AllRecorded(w'.sessions[sid].engine, OnItsWay(w', sid)) {
      Taken(w, sid);
      var before, after := OnItsWay(w, sid), OnItsWay(w', sid);
      var cut := |before| - |after|;
      forall k | 0 <= k < |after| ensures after[k] == before[k + cut] {}
    }
    Taken(w, w.active);
    var p := w.queue[0];
    if p.sid == w.active {
      assert OnItsWay(w, w.active)[1..] == OnItsWay(w', w.active);
      HandleAllFirst(w.window, OnItsWay(w, w.active));
    } else {
      assert [] + OnItsWay(w', w.active) == OnItsWay(w', w.active);
    }
  }

  lemma {:induction false} StepSwitch(w: World, s: Step)
    requires Inv(w) && Enabled(w, s) && (s.Select? || s.Retry? || s.Route?)
    ensures Inv(Do(w, s))
  {
    hide Agreed, EngineOk, AllRecorded, HandleAll, Act;
    if s.Retry? {
      ActedSessions(w, w.active, CutTail, Do(w, s));
    } else {
      assert forall sid: nat :: sid < |w.sessions| ==> OnItsWay(Do(w, s), sid) == OnItsWay(w, sid);
    }
  }

  lemma {:induction false} StepKeeps(w: World, s: Step)
    requires Inv(w) && Enabled(w, s) && (s.Load? ==> HarmlessLoad(w))
    ensures Inv(Do(w, s))
  {
    hide Inv, Enabled, HarmlessLoad, Do;
    match s
    case EngineStep(sid, a) => StepEngine(w, sid, a);
    case RelayCheck(_) => StepRelay(w, s);
    case RelaySend(_) => StepRelay(w, s);
    case Load => LoadNeedsHarmless(w);
    case HandleNext => StepHandle(w);
    case _ => StepSwitch(w, s);
  }

  // ---- Runs ----

  /** A run: each step enabled where it is taken, each load harmless. */
  ghost predicate Run(w: World, steps: seq<Step>, w': World)
    decreases |steps|
  {
    if steps == [] then w == w'
    else
      && Enabled(w, steps[0])
      && (steps[0].Load? ==> HarmlessLoad(w))
      && Run(Do(w, steps[0]), steps[1..], w')
  }

  lemma {:induction false} RunKeeps(w: World, steps: seq<Step>, w': World)
    requires Inv(w) && Run(w, steps, w')
    ensures Inv(w')
    decreases |steps|
  {
    hide Inv, Enabled, HarmlessLoad, Do;
    if steps != [] {
      StepKeeps(w, steps[0]);
      RunKeeps(Do(w, steps[0]), steps[1..], w');
    }
  }

  lemma {:induction false} InitialInv(w: World)
    requires Initial(w)
    ensures Inv(w)
  {
  }

  lemma {:induction false} JoinedParts(w: Window, since: Since, e: Engine)
    requires Joined(w, since, e)
    ensures EngineOk(since.told) && Mirrors(since.told, e) && since.rows <= |since.told.rows| && |since.told.rows| == |e.rows|
    ensures Agree(w, since.told, since)
    ensures BytesAgree(w.items, since.told, since.rows) && RowsAgree(w.items, since.told, since.log)
    ensures OrderAgrees(w.items, w.rowGen, since.told, since) && LookAgrees(w.items, since.told, since)
  {
  }

  lemma {:induction false} RunShows(w0: World, steps: seq<Step>, w: World)
    requires Initial(w0) && Run(w0, steps, w) && !w.loading
    ensures w.active < |w.sessions| && EngineOk(w.sessions[w.active].engine)
    ensures Joined(Settled(w), w.since, w.sessions[w.active].engine) && BooksTrue(w.since, w.sessions[w.active].engine)
  {
    hide Run, Initial, Joined, BooksTrue, Settled, EngineOk;
    InitialInv(w0);
    RunKeeps(w0, steps, w);
  }

  /** After any run, in any interleaving: once nothing of the active session's
      is on its way any more, the window shows each byte told of the current
      step exactly once and in order, each byte told of every stored reply
      likewise (but not the note of one stored since the load), each prompt as
      told exactly once and in stored order, and one result for each stored
      one, besides those no row stands behind. The bytes are those the engine
      holds exactly when each reply was told whole, and the prompts exactly
      when none since the load has a NUL byte; with nothing cut both are, and
      if no answer went astray either, results say what their rows say. */
  lemma {:induction false} JoinedStreamExact(w0: World, steps: seq<Step>, w: World)
    requires Initial(w0) && Run(w0, steps, w)
    requires w.active < |w.sessions| && !w.loading && OnItsWay(w, w.active) == []
    ensures var items, e, since := w.window.items, w.sessions[w.active].engine, w.since;
            && Mirrors(since.told, e) && ToldSince(since.told.rows, e.rows, since.rows)
            && BytesAgree(items, since.told, since.rows) && RowsAgree(items, since.told, since.log)
            && (BytesAgree(items, e, since.rows) <==> TellsBytes(since.told.rows, e.rows) && since.told.inFlight == e.inFlight)
            && (Prompts(items) == Prompts(RowsItems(e.rows)) <==> WholePrompts(e.rows, since.rows))
            && NumBacked(Log(items)) == |Log(RowsItems(e.rows))|
            && (!since.cut ==> TellsBytes(since.told.rows, e.rows) && since.told.inFlight == e.inFlight
                               && WholePrompts(e.rows, since.rows) && WholeCalls(e.rows, since.rows))
            && (!since.cut && !since.astray ==> Outputs(Backed(Log(items))) == Outputs(Log(RowsItems(e.rows))))
  {
    hide Joined, Run, Initial, OnItsWay, BytesAgree, Log, Prompts, Calls, RowsItems, NumBacked, Outputs, Backed,
      OrderAgrees, LookAgrees, EngineOk, Mirrors, Agree, WholePrompts, WholeCalls, TellsBytes, ToldSince, Whole;
    RunShows(w0, steps, w);
    var e, since := w.sessions[w.active].engine, w.since;
    JoinedParts(w.window, since, e);
    MirrorsShape(since.told, e);
    ShapeStored(since.told.rows, e.rows);
    BytesTold(w.window.items, since.told, since.rows, e);
    ToldSinceRows(since.told.rows, e.rows, since.rows);
    if !since.cut {
      WholeTold(since.told, e);
    }
  }

  /** After such a run and between turns, each call shows exactly once and in
      stored order if and only if every call of a reply stored since the last
      load was announced, and none has a NUL byte. */
  lemma {:induction false} JoinedCallsExact(w0: World, steps: seq<Step>, w: World)
    requires Initial(w0) && Run(w0, steps, w)
    requires w.active < |w.sessions| && !w.loading && OnItsWay(w, w.active) == []
    requires BetweenTurns(w.sessions[w.active].engine)
    ensures var rows := w.sessions[w.active].engine.rows;
            && w.since.rows <= |rows|
            && (Calls(w.window.items) == Calls(RowsItems(rows))
                <==> AllAnnounced(rows[w.since.rows..]) && WholeCalls(rows, w.since.rows))
  {
    hide Joined, Run, Initial, OnItsWay, BytesAgree, RowsAgree, OrderAgrees, LookAgrees, Agree, Calls, Log, Prompts, RowsItems,
      AllAnnounced, EngineOk, Mirrors, WholeCalls, WholePrompts, ToldSince, SameShape;
    RunShows(w0, steps, w);
    var e, since := w.sessions[w.active].engine, w.since;
    JoinedParts(w.window, since, e);
    MirrorsShape(since.told, e);
    TurnTold(since.told, e);
    StoredCalls(w.window.items, w.window.rowGen, since.told, since, e.rows);
    ToldSinceRows(since.told.rows, e.rows, since.rows);
    RestShape(since.told.rows, e.rows, since.rows);
  }

  /** After such a run and between turns, the prompts, calls and results on
      screen are exactly those a reload would show, in the same order, if and
      only if no reply stored since the last load made more than one call,
      every one was announced, no prompt or call has a NUL byte, and the
      results told are the stored ones: none of a dropped call or of an answer
      that found none to rewrite, none cut, and none left as it was before. */
  lemma {:induction false} JoinedOrderExact(w0: World, steps: seq<Step>, w: World)
    requires Initial(w0) && Run(w0, steps, w)
    requires w.active < |w.sessions| && !w.loading && OnItsWay(w, w.active) == []
    requires BetweenTurns(w.sessions[w.active].engine)
    ensures var e, since := w.sessions[w.active].engine, w.since;
            && since.rows <= |e.rows|
            && var rest := e.rows[since.rows..];
               Visible(w.window.items) == Visible(Loaded(e).items)
               <==> SingleCalls(rest) && AllAnnounced(rest) && WholePrompts(e.rows, since.rows)
                    && WholeCalls(e.rows, since.rows) && TellsResults(since.log, e.rows)
  {
    hide Joined, Run, Initial, OnItsWay, BytesAgree, OrderAgrees, LookAgrees, Agree, Calls, Log, Prompts, RowsItems, Visible,
      AllAnnounced, SingleCalls, EngineOk, Mirrors, WholeCalls, WholePrompts, ToldSince, SameShape, Outputs, NumBacked, TellsResults;
    RunShows(w0, steps, w);
    var e, since := w.sessions[w.active].engine, w.since;
    JoinedParts(w.window, since, e);
    MirrorsShape(since.told, e);
    TurnTold(since.told, e);
    StoredOrder(w.window.items, w.window.rowGen, since.told, since, e.rows);
    ToldSinceRows(since.told.rows, e.rows, since.rows);
    RestShape(since.told.rows, e.rows, since.rows);
    ResultsTold(w.window.items, since.told, since.log, e.rows);
    assert Loaded(e).items == RowsItems(e.rows) by { assert RowsItems(e.rows) + [] == RowsItems(e.rows); }
  }

  /** After such a run and between turns, what the screen shows of prompts,
      replies and their reasoning, calls and results is to the last byte what a
      reload would show of them if and only if, since the last load, all that
      holds of their order, no reply has a note, each was told whole, no step's
      reasoning came after text of it, and no bytes were shown of a step that
      was not stored in the end. Notices and summaries are not compared. */
  lemma {:induction false} JoinedLookExact(w0: World, steps: seq<Step>, w: World)
    requires Initial(w0) && Run(w0, steps, w)
    requires w.active < |w.sessions| && !w.loading && OnItsWay(w, w.active) == []
    requires BetweenTurns(w.sessions[w.active].engine)
    ensures var e, since := w.sessions[w.active].engine, w.since;
            && since.rows <= |e.rows| && |since.told.rows| == |e.rows|
            && var rest := e.rows[since.rows..];
               Look(w.window.items) == Look(Loaded(e).items)
               <==> SingleCalls(rest) && AllAnnounced(rest) && WholePrompts(e.rows, since.rows)
                    && WholeCalls(e.rows, since.rows) && TellsResults(since.log, e.rows)
                    && NoNotes(rest) && TellsBytes(since.told.rows, e.rows) && !since.mixed && !since.stray
  {
    hide Joined, Run, Initial, OnItsWay, BytesAgree, OrderAgrees, LookAgrees, Agree, Calls, Log, Prompts, RowsItems, Look,
      AllAnnounced, SingleCalls, NoNotes, EngineOk, WholeCalls, WholePrompts, ToldSince, SameShape, Outputs, NumBacked,
      TellsResults, TellsBytes, Loaded;
    RunShows(w0, steps, w);
    var e, since := w.sessions[w.active].engine, w.since;
    JoinedParts(w.window, since, e);
    MirrorsShape(since.told, e);
    TurnTold(since.told, e);
    LookExact(w.window, since.told, since, e);
    ToldSinceRows(since.told.rows, e.rows, since.rows);
    RestShape(since.told.rows, e.rows, since.rows);
    RestNotes(since.told.rows, e.rows, since.rows);
    ResultsTold(w.window.items, since.told, since.log, e.rows);
  }

  // ---- While messages are still on their way ----

  lemma {:induction false} HandleAllGrows(w: Window, evs: seq<Event>, step: nat, r: bool)
    ensures var items, items' := w.items, HandleAll(w, evs).items;
            && BytesOf(items, step, r) <= BytesOf(items', step, r)
            && Prompts(items) <= Prompts(items') && Calls(items) <= Calls(items')
            && Marks(Log(items)) <= Marks(Log(items'))
    decreases |evs|
  {
    hide BytesOf, Prompts, Calls, Log, Handle, Marks;
    if evs != [] {
      HandleAllGrows(w, evs[..|evs| - 1], step, r);
      HandleGrows(HandleAll(w, evs[..|evs| - 1]), evs[|evs| - 1], step, r);
    }
  }

  lemma {:induction false} FewerOf(a: seq<string>, b: seq<string>)
    requires a <= b
    ensures multiset(a) <= multiset(b)
  {
    assert b == a + b[|a|..];
  }

  /** At every moment of a run, drained or not: what the window shows of the
      step that streams is a prefix of what was told of it, of a stored reply a
      prefix of its text as told, its prompts are a prefix of those told, no
      call shows more often than it was told, and its results, call by call,
      are a prefix of those told, only their outputs may lag: nothing is ever
      shown twice, early or out of order. With nothing cut since the load, what
      was told of prompts, bytes and calls is what the engine holds. */
  lemma {:induction false} JoinedStreamSafe(w0: World, steps: seq<Step>, w: World)
    requires Initial(w0) && Run(w0, steps, w)
    requires w.active < |w.sessions| && !w.loading
    ensures var items, told, since := w.window.items, w.since.told, w.since;
            && ShowsNoMore(items, told, since)
            && Marks(Log(items)) <= Marks(since.log) && NumBacked(since.log) == |Log(RowsItems(w.sessions[w.active].engine.rows))|
            && (!since.cut ==> ShowsNoMore(items, w.sessions[w.active].engine, since))
  {
    hide Joined, Run, Initial, OnItsWay, BytesOf, Prompts, Calls, Log, RowsItems, HandleAll, OrderAgrees, LookAgrees, Marks,
      NumBacked, EngineOk, Mirrors, ToldSince, Outputs, Backed, Agree, ShowsNoMore, BytesAgree, Whole;
    RunShows(w0, steps, w);
    var e, since := w.sessions[w.active].engine, w.since;
    JoinedParts(Settled(w), since, e);
    MirrorsShape(since.told, e);
    ShapeStored(since.told.rows, e.rows);
    HandleAllGrows(w.window, OnItsWay(w, w.active), 0, true);
    SettledMore(w, since.told);
    if !since.cut {
      NoMoreWhole(w.window.items, since.told, e, since);
    }
  }

  /** What shows of bytes, prompts and calls is no more than this engine has. */
  ghost predicate ShowsNoMore(items: seq<Item>, e: Engine, since: Since) {
    && (e.inFlight.Some? ==>
          && BytesOf(items, e.inFlight.value.step, false) <= e.inFlight.value.text
          && BytesOf(items, e.inFlight.value.step, true) <= e.inFlight.value.reasoning)
    && (forall i :: 0 <= i < |e.rows| && e.rows[i].AssistantRow? ==>
          && BytesOf(items, e.rows[i].step, true) <= e.rows[i].reasoning
          && BytesOf(items, e.rows[i].step, false) <= e.rows[i].text + (if i < since.rows then e.rows[i].note else ""))
    && Prompts(items) <= Prompts(RowsItems(e.rows))
    && multiset(Calls(items)) <= multiset(Calls(RowsItems(e.rows)))
  }

  lemma {:induction false} SettledMore(w: World, told: Engine)
    requires w.active < |w.sessions|
    requires BytesAgree(Settled(w).items, told, w.since.rows) && RowsAgree(Settled(w).items, told, w.since.log)
    requires OrderAgrees(Settled(w).items, Settled(w).rowGen, told, w.since)
    ensures ShowsNoMore(w.window.items, told, w.since)
  {
    hide BytesOf, Prompts, Calls, Log, RowsItems, OrderAgrees, Marks, NumBacked, HandleAll, OnItsWay;
    var evs := OnItsWay(w, w.active);
    CallsBounded(Settled(w).items, Settled(w).rowGen, told, w.since);
    forall step: nat, r: bool ensures BytesOf(w.window.items, step, r) <= BytesOf(Settled(w).items, step, r) {
      HandleAllGrows(w.window, evs, step, r);
    }
    HandleAllGrows(w.window, evs, 0, true);
    FewerOf(Calls(w.window.items), Calls(Settled(w).items));
  }

  lemma {:induction false} NoMoreWhole(items: seq<Item>, told: Engine, e: Engine, since: Since)
    requires Whole(told, e) && Mirrors(told, e) && ShowsNoMore(items, told, since)
    ensures ShowsNoMore(items, e, since)
  {
    hide BytesOf, Prompts, Calls, Log, RowsItems;
    WholeRows(told.rows, e.rows);
    forall i | 0 <= i < |e.rows| && e.rows[i].AssistantRow? ensures told.rows[i] == e.rows[i] {}
  }

  // ---- A load that is not harmless ----

  lemma {:induction false} RunPush(w0: World, steps: seq<Step>, w: World, s: Step)
    requires Run(w0, steps, w) && Enabled(w, s) && (s.Load? ==> HarmlessLoad(w))
    ensures Run(w0, steps + [s], Do(w, s))
    decreases |steps|
  {
    hide Enabled, HarmlessLoad, Do;
    if steps == [] {
      assert [] + [s] == [s] && [s][1..] == [];
    } else {
      RunPush(Do(w0, steps[0]), steps[1..], w, s);
      assert (steps + [s])[1..] == steps[1..] + [s];
    }
  }

  lemma {:induction false} One(w0: World, steps: seq<Step>, w: World, s: Step) returns (steps': seq<Step>, w': World)
    requires Run(w0, steps, w) && Enabled(w, s) && !s.Load?
    ensures Run(w0, steps', w') && w' == Do(w, s)
  {
    RunPush(w0, steps, w, s);
    steps', w' := steps + [s], Do(w, s);
  }

  /** An event is recorded, admitted and queued. */
  lemma {:induction false} Published(w0: World, steps: seq<Step>, w: World, a: Action)
    returns (steps': seq<Step>, w': World)
    requires Run(w0, steps, w) && w.loading && |w.sessions| == 1 && w.sessions[0].outbox.None? && w.relay == 0
    requires !a.CutTail? && Allowed(w.sessions[0].engine, a) && Act(w.sessions[0].engine, a).1.Some? && !a.Persist?
    ensures Run(w0, steps', w')
    ensures w' == w.(sessions := [Session(Act(w.sessions[0].engine, a).0, None)],
                     queue := w.queue + [Post(0, CutEvent(Act(w.sessions[0].engine, a).1.value))])
  {
    hide Run, Act, Allowed, CutEvent;
    steps', w' := One(w0, steps, w, EngineStep(0, a));
    steps', w' := One(w0, steps', w', RelayCheck(0));
    steps', w' := One(w0, steps', w', RelaySend(0));
  }

  /** The start and the text of a reply reach the queue after the window has
      pointed the relay at the session, the reply is stored, and only then
      does the window load. */
  lemma {:induction false} LateLoad(text: string) returns (w0: World, steps: seq<Step>, w: World)
    requires text != "" && '\0' !in text
    ensures Initial(w0) && Run(w0, steps, w) && Enabled(w, Load) && !HarmlessLoad(w)
  {
    hide Harmless, Run, OnItsWay;
    w0 := World([Session(IDLE, None)], 0, 0, true, [], Window(None, 0, 0, 0, []), 
                Since(IDLE, 0, 0, [], false, false, false, false));
    EmptyRun(w0);
    CutExact(text);
    steps, w := One(w0, [], w0, Route);
    steps, w := Published(w0, steps, w, Begin);
    steps, w := Published(w0, steps, w, Text(text));
    steps, w := One(w0, steps, w, EngineStep(0, Persist("", [])));
    StoredReplyRepeats(text);
    var start, delta := StepStarted(0), TextDelta(0, 0, text);
    assert w.queue == [Post(0, start), Post(0, delta)] by {
      assert [] + [Post(0, start)] + [Post(0, delta)] == [Post(0, start), Post(0, delta)];
    }
    TwoPosted(w, start, delta);
  }

  lemma {:induction false} EmptyRun(w: World)
    ensures Run(w, [], w)
  {
  }

  lemma {:induction false} TwoPosted(w: World, a: Event, b: Event)
    requires |w.sessions| == 1 && w.sessions[0].outbox.None? && w.queue == [Post(0, a), Post(0, b)]
    ensures OnItsWay(w, 0) == [a, b]
  {
    assert w.queue[1..] == [Post(0, b)] && w.queue[1..][1..] == [];
    assert Posted(w.queue[1..][1..], 0) == [];
    assert Posted(w.queue[1..], 0) == [b] + [];
  }
}
