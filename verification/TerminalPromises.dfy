/** What every run of the terminal app means for its reader. */
module TerminalPromises {
  import opened Wire
  import opened Logs
  import opened MessageTable
  import NameTable
  import Store
  import Server
  import opened Feed
  import FeedRuns
  import opened Chat
  import PaneCache
  import opened App
  import opened Terminal
  import opened TerminalRuns

  lemma {:induction false} ReachesInv(poll: Poll, render: Renderer, dayOf: Calendar, maxRooms: nat,
                                      roomTable: seq<NameTable.Entry>, rows: seq<Row>, events: seq<Event>)
    requires Server.Servable(roomTable, rows)
    ensures Inv(Run(Boot(poll, render, dayOf, maxRooms, roomTable, rows), events))
  {
    BootHolds(poll, render, dayOf, maxRooms, roomTable, rows);
    RunKeepsInv(Boot(poll, render, dayOf, maxRooms, roomTable, rows), events);
  }

  // ---- The pane ----

  /** The front of a window of an ascending log is itself one unbroken run of it. */
  lemma FrontOfWindow(log: seq<Message>, lo: nat, hi: nat, front: seq<Message>, rest: seq<Message>)
    requires Ascending(log) && lo <= hi && front + rest == Between(log, lo, hi)
    ensures Ascending(front)
    ensures Rank(log, lo) + |front| <= |log|
    ensures front == log[Rank(log, lo)..Rank(log, lo) + |front|]
  {
    BetweenIsSlice(log, lo, hi);
    FrontOfSlice(log, Rank(log, lo), Rank(log, hi), front, rest);
    hide Rank, Between;
  }

  lemma FrontOfSlice<T>(s: seq<T>, a: nat, b: nat, front: seq<T>, rest: seq<T>)
    requires a <= b <= |s| && front + rest == s[a..b]
    ensures a + |front| <= |s| && front == s[a..a + |front|]
  {
    forall i | 0 <= i < |front| ensures front[i] == s[a + i] {
      assert front[i] == (front + rest)[i] == s[a..b][i];
    }
  }

  /** The pane, then what the feed still holds, is the open room's log from where the stream started. */
  ghost predicate PaneIsLog(chat: Chat, s: Stream, id: nat, log: seq<Message>, start: nat) {
    var from := Rank(log, start);
    && s.feed.room == id && chat.watched == Some(id)
    && Ascending(log) && Ascending(chat.messages)
    && chat.messages + s.feed.holding == Between(log, start, s.feed.cursor)
    && from + |chat.messages| <= |log|
    && chat.messages == log[from..from + |chat.messages|]
  }

  lemma PaneIsTold(w: World)
    requires Inv(w) && w.app.screen.Chatting?
    ensures OnRoom(w.app)
    ensures w.app.messages.None? ==> w.app.screen.chat.messages == [] && w.app.screen.chat.watched == None
    ensures w.app.messages.Some? ==>
              PaneIsLog(w.app.screen.chat, w.app.messages.value, OpenId(w.app), Log(w.rows, OpenId(w.app)), w.start)
  {
    StreamKeepsOut(w);
    if w.app.messages.Some? {
      StreamTells(w);
      hide Inv, Log, Between, Rank, Ascending;
      var feed, log := w.app.messages.value.feed, Log(w.rows, OpenId(w.app));
      FrontOfWindow(log, w.start, feed.cursor, w.app.screen.chat.messages, feed.holding);
    }
  }

  /** What the invariant says of an open stream. */
  lemma StreamTells(w: World)
    requires Inv(w) && w.app.messages.Some?
    ensures OnRoom(w.app)
    ensures var chat, feed, log := w.app.screen.chat, w.app.messages.value.feed, Log(w.rows, OpenId(w.app));
            && feed.room == OpenId(w.app) && chat.watched == Some(OpenId(w.app))
            && Ascending(log) && w.start <= feed.cursor
            && chat.messages + feed.holding == Between(log, w.start, feed.cursor)
  {
    assert Keyed(w.rows);
    LogAscends(w.rows, OpenId(w.app));
    hide Log, Keyed, Ascending, Between, Flatten;
  }

  /**
   In every state of every run, an open stream is the selected room's, and what the pane shows,
   followed by what the feed still holds, is that room's log from where the stream started to its
   cursor. Without a stream the pane is empty. So the pane never shows a message of another room.
   */
  lemma {:induction false} PaneIsTheLog(poll: Poll, render: Renderer, dayOf: Calendar, maxRooms: nat,
                                        roomTable: seq<NameTable.Entry>, rows: seq<Row>, events: seq<Event>)
    requires Server.Servable(roomTable, rows)
    ensures var w := Run(Boot(poll, render, dayOf, maxRooms, roomTable, rows), events);
            w.app.screen.Chatting? ==>
              && OnRoom(w.app)
              && (w.app.messages.None? ==> w.app.screen.chat.messages == [] && w.app.screen.chat.watched == None)
              && (w.app.messages.Some? ==>
                    PaneIsLog(w.app.screen.chat, w.app.messages.value, OpenId(w.app),
                              Log(w.rows, OpenId(w.app)), w.start))
  {
    ReachesInv(poll, render, dayOf, maxRooms, roomTable, rows, events);
    var w := Run(Boot(poll, render, dayOf, maxRooms, roomTable, rows), events);
    hide Inv, Boot, Run, PaneIsLog, Log;
    if w.app.screen.Chatting? {
      PaneIsTold(w);
    }
  }

  /** What any reaction of the app but a login or a batch does to its chat screen and its channel. */
  ghost predicate Reacts(a: App, b: App, render: Renderer, dayOf: Calendar) {
    && (b.channel == a.channel
        || (b.channel == a.channel + 1 && b.screen.SignIn? && b.answers == [] && !b.pending))
    && (b.screen.Chatting? ==> a.screen.Chatting?)
    && (a.screen.Chatting? && b.screen.Chatting? ==> ChatReacts(a.screen.chat, b.screen.chat, render, dayOf))
  }

  /** The pane is kept or emptied, nothing more is marked read, and a kept draw stays a true one. */
  ghost predicate ChatReacts(c: Chat, d: Chat, render: Renderer, dayOf: Calendar) {
    && (d.messages == c.messages || d.messages == [])
    && d.lastRead == c.lastRead
    && (PaneCache.Coherent(c, render, dayOf) ==> PaneCache.Coherent(d, render, dayOf))
  }

  lemma ChatStepReacts(c: Chat, e: PaneCache.Event, render: Renderer, dayOf: Calendar)
    requires c.selected < |c.rooms| && !e.Delivered?
    ensures ChatReacts(c, PaneCache.Step(c, e, render, dayOf), render, dayOf)
  {
    ChatStepKeepsPane(c, e, render, dayOf);
    hide PaneCache.Coherent, PaneCache.Step;
    if PaneCache.Coherent(c, render, dayOf) {
      PaneCache.StepIsCoherent(c, e, render, dayOf);
    }
  }

  lemma ChatStepKeepsPane(c: Chat, e: PaneCache.Event, render: Renderer, dayOf: Calendar)
    requires !e.Delivered?
    ensures var d := PaneCache.Step(c, e, render, dayOf);
            (d.messages == c.messages || d.messages == []) && d.lastRead == c.lastRead
  {
    hide Understand, Reselected, Fresh, PaneCache.KeepsRooms;
  }

  lemma RefusedReacts(a: App, f: Failure, render: Renderer, dayOf: Calendar)
    requires a.screen.Chatting? ==> OnRoom(a)
    ensures Reacts(a, OnRefused(a, f), render, dayOf)
    ensures Reacts(a, OnFailed(a, f), render, dayOf)
  {
    if a.screen.Chatting? && f.Other? {
      ChatStepReacts(a.screen.chat, PaneCache.Warned(f.why), render, dayOf);
    }
  }

  lemma AskOpenReacts(a: App, render: Renderer, dayOf: Calendar)
    requires a.screen.Chatting? ==> OnRoom(a)
    ensures Reacts(a, AskOpen(a).0, render, dayOf)
  {
    if a.screen.Chatting? {
      ChatStepReacts(a.screen.chat, PaneCache.Cleared, render, dayOf);
    }
  }

  lemma ReactsTwice(a: App, b: App, c: App, render: Renderer, dayOf: Calendar)
    requires Reacts(a, b, render, dayOf) && Reacts(b, c, render, dayOf) && b.channel == a.channel
    ensures Reacts(a, c, render, dayOf)
  {
  }

  lemma PressReacts(a: App, key: AppKey, render: Renderer, dayOf: Calendar)
    requires a.screen.Chatting? ==> OnRoom(a)
    ensures Reacts(a, Press(a, key).0, render, dayOf)
  {
    if a.screen.Chatting? && key.InChat? {
      ChatStepReacts(a.screen.chat, PaneCache.Pressed(key.key, a.pending), render, dayOf);
      KeyKeepsReading(a.screen.chat, key.key, a.pending);
      var (after, intent) := HandleKey(a.screen.chat, key.key, a.pending);
      IntentReacts(a, after, intent, render, dayOf);
    }
  }

  lemma IntentReacts(a: App, after: Chat, intent: Option<Intent>, render: Renderer, dayOf: Calendar)
    requires a.screen.Chatting? && after.selected < |after.rooms|
    requires ChatReacts(a.screen.chat, after, render, dayOf)
    ensures Reacts(a, AskFor(a.(screen := Chatting(after)), intent).0, render, dayOf)
  {
    var b := a.(screen := Chatting(after));
    AskOpenReacts(b, render, dayOf);
    ReactsTwice(a, b, AskOpen(b).0, render, dayOf);
  }

  lemma ListReacts(a: App, list: Result<Snapshot, Failure>, render: Renderer, dayOf: Calendar)
    requires OnRoom(a)
    requires list.Ok? ==> PaneCache.KeepsRooms(a.screen.chat.rooms, list.value.Rooms())
    ensures Reacts(a, ApplyRooms(a, list).0, render, dayOf)
  {
    match list
    case Err(f) => RefusedReacts(a, f, render, dayOf);
    case Ok(s) =>
      ChatStepReacts(a.screen.chat, PaneCache.Listed(s.Rooms()), render, dayOf);
      var b := a.(screen := Chatting(ShowRooms(a.screen.chat, s.Rooms())));
      PaneCache.SelectionKept(a.screen.chat, s.Rooms());
      AskOpenReacts(b, render, dayOf);
      ReactsTwice(a, b, AskOpen(b).0, render, dayOf);
  }

  /** The failure an answer carries, if it carries one. */
  function FailureOf(answer: Answer): Option<Failure> {
    match answer
    case Connected(Err(f)) => Some(f)
    case Registered(Err(f)) => Some(f)
    case LoggedIn(_, Err(f)) => Some(f)
    case RoomOpened(Err(f)) => Some(f)
    case MessageSent(_, Err(f)) => Some(f)
    case RoomCreated(Err(f)) => Some(f)
    case _ => None
  }

  /** The app an answer's failure is reported to. */
  function Reporting(a: App, answer: Answer): App {
    var quiet := a.(pending := false);
    if answer.RoomOpened? then quiet.(reopen := true)
    else if answer.MessageSent? && a.screen.Chatting?
    then quiet.(screen := Chatting(Restore(a.screen.chat, answer.body))) else quiet
  }

  lemma FailedActIs(a: App, answer: Answer)
    requires FailureOf(answer).Some?
    ensures Act(a, answer).0 == OnRefused(Reporting(a, answer), FailureOf(answer).value)
  {
    hide OnRefused;
  }

  lemma ReportingReacts(a: App, answer: Answer, render: Renderer, dayOf: Calendar)
    requires a.screen.Chatting? ==> OnRoom(a)
    ensures Reacts(a, Reporting(a, answer), render, dayOf) && Reporting(a, answer).channel == a.channel
    ensures Reporting(a, answer).screen.Chatting? ==> OnRoom(Reporting(a, answer))
  {
    if answer.MessageSent? && a.screen.Chatting? {
      ChatStepReacts(a.screen.chat, PaneCache.Restored(answer.body), render, dayOf);
    }
  }

  lemma ActReacts(a: App, answer: Answer, render: Renderer, dayOf: Calendar)
    requires a.screen.Chatting? ==> OnRoom(a)
    requires AnswerFits(a.screen, answer) && !(answer.LoggedIn? && answer.listed.Ok?)
    ensures Reacts(a, Act(a, answer).0, render, dayOf)
  {
    if FailureOf(answer).Some? {
      FailedActIs(a, answer);
      ReportingReacts(a, answer, render, dayOf);
      hide Act, Reacts, OnRefused, Reporting;
      var f := FailureOf(answer).value;
      RefusedReacts(Reporting(a, answer), f, render, dayOf);
      ReactsTwice(a, Reporting(a, answer), OnRefused(Reporting(a, answer), f), render, dayOf);
    } else if answer.RoomOpened? {
      ChatStepReacts(a.screen.chat, PaneCache.Watched(answer.feed.value.room), render, dayOf);
      hide ChatReacts;
    } else {
      hide AskOpen;
    }
  }

  /** A step that is neither the login being answered nor a batch being handed over. */
  predicate Ordinary(w: World, e: Event) {
    && !(e.AnswerTaken? && w.app.answers != [] && w.app.answers[0].LoggedIn? && w.app.answers[0].listed.Ok?)
    && !(e.StreamMoves? && w.app.messages.Some? && |FeedRuns.Step(AsRun(w), e.e).delivered| > |w.batches|)
  }

  lemma AnswerReacts(w: World)
    requires Inv(w) && Ordinary(w, AnswerTaken) && w.app.answers != []
    ensures Reacts(w.app, TakeAnswer(w).app, w.render, w.dayOf)
  {
    ReadsFromInv(w);
    hide Inv;
    var a := w.app.(answers := w.app.answers[1..]);
    assert a.screen.Chatting? ==> OnRoom(a);
    ActReacts(a, w.app.answers[0], w.render, w.dayOf);
    assert TakeAnswer(w).app == Act(a, w.app.answers[0]).0;
    SameScreenReacts(w.app, a, TakeAnswer(w).app, w.render, w.dayOf);
  }

  lemma SameScreenReacts(a: App, b: App, c: App, render: Renderer, dayOf: Calendar)
    requires a.screen == b.screen && a.channel == b.channel
    ensures Reacts(a, b, render, dayOf)
    ensures Reacts(b, c, render, dayOf) ==> Reacts(a, c, render, dayOf)
  {
  }

  lemma StreamFailReacts(w: World, f: Failure)
    requires Inv(w) && w.app.messages.Some?
    ensures Reacts(w.app, Step(w, StreamFails(f)).app, w.render, w.dayOf)
  {
    var moved := StreamMoved(w, FeedRuns.FailFetch).app;
    StreamFailSettles(w);
    StreamFailIs(w, f);
    hide Inv, StreamMoved, Step, OnFailed;
    SameScreenReacts(w.app, w.app, w.app, w.render, w.dayOf);
    RefusedReacts(moved, f, w.render, w.dayOf);
    SameScreenReacts(w.app, moved, OnFailed(moved, f), w.render, w.dayOf);
  }

  lemma StreamFailIs(w: World, f: Failure)
    requires w.app.messages.Some?
    ensures Step(w, StreamFails(f)).app
         == if w.app.messages.value.phase == Fetching
            then OnFailed(StreamMoved(w, FeedRuns.FailFetch).app, f) else w.app
  {
  }

  lemma StreamFailSettles(w: World)
    requires Inv(w) && w.app.messages.Some?
    ensures StreamMoved(w, FeedRuns.FailFetch).app.channel == w.app.channel
    ensures StreamMoved(w, FeedRuns.FailFetch).app.screen == w.app.screen
    ensures OnRoom(w.app)
  {
    InvWatches(w);
    hide Inv;
    MoveDelivers(AsRun(w), FeedRuns.FailFetch);
  }

  lemma SidebarReacts(w: World, e: Event)
    requires Inv(w) && w.app.rooms.Some? && (e.ListArrives? || e.ListFails?)
    ensures Reacts(w.app, Step(w, e).app, w.render, w.dayOf)
  {
    ReadsFromInv(w);
    if e.ListArrives? && w.app.rooms.value.reply.Some? {
      ArrivingKeepsRooms(w);
    }
    hide Inv;
    SidebarIs(w, e);
    var bare := w.app.(rooms := Some(Sidebar(None)));
    hide Step, ApplyRooms, Reacts, PaneCache.KeepsRooms, Snapshot.Rooms;
    SameScreenReacts(w.app, w.app, w.app, w.render, w.dayOf);
    if e.ListFails? {
      ListReacts(bare, Err(e.f), w.render, w.dayOf);
      SameScreenReacts(w.app, bare, ApplyRooms(bare, Err(e.f)).0, w.render, w.dayOf);
    } else if w.app.rooms.value.reply.Some? {
      var list := Ok(w.app.rooms.value.reply.value);
      ListReacts(bare, list, w.render, w.dayOf);
      SameScreenReacts(w.app, bare, ApplyRooms(bare, list).0, w.render, w.dayOf);
    }
  }

  /** What an event of the sidebar's stream comes to. */
  lemma SidebarIs(w: World, e: Event)
    requires w.app.rooms.Some? && (e.ListArrives? || e.ListFails?)
    ensures var bare := w.app.(rooms := Some(Sidebar(None)));
            Step(w, e).app == if e.ListFails? then ApplyRooms(bare, Err(e.f)).0
                              else if w.app.rooms.value.reply.None? then w.app
                              else ApplyRooms(bare, Ok(w.app.rooms.value.reply.value)).0
  {
    hide ApplyRooms;
  }

  lemma QuietReacts(w: World, e: Event)
    requires e.PostTo? || e.NewRoom? || e.Tick? || e.ServeCall? || e.FinishCall? || e.ServeList?
             || (e.StreamMoves? && Ordinary(w, e))
    ensures Reacts(w.app, Step(w, e).app, w.render, w.dayOf)
  {
  }

  lemma StepReacts(w: World, e: Event)
    requires Inv(w) && Ordinary(w, e)
    ensures Reacts(w.app, Step(w, e).app, w.render, w.dayOf)
  {
    ReadsFromInv(w);
    SameScreenReacts(w.app, w.app, w.app, w.render, w.dayOf);
    hide Inv, Reacts;
    match e
    case KeyPressed(key) => PressReacts(w.app, key, w.render, w.dayOf);
    case AnswerTaken =>
      if w.app.answers != [] {
        AnswerReacts(w);
      }
    case StreamFails(f) =>
      if w.app.messages.Some? {
        StreamFailReacts(w, f);
      }
    case ListArrives =>
      if w.app.rooms.Some? {
        SidebarReacts(w, e);
      }
    case ListFails(f) =>
      if w.app.rooms.Some? {
        SidebarReacts(w, e);
      }
    case DrawScreen(area) => DrawReacts(w, area);
    case _ => QuietReacts(w, e);
  }

  lemma DrawReacts(w: World, area: Rect)
    requires w.app.screen.Chatting? ==> OnRoom(w.app)
    ensures Reacts(w.app, Step(w, DrawScreen(area)).app, w.render, w.dayOf)
  {
    if w.app.screen.Chatting? {
      ChatStepReacts(w.app.screen.chat, PaneCache.DrawnAt(area), w.render, w.dayOf);
    }
  }

  /** A batch that a read of the stream hands over. */
  ghost predicate Delivers(w: World, e: Event) {
    && w.app.messages.Some? && e.StreamMoves? && !e.e.PostTo? && !e.e.Tick?
    && |FeedRuns.Step(AsRun(w), e.e).delivered| > |w.batches|
    && Step(w, e) == StreamMoved(w, e.e)
  }

  /** The answer to a login being taken. */
  ghost predicate LogsIn(w: World, e: Event) {
    && w.app.answers != [] && w.app.answers[0].LoggedIn? && w.app.answers[0].listed.Ok?
    && Step(w, e) == TakeAnswer(w)
  }

  lemma StepsByKind(w: World, e: Event)
    ensures Ordinary(w, e) || Delivers(w, e) || LogsIn(w, e) || Step(w, e) == w
  {
    hide TakeAnswer, StreamMoved;
  }

  lemma ReadsFromInv(w: World)
    requires Inv(w)
    ensures w.app.screen.Chatting? ==> OnRoom(w.app)
    ensures w.app.messages.Some? || w.app.rooms.Some? ==> w.app.screen.Chatting?
    ensures forall i :: 0 <= i < |w.app.answers| ==> AnswerFits(w.app.screen, w.app.answers[i])
  {
  }

  lemma ArrivingKeepsRooms(w: World)
    requires Inv(w) && w.app.rooms.Some? && w.app.rooms.value.reply.Some?
    ensures w.app.screen.Chatting?
    ensures PaneCache.KeepsRooms(w.app.screen.chat.rooms, w.app.rooms.value.reply.value.Rooms())
  {
    NewerListKeepsRooms(w.roomTable, w.shown, w.app.rooms.value.reply.value);
  }

  /** A batch handed over: the pane grows by it, and it is past everything read in its room. */
  lemma BatchReacts(w: World, e: FeedRuns.Event)
    requires Inv(w) && w.app.messages.Some? && |FeedRuns.Step(AsRun(w), e).delivered| > |w.batches|
    requires !e.PostTo? && !e.Tick?
    ensures var t, batch := StreamMoved(w, e), FeedRuns.Step(AsRun(w), e).delivered[|w.batches|];
            && batch != []
            && t.app.screen == Chatting(Append(w.app.screen.chat, batch))
            && t.app.channel == w.app.channel
            && LastRead(w.app.screen.chat, OpenId(w.app)) <= Newest(batch)
            && OnRoom(w.app)
  {
    MoveDelivers(AsRun(w), e);
  }

  /** A key that moves the selection: there is a room to move to, and no call is unanswered. */
  predicate MovesSelection(a: App, key: AppKey) {
    && a.screen.Chatting? && !a.exit && !a.pending && key.InChat?
    && ((key.key.Tab? && a.screen.chat.selected + 1 < |a.screen.chat.rooms|)
        || (key.key.BackTab? && a.screen.chat.selected > 0))
  }

  /** The only two things that ever change the pane of a screen that stays: a batch of its stream, and moving on. */
  ghost predicate PaneMoves(w: World, t: World, e: Event)
    requires w.app.screen.Chatting? && t.app.screen.Chatting?
  {
    var before, after := w.app.screen.chat.messages, t.app.screen.chat.messages;
    || after == before
    || (e.StreamMoves? && exists batch: seq<Message> :: batch != [] && after == before + batch)
    || (e.KeyPressed? && MovesSelection(w.app, e.key) && after == [])
  }

  /** Two apps whose panes, if they show one, are the same. */
  predicate SamePane(a: App, b: App) {
    a.screen.Chatting? && b.screen.Chatting? ==> b.screen.chat.messages == a.screen.chat.messages
  }

  lemma StayingKeepsPane(a: App, key: AppKey)
    requires OnRoom(a) && !a.exit && !MovesSelection(a, key)
    ensures SamePane(a, Press(a, key).0)
  {
    hide Understand, Ask;
    if key.InChat? {
      KeyKeepsReading(a.screen.chat, key.key, a.pending);
      SamePaneAsked(a, HandleKey(a.screen.chat, key.key, a.pending).0);
    }
  }

  lemma SamePaneAsked(a: App, after: Chat)
    ensures var b := a.(screen := Chatting(after));
            && (forall body :: AskSend(b, body).0.screen == b.screen)
            && (forall name :: AskCreate(b, name).0.screen == b.screen)
  {
  }

  lemma AnswersKeepPane(a: App, answer: Answer)
    requires a.screen.Chatting? && AnswerFits(a.screen, answer)
    ensures SamePane(a, Act(a, answer).0)
  {
  }

  lemma FailuresKeepPane(w: World, f: Failure)
    requires Inv(w) && w.app.messages.Some?
    ensures SamePane(w.app, Step(w, StreamFails(f)).app)
  {
    StreamFailSettles(w);
    StreamFailIs(w, f);
    hide Inv, StreamMoved, Step;
  }

  lemma ListsKeepPane(w: World, e: Event)
    requires w.app.rooms.Some? && (e.ListArrives? || e.ListFails?) && !w.app.reopen
    ensures SamePane(w.app, Step(w, e).app)
  {
    SidebarIs(w, e);
    hide Step, Reselected;
  }

  lemma OthersKeepPane(w: World, e: Event)
    requires !e.KeyPressed? && !e.AnswerTaken? && !e.StreamFails? && !e.ListArrives? && !e.ListFails?
    requires Ordinary(w, e)
    ensures SamePane(w.app, Step(w, e).app)
  {
    hide Post, Fresh;
  }

  lemma KeyKeepsPane(w: World, key: AppKey)
    requires OnRoom(w.app) && !MovesSelection(w.app, key)
    ensures SamePane(w.app, Step(w, KeyPressed(key)).app)
  {
    if !w.app.exit {
      StayingKeepsPane(w.app, key);
      hide Press, MovesSelection;
    }
  }

  lemma AnswerKeepsPane(w: World)
    requires w.app.screen.Chatting?
    requires forall i :: 0 <= i < |w.app.answers| ==> AnswerFits(w.app.screen, w.app.answers[i])
    ensures SamePane(w.app, Step(w, AnswerTaken).app)
  {
    if !w.app.exit && w.app.answers != [] {
      var a := w.app.(answers := w.app.answers[1..]);
      AnswersKeepPane(a, w.app.answers[0]);
      TakenPane(w, a);
      hide Act, AnswerFits, TakeAnswer;
    }
  }

  /** While its stream is open, no ordinary step but moving the selection touches the pane. */
  lemma OrdinaryKeepsPane(w: World, e: Event)
    requires Inv(w) && w.app.messages.Some? && Ordinary(w, e)
    requires e.KeyPressed? ==> !MovesSelection(w.app, e.key)
    ensures SamePane(w.app, Step(w, e).app)
  {
    hide Inv, SamePane, MovesSelection, OnRoom, AnswerFits, Ordinary, Step;
    ReadsFromInv(w);
    StreamKeepsOut(w);
    match e
    case KeyPressed(key) => KeyKeepsPane(w, key);
    case AnswerTaken => AnswerKeepsPane(w);
    case StreamFails(f) => FailuresKeepPane(w, f);
    case ListArrives => SidebarKeepsPane(w, e);
    case ListFails(_) => SidebarKeepsPane(w, e);
    case _ => OthersKeepPane(w, e);
  }

  lemma SidebarKeepsPane(w: World, e: Event)
    requires (e.ListArrives? || e.ListFails?) && !w.app.reopen
    ensures SamePane(w.app, Step(w, e).app)
  {
    if w.app.rooms.Some? {
      ListsKeepPane(w, e);
    } else {
      SamePaneSelf(w.app);
    }
  }

  lemma SamePaneSelf(a: App)
    ensures SamePane(a, a)
  {
  }

  lemma TakenPane(w: World, a: App)
    requires w.app.answers != [] && a == w.app.(answers := w.app.answers[1..])
    ensures SamePane(w.app, TakeAnswer(w).app) <==> SamePane(a, Act(a, w.app.answers[0]).0)
  {
    hide Act;
  }

  lemma StreamKeepsOut(w: World)
    requires Inv(w)
    ensures w.app.messages.Some? ==> OnRoom(w.app) && !w.app.reopen
    ensures w.app.screen.Chatting? ==> OnRoom(w.app)
    ensures w.app.screen.Chatting? && w.app.messages.None? ==>
              w.app.screen.chat.messages == [] && w.app.screen.chat.watched == None
  {
  }

  lemma MovingEmpties(a: App, key: AppKey)
    requires OnRoom(a) && MovesSelection(a, key) && Press(a, key).0.screen.Chatting?
    ensures Press(a, key).0.screen.chat.messages == []
  {
  }

  lemma MovingMovesPane(w: World, key: AppKey)
    requires OnRoom(w.app) && MovesSelection(w.app, key) && Step(w, KeyPressed(key)).app.screen.Chatting?
    ensures PaneMoves(w, Step(w, KeyPressed(key)), KeyPressed(key))
  {
    MovingEmpties(w.app, key);
    hide Press, HandleKey;
  }

  lemma OrdinaryMovesPane(w: World, e: Event)
    requires Inv(w) && Ordinary(w, e) && w.app.screen.Chatting? && Step(w, e).app.screen.Chatting?
    requires e.KeyPressed? ==> !MovesSelection(w.app, e.key)
    ensures Step(w, e).app.screen.chat.messages == w.app.screen.chat.messages
  {
    hide Step, MovesSelection;
    if w.app.messages.Some? {
      OrdinaryKeepsPane(w, e);
      hide Inv;
    } else {
      StreamKeepsOut(w);
      StepReacts(w, e);
      hide Inv;
    }
  }

  lemma NoLoginOnChat(w: World, e: Event)
    requires Inv(w) && w.app.screen.Chatting?
    ensures !LogsIn(w, e)
  {
    hide Inv, TakeAnswer, Step;
    ReadsFromInv(w);
  }

  lemma BatchMovesPane(w: World, e: Event)
    requires Inv(w) && Delivers(w, e) && w.app.screen.Chatting?
    ensures Step(w, e).app.screen.Chatting? && PaneMoves(w, Step(w, e), e)
  {
    hide Inv, Step, StreamMoved, MovesSelection, FeedRuns.Step;
    BatchReacts(w, e.e);
  }

  /**
   Only the open stream adds to the pane, and only moving the selection empties it. Nothing else
   touches it: no answer, list, failure, draw or other key, and so no send, acknowledged or refused.
   */
  lemma {:induction false} OnlyTheStreamFills(w: World, e: Event)
    requires Inv(w) && w.app.screen.Chatting? && Step(w, e).app.screen.Chatting?
    ensures PaneMoves(w, Step(w, e), e)
  {
    hide Inv, Step, MovesSelection, Ordinary, Delivers, LogsIn, OnRoom;
    ReadsFromInv(w);
    StepsByKind(w, e);
    NoLoginOnChat(w, e);
    if e.KeyPressed? && MovesSelection(w.app, e.key) {
      MovingMovesPane(w, e.key);
    } else if Ordinary(w, e) {
      OrdinaryMovesPane(w, e);
    } else if Delivers(w, e) {
      BatchMovesPane(w, e);
    }
  }

  /** The answer to a send that was acknowledged frees the app for the next call, and does nothing else. */
  lemma AcknowledgedSendMovesNothing(w: World, body: string)
    requires Inv(w) && w.app.answers != [] && w.app.answers[0] == MessageSent(body, Ok(()))
    ensures TakeAnswer(w) == w.(app := w.app.(pending := false, answers := []))
    ensures !w.app.exit ==> Step(w, AnswerTaken) == TakeAnswer(w)
  {
    hide Inv, Base, StreamHolds, OpeningsHold, Count;
    TakingQuiets(w);
  }

  // ---- Calls ----

  /** The most answers the channel holds. */
  const MAX_ANSWERS: nat := 8

  /**
   In every state, calls that are out and answers that wait number one together while something is
   pending and none otherwise, so the channel never fills. They are always the showing screen's own,
   and there is a stream only on the chat screen.
   */
  lemma {:induction false} CallsArePaired(poll: Poll, render: Renderer, dayOf: Calendar, maxRooms: nat,
                                          roomTable: seq<NameTable.Entry>, rows: seq<Row>, events: seq<Event>)
    requires Server.Servable(roomTable, rows)
    ensures var w := Run(Boot(poll, render, dayOf, maxRooms, roomTable, rows), events);
            OneCallAtATime(w.app, w.live)
  {
    ReachesInv(poll, render, dayOf, maxRooms, roomTable, rows, events);
    PairedIsOneCall(Run(Boot(poll, render, dayOf, maxRooms, roomTable, rows), events));
  }

  ghost predicate OneCallAtATime(app: App, live: seq<Live>) {
    && Count(live, app.channel) + |app.answers| == (if app.pending then 1 else 0)
    && |app.answers| < MAX_ANSWERS
    && (forall i :: 0 <= i < |live| && live[i].channel == app.channel ==> CallFits(app.screen, live[i].call))
    && (forall i :: 0 <= i < |app.answers| ==> AnswerFits(app.screen, app.answers[i]))
    && (app.messages.Some? || app.rooms.Some? || app.reopen ==> app.screen.Chatting?)
  }

  lemma {:induction false} PairedIsOneCall(w: World)
    requires Inv(w)
    ensures OneCallAtATime(w.app, w.live)
  {
  }

  /** A channel is dropped by signing out alone, which strands every call made on it. */
  lemma {:induction false} SigningOutStrands(w: World, e: Event)
    requires Inv(w)
    ensures var t := Step(w, e);
            && w.app.channel <= t.app.channel <= w.app.channel + 1
            && (t.app.channel > w.app.channel ==>
                  && t.app.screen.SignIn? && t.app.answers == [] && !t.app.pending
                  && forall i :: 0 <= i < |t.live| ==> t.live[i].channel < t.app.channel)
  {
    StepKeepsInv(w, e);
    ChannelMoves(w, e);
    if !Step(w, e).app.pending {
      StrandedByInv(Step(w, e));
    }
    hide Inv, Step;
  }

  lemma ChannelMoves(w: World, e: Event)
    requires Inv(w)
    ensures var a, b := w.app, Step(w, e).app;
            || b.channel == a.channel
            || (b.channel == a.channel + 1 && b.screen.SignIn? && b.answers == [] && !b.pending)
  {
    StepsByKind(w, e);
    LoginsStay(w);
    hide Inv, Step, TakeAnswer, StreamMoved;
    if Ordinary(w, e) {
      StepReacts(w, e);
    } else if Delivers(w, e) {
      BatchReacts(w, e.e);
    }
  }

  lemma LoginsStay(w: World)
    ensures w.app.answers != [] && w.app.answers[0].LoggedIn? && w.app.answers[0].listed.Ok? ==>
              TakeAnswer(w).app.channel == w.app.channel
  {
  }

  /** Nothing pending means nothing out on the app's own channel. */
  lemma StrandedByInv(t: World)
    requires Inv(t) && !t.app.pending
    ensures forall i :: 0 <= i < |t.live| ==> t.live[i].channel < t.app.channel
  {
    CountZero(t.live, t.app.channel);
  }

  /** A call that answers through a channel the app has dropped never reaches the app again. */
  lemma {:induction false} StrandedNeverAnswers(w: World, events: seq<Event>, i: nat, result: Result<(), Failure>)
    requires Inv(w)
    ensures Inv(Run(w, events)) && w.app.channel <= Run(w, events).app.channel
    ensures i < |Run(w, events).live| && Run(w, events).live[i].channel < w.app.channel ==>
              Step(Run(w, events), FinishCall(i, result)).app == Run(w, events).app
  {
    hide Inv;
    if events != [] {
      var front := events[..|events| - 1];
      StrandedNeverAnswers(w, front, i, result);
      StepKeepsInv(Run(w, front), events[|events| - 1]);
      SigningOutStrands(Run(w, front), events[|events| - 1]);
    }
  }

  // ---- No room is orphaned ----

  /**
   On the chat screen, in every state, the selected room is watched, or being opened by the one call
   that is out, or waiting to be asked for again. Asking again never runs beside a stream.
   */
  lemma {:induction false} NoRoomIsOrphaned(poll: Poll, render: Renderer, dayOf: Calendar, maxRooms: nat,
                                           roomTable: seq<NameTable.Entry>, rows: seq<Row>, events: seq<Event>)
    requires Server.Servable(roomTable, rows)
    ensures var w := Run(Boot(poll, render, dayOf, maxRooms, roomTable, rows), events);
            w.app.screen.Chatting? ==>
              && OnRoom(w.app)
              && (w.app.messages.Some? || w.app.reopen || (w.app.pending && Opening(w.app, w.live)))
              && (w.app.reopen || Opening(w.app, w.live) ==> w.app.messages.None?)
              && forall i :: 0 <= i < |w.live| && w.live[i].channel == w.app.channel && w.live[i].call.OpenFeed? ==>
                   w.live[i].call.room == OpenId(w.app)
  {
    var w := Run(Boot(poll, render, dayOf, maxRooms, roomTable, rows), events);
    ReachesInv(poll, render, dayOf, maxRooms, roomTable, rows, events);
    if w.app.screen.Chatting? {
      if Opening(w.app, w.live) {
        OpeningIsPending(w);
      }
      forall i | 0 <= i < |w.live| && w.live[i].channel == w.app.channel && w.live[i].call.OpenFeed?
        ensures w.live[i].call.room == OpenId(w.app)
      {
        assert CallOpens(w, w.live[i]);
      }
    }
  }

  lemma OpeningIsPending(w: World)
    requires Inv(w) && w.app.screen.Chatting? && Opening(w.app, w.live)
    ensures w.app.pending && w.app.messages.None?
  {
    CountZero(w.live, w.app.channel);
    if i :| 0 <= i < |w.live| && w.live[i].channel == w.app.channel && w.live[i].call.OpenFeed? {
      assert CallOpens(w, w.live[i]);
    } else {
      var i :| 0 <= i < |w.app.answers| && w.app.answers[i].RoomOpened?;
      assert AnswerOpens(w, w.app.answers[i]);
    }
  }

  /** A list that arrives while the room waits to be asked for again, with nothing out, starts the open. */
  lemma ListReopens(w: World)
    requires Inv(w) && w.app.reopen && !w.app.pending
    requires w.app.rooms.Some? && w.app.rooms.value.reply.Some?
    ensures var t := Step(w, ListArrives);
            && t.live == w.live + [Live(OpenFeed(OpenId(w.app)), w.app.channel, None)]
            && t.app.pending && t.app.messages.None? && t.app.screen.Chatting?
            && t.app.screen.chat.messages == []
  {
    var s := w.app.rooms.value.reply.value;
    ListArrivesIs(w, s);
    ShownIsSame(w, s);
    ShownKeepsInv(w, s);
    OpeningStarts(Shown(w, s));
  }

  /** Nothing watches a room, nothing is opening one, and nothing waits to. */
  ghost predicate Unopened(w: World) {
    && w.app.client && w.app.messages.None? && !w.app.reopen && w.app.screen.Chatting?
    && (w.app.screen.chat.selected < |w.app.screen.chat.rooms| || w.app.screen.chat.selected == 0)
    && (forall i :: 0 <= i < |w.live| && w.live[i].channel == w.app.channel ==>
          w.live[i].call.PostBody? || w.live[i].call.MakeRoom?)
    && (forall i :: 0 <= i < |w.app.answers| ==> w.app.answers[i].MessageSent? || w.app.answers[i].RoomCreated?)
  }

  /**
   What non-empty lists are needed for. A login opens the first room it lists, and with an empty list
   it opens none: no stream, no call, and nothing that waits to ask.
   */
  lemma LoginOpensIffListed(w: World, username: string, listed: Snapshot)
    requires Paired(w.app, w.live) && w.app.screen.SignIn? && w.app.answers == [LoggedIn(username, Ok(listed))]
    ensures var t := TakeAnswer(w);
            && t.live == w.live + (if listed.rooms == [] then []
                                   else [Live(OpenFeed(listed.rooms[0].id), w.app.channel, None)])
            && (listed.rooms == [] ==> Unopened(t))
  {
    CountZero(w.live, w.app.channel);
    assert w.app.answers[1..] == [];
  }

  /** A key that opens nothing leaves the app as it was, but for its screen and a call of another kind. */
  lemma KeyAsksElse(a: App, key: AppKey)
    requires a.screen.Chatting? && !a.exit && !MovesSelection(a, key)
    requires a.screen.chat.selected < |a.screen.chat.rooms| || a.screen.chat.selected == 0
    ensures var (b, call) := Press(a, key);
            && b.screen.Chatting? && b.screen.chat.rooms == a.screen.chat.rooms
            && b.screen.chat.selected == a.screen.chat.selected
            && b == a.(screen := b.screen, pending := b.pending, exit := b.exit)
            && (call.Some? ==> call.value.PostBody? || call.value.MakeRoom?)
  {
    hide Understand;
  }

  lemma UnopenedKey(w: World, key: AppKey)
    requires Unopened(w) && !MovesSelection(w.app, key)
    ensures Unopened(Step(w, KeyPressed(key)))
  {
    if !w.app.exit {
      KeyAsksElse(w.app, key);
      hide Press, MovesSelection;
    }
  }

  lemma UnopenedAnswer(w: World)
    requires Unopened(w) && w.app.answers != []
    ensures Unopened(TakeAnswer(w)) || !TakeAnswer(w).app.screen.Chatting?
  {
  }

  lemma UnopenedCall(w: World, e: Event)
    requires Unopened(w) && (e.ServeCall? || e.FinishCall?)
    ensures Unopened(Step(w, e))
  {
    hide ServeFor, Open;
    var t := Step(w, e);
    forall i | 0 <= i < |t.live| ensures exists k :: 0 <= k < |w.live| && t.live[i].call == w.live[k].call
                                                    && t.live[i].channel == w.live[k].channel {
      if e.FinishCall? && t.live != w.live {
        assert t.live[i] == w.live[if i < e.i then i else i + 1];
      } else {
        assert t.live[i].call == w.live[i].call;
      }
    }
  }

  lemma UnopenedElse(w: World, e: Event)
    requires Unopened(w)
    requires !e.KeyPressed? && !e.AnswerTaken? && !e.ServeCall? && !e.FinishCall?
    ensures Unopened(Step(w, e)) || !Step(w, e).app.screen.Chatting?
  {
    hide Post, Fresh;
  }

  /** An event that neither moves the selection nor ends the session. */
  predicate StaysPut(w: World, e: Event) {
    Step(w, e).app.screen.Chatting? && (e.KeyPressed? ==> !MovesSelection(w.app, e.key))
  }

  lemma UnopenedStep(w: World, e: Event)
    requires Unopened(w) && StaysPut(w, e)
    ensures Unopened(Step(w, e))
  {
    hide Unopened, MovesSelection, TakeAnswer;
    match e
    case KeyPressed(key) => UnopenedKey(w, key);
    case AnswerTaken =>
      if w.app.answers != [] {
        UnopenedAnswer(w);
      }
    case ServeCall(_) => UnopenedCall(w, e);
    case FinishCall(_, _) => UnopenedCall(w, e);
    case _ => UnopenedElse(w, e);
  }

  /** While nothing moves the selection, no event opens a room: not a list, an answer or any other key. */
  lemma {:induction false} UnopenedUntilMoved(w: World, events: seq<Event>)
    requires Unopened(w)
    requires forall i :: 0 <= i < |events| ==> StaysPut(Run(w, events[..i]), events[i])
    ensures Unopened(Run(w, events))
  {
    hide Step, Unopened, StaysPut;
    if events != [] {
      var front := events[..|events| - 1];
      assert forall i :: 0 <= i < |front| ==> front[..i] == events[..i] && front[i] == events[i];
      UnopenedUntilMoved(w, front);
      UnopenedStep(Run(w, front), events[|events| - 1]);
    }
  }

  /** And the first key that does move it starts the open, of the room it moves to. */
  lemma MovingOpens(w: World, key: AppKey)
    requires Unopened(w) && MovesSelection(w.app, key)
    ensures var t := Step(w, KeyPressed(key));
            && OnRoom(t.app) && t.app.pending
            && t.app.screen.chat.selected as int == w.app.screen.chat.selected + (if key.key.Tab? then 1 else -1)
            && t.live == w.live + [Live(OpenFeed(OpenId(t.app)), w.app.channel, None)]
  {
  }

  // ---- What has been read ----

  /** Nothing a screen marked read becomes unread on the next. */
  ghost predicate ReadGrows(c: Chat, d: Chat) {
    forall room: nat :: LastRead(c, room) <= LastRead(d, room)
  }

  lemma ReactionsReadOn(a: App, b: App, render: Renderer, dayOf: Calendar)
    requires Reacts(a, b, render, dayOf) && b.screen.Chatting?
    ensures a.screen.Chatting? && ReadGrows(a.screen.chat, b.screen.chat)
  {
  }

  lemma BatchReadsOn(w: World, e: FeedRuns.Event)
    requires Inv(w) && w.app.messages.Some? && |FeedRuns.Step(AsRun(w), e).delivered| > |w.batches|
    requires !e.PostTo? && !e.Tick?
    ensures var t := StreamMoved(w, e);
            && w.app.screen.Chatting? && t.app.screen.Chatting?
            && ReadGrows(w.app.screen.chat, t.app.screen.chat)
  {
    hide Inv, StreamMoved, FeedRuns.Step;
    BatchReacts(w, e);
    var chat, id := w.app.screen.chat, OpenId(w.app);
    var batch := FeedRuns.Step(AsRun(w), e).delivered[|w.batches|];
    assert forall room: nat :: LastRead(Append(chat, batch), room)
                            == if room == id then Newest(batch) else LastRead(chat, room);
  }

  /** Only a login being answered makes a new screen, and each is counted. */
  lemma LoginsCount(w: World, e: Event)
    ensures w.logins <= Step(w, e).logins
    ensures LogsIn(w, e) ==> Step(w, e).logins == w.logins + 1
  {
  }

  lemma StepReadsOn(w: World, e: Event)
    requires Inv(w)
    ensures w.logins <= Step(w, e).logins
    ensures Step(w, e).app.screen.Chatting? && Step(w, e).logins == w.logins ==>
              w.app.screen.Chatting? && ReadGrows(w.app.screen.chat, Step(w, e).app.screen.chat)
  {
    LoginsCount(w, e);
    StepsByKind(w, e);
    hide Inv, Reacts, LastRead, Step, TakeAnswer, StreamMoved;
    if Step(w, e).app.screen.Chatting? {
      if Ordinary(w, e) {
        StepReacts(w, e);
        ReactionsReadOn(w.app, Step(w, e).app, w.render, w.dayOf);
      } else if Delivers(w, e) {
        BatchReadsOn(w, e.e);
      }
    }
  }

  /**
   Over a chat screen's whole life, across rooms opened again and failures of every kind, what has
   been read in a room never goes back, though the map is written without looking.
   */
  lemma {:induction false} ReadNeverGoesBack(w: World, events: seq<Event>)
    requires Inv(w)
    ensures Inv(Run(w, events)) && w.logins <= Run(w, events).logins
    ensures Run(w, events).app.screen.Chatting? && Run(w, events).logins == w.logins ==>
              w.app.screen.Chatting? && ReadGrows(w.app.screen.chat, Run(w, events).app.screen.chat)
  {
    hide Inv;
    if events != [] {
      var front := events[..|events| - 1];
      ReadNeverGoesBack(w, front);
      StepKeepsInv(Run(w, front), events[|events| - 1]);
      StepReadsOn(Run(w, front), events[|events| - 1]);
    }
  }

  /**
   A badge is exact: a room other than the watched one wears it exactly when its log, as the list
   was read, holds a message past what has been read. And nothing is marked read past any log's end.
   */
  lemma {:induction false} BadgesAreExact(poll: Poll, render: Renderer, dayOf: Calendar, maxRooms: nat,
                                          roomTable: seq<NameTable.Entry>, rows: seq<Row>, events: seq<Event>, k: nat)
    requires Server.Servable(roomTable, rows)
    ensures var w := Run(Boot(poll, render, dayOf, maxRooms, roomTable, rows), events);
            w.app.screen.Chatting? && k < |w.app.screen.chat.rooms| ==>
              var chat := w.app.screen.chat;
              var room := chat.rooms[k];
              var log := Log(w.shown.rows, room.id);
              && (Unread(chat, room) <==>
                    chat.watched != Some(room.id) && exists i :: 0 <= i < |log| && log[i].pos > LastRead(chat, room.id))
              && w.shown.rows <= w.rows
              && LastRead(chat, room.id) <= Newest(Log(w.rows, room.id))
  {
    var w := Run(Boot(poll, render, dayOf, maxRooms, roomTable, rows), events);
    ReachesInv(poll, render, dayOf, maxRooms, roomTable, rows, events);
    hide Boot, Run, Inv, Log, Unread, LastRead;
    if w.app.screen.Chatting? && k < |w.app.screen.chat.rooms| {
      BadgeIsExact(w, k);
    }
  }

  lemma BadgeIsExact(w: World, k: nat)
    requires Inv(w) && w.app.screen.Chatting? && k < |w.app.screen.chat.rooms|
    ensures var chat := w.app.screen.chat;
            var room := chat.rooms[k];
            var log := Log(w.shown.rows, room.id);
            && (Unread(chat, room) <==>
                  chat.watched != Some(room.id) && exists i :: 0 <= i < |log| && log[i].pos > LastRead(chat, room.id))
            && w.shown.rows <= w.rows
            && LastRead(chat, room.id) <= Newest(Log(w.rows, room.id))
  {
    var room := w.app.screen.chat.rooms[k];
    assert room == Store.AsRoom(w.shown.rooms[k], w.shown.rows);
    assert ReadBound(w.app.screen.chat, w.rows) && w.shown.rows <= w.rows && Keyed(w.rows);
    hide Inv, Log, LastRead, Keyed;
    KeyedPrefix(w.shown.rows, w.rows);
    LogAscends(w.shown.rows, room.id);
    NewestIsPast(Log(w.shown.rows, room.id), LastRead(w.app.screen.chat, room.id));
  }

  lemma KeyedPrefix(older: seq<Row>, rows: seq<Row>)
    requires Keyed(rows) && older <= rows
    ensures Keyed(older)
  {
    assert forall i :: 0 <= i < |older| ==> older[i] == rows[i];
  }

  // ---- The kept pane ----

  ghost predicate Coherent(w: World) {
    w.app.screen.Chatting? ==> PaneCache.Coherent(w.app.screen.chat, w.render, w.dayOf)
  }

  lemma StepKeepsCoherent(w: World, e: Event)
    requires Inv(w) && Coherent(w)
    ensures Coherent(Step(w, e))
  {
    SameRenderer(w, e);
    StepsByKind(w, e);
    hide Inv, Step, TakeAnswer, StreamMoved;
    if Ordinary(w, e) {
      StepReacts(w, e);
    } else if Delivers(w, e) {
      BatchReacts(w, e.e);
    } else if LogsIn(w, e) {
      LoginDrawsNothing(w);
    }
  }

  lemma SameRenderer(w: World, e: Event)
    ensures Step(w, e).render == w.render && Step(w, e).dayOf == w.dayOf
  {
  }

  lemma LoginDrawsNothing(w: World)
    requires w.app.answers != [] && w.app.answers[0].LoggedIn? && w.app.answers[0].listed.Ok?
    ensures var t := TakeAnswer(w); t.app.screen.Chatting? && t.app.screen.chat.pane.None?
  {
  }

  /** In every state of every run, drawing from the kept pane is drawing from scratch. */
  lemma {:induction false} DrawsAreFresh(poll: Poll, render: Renderer, dayOf: Calendar, maxRooms: nat,
                                         roomTable: seq<NameTable.Entry>, rows: seq<Row>, events: seq<Event>)
    requires Server.Servable(roomTable, rows)
    ensures var w := Run(Boot(poll, render, dayOf, maxRooms, roomTable, rows), events);
            && w.render == render && w.dayOf == dayOf
            && Coherent(w)
            && (w.app.screen.Chatting? ==>
                  var chat := w.app.screen.chat;
                  forall area :: Draw(chat, area, render, dayOf) == Draw(chat.(pane := None), area, render, dayOf))
  {
    if events != [] {
      var front := events[..|events| - 1];
      var w := Run(Boot(poll, render, dayOf, maxRooms, roomTable, rows), front);
      ReachesInv(poll, render, dayOf, maxRooms, roomTable, rows, front);
      DrawsAreFresh(poll, render, dayOf, maxRooms, roomTable, rows, front);
      hide Inv;
      StepKeepsCoherent(w, events[|events| - 1]);
      SameRenderer(w, events[|events| - 1]);
    }
  }
}
