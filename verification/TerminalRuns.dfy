/** What every run of the terminal app keeps, and what follows for the reader. */
module TerminalRuns {
  import opened Wire
  import opened Logs
  import opened Columns
  import opened MessageTable
  import NameTable
  import Store
  import Server
  import opened Feed
  import FeedRuns
  import opened Chat
  import PaneCache
  import opened App
  import opened Terminal

  // ---- The server's side ----

  /** An older reading of a room never passes a newer one. */
  lemma OlderReadsLess(older: seq<Row>, rows: seq<Row>, room: int)
    requires older <= rows && Keyed(rows)
    ensures Log(older, room) <= Log(rows, room)
    ensures Newest(Log(older, room)) <= Newest(Log(rows, room))
  {
    assert rows == older + rows[|older|..];
    Server.LogIsAppended(older, rows[|older|..], room);
    LogAscends(rows, room);
  }

  lemma ReadsGrow(chat: Chat, older: seq<Row>, rows: seq<Row>)
    requires ReadBound(chat, older) && older <= rows && Keyed(rows)
    ensures ReadBound(chat, rows)
  {
    forall room: nat ensures LastRead(chat, room) <= Newest(Log(rows, room)) {
      OlderReadsLess(older, rows, room);
    }
  }

  /** What one post does to the tables. */
  lemma PostGrowsRows(rows: seq<Row>, room: nat, username: string, body: string, now: nat)
    requires Keyed(rows) && TopKey(rows) < MAX_COLUMN
    ensures var after := Post(rows, {room}, room, username, body, now, 0).0;
            Keyed(after) && rows <= after
  {
    PostLandsLast(rows, {room}, room, username, body, now, 0);
    PostKeepsKeyed(rows, {room}, room, username, body, now, 0);
  }

  lemma OpeningSurvivesPost(poll: Poll, rows: seq<Row>, chat: Chat, id: nat, feed: Feed, room: nat, username: string,
                            body: string, now: nat)
    requires Keyed(rows) && TopKey(rows) < MAX_COLUMN
    requires OpeningHolds(poll, rows, chat, id, feed)
    ensures OpeningHolds(poll, Post(rows, {room}, room, username, body, now, 0).0, chat, id, feed)
  {
    FeedRuns.PostPushes(rows, room, username, body, now, id);
    var log, after := Log(rows, id), Log(Post(rows, {room}, room, username, body, now, 0).0, id);
    if after != log {
      var m: Message :| m.pos > TopKey(rows) && after == log + [m];
      FeedRuns.TellsKeeps(log, m, FeedRuns.StartOf(FromNewest, feed.holding), feed, []);
    }
  }

  lemma CallSurvivesPost(w: World, l: Live, room: nat, username: string, body: string, now: nat)
    requires Inv(w) && TopKey(w.rows) < MAX_COLUMN && OnRoom(w.app) && CallOpens(w, l)
    ensures CallOpens(Step(w, PostTo(room, username, body, now)), l)
  {
    if l.channel == w.app.channel && l.call.OpenFeed? && l.served.Some? && l.served.value.ServedPage? {
      var id := OpenId(w.app);
      OpeningSurvivesPost(w.poll, w.rows, w.app.screen.chat, id, Open(id, FromNewest, l.served.value.page, w.poll),
                          room, username, body, now);
    }
  }

  lemma AnswerSurvivesPost(w: World, answer: Answer, room: nat, username: string, body: string, now: nat)
    requires Inv(w) && TopKey(w.rows) < MAX_COLUMN && OnRoom(w.app) && AnswerOpens(w, answer)
    ensures AnswerOpens(Step(w, PostTo(room, username, body, now)), answer)
  {
    if answer.RoomOpened? && answer.feed.Ok? {
      OpeningSurvivesPost(w.poll, w.rows, w.app.screen.chat, OpenId(w.app), answer.feed.value,
                          room, username, body, now);
    }
  }

  lemma StreamSurvivesPost(w: World, room: nat, username: string, body: string, now: nat)
    requires Inv(w) && TopKey(w.rows) < MAX_COLUMN && OnRoom(w.app)
    ensures StreamHolds(Step(w, PostTo(room, username, body, now)))
  {
    if w.app.messages.Some? {
      FeedRuns.StepIsGapless(AsRun(w), FeedRuns.PostTo(room, username, body, now));
    }
  }

  lemma PostKeepsInv(w: World, room: nat, username: string, body: string, now: nat)
    requires Inv(w) && TopKey(w.rows) < MAX_COLUMN
    ensures Inv(Step(w, PostTo(room, username, body, now)))
  {
    hide CallOpens, AnswerOpens, StreamHolds, ReadBound, Post;
    var t := Step(w, PostTo(room, username, body, now));
    PostGrowsRows(w.rows, room, username, body, now);
    if w.app.screen.Chatting? {
      ReadsGrow(w.app.screen.chat, w.rows, t.rows);
      StreamSurvivesPost(w, room, username, body, now);
      forall i | 0 <= i < |t.live| ensures CallOpens(t, t.live[i]) {
        CallSurvivesPost(w, w.live[i], room, username, body, now);
      }
      forall i | 0 <= i < |t.app.answers| ensures AnswerOpens(t, t.app.answers[i]) {
        AnswerSurvivesPost(w, w.app.answers[i], room, username, body, now);
      }
    }
  }

  lemma NewRoomKeepsInv(w: World, name: string)
    requires Inv(w)
    ensures Inv(Step(w, Event.NewRoom(name)))
  {
    NameTable.InsertKeepsDistinct(w.roomTable, w.maxRooms, name, "");
    SameButClock(w, Step(w, Event.NewRoom(name)));
  }

  /** Two states whose stream, calls and reading of the open room are the same. */
  ghost predicate ReadsAlike(w: World, t: World) {
    && OnRoom(w.app) && OnRoom(t.app)
    && SameReading(w.app.screen.chat, t.app.screen.chat)
    && t.live == w.live && t.app.channel == w.app.channel && t.app.answers == w.app.answers
    && t.app.messages == w.app.messages && t.app.reopen == w.app.reopen
    && t.poll == w.poll && t.rows == w.rows && t.start == w.start && t.batches == w.batches
  }

  lemma StreamCarries(w: World, t: World)
    requires ReadsAlike(w, t) && StreamHolds(w)
    ensures StreamHolds(t)
  {
    assert OpenId(t.app) == OpenId(w.app);
    assert w.app.messages.Some? ==> AsRun(t) == AsRun(w).(clock := t.clock);
    hide FeedRuns.Tells, FeedRuns.Window, Flatten, Log, Keyed, SameReading;
    assert forall room: nat :: LastRead(t.app.screen.chat, room) == LastRead(w.app.screen.chat, room) by {
      LastReadAlike(w.app.screen.chat, t.app.screen.chat);
    }
    AlikeReads(w.app.screen.chat, t.app.screen.chat);
  }

  lemma AlikeReads(c: Chat, d: Chat)
    requires SameReading(c, d)
    ensures d.messages == c.messages && d.watched == c.watched
  {
  }

  lemma LastReadAlike(c: Chat, d: Chat)
    requires SameReading(c, d)
    ensures forall room: nat :: LastRead(d, room) == LastRead(c, room)
  {
  }

  lemma OpeningsCarry(w: World, t: World)
    requires ReadsAlike(w, t) && OpeningsHold(w)
    ensures OpeningsHold(t)
    ensures Opening(t.app, t.live) <==> Opening(w.app, w.live)
  {
    LastReadAlike(w.app.screen.chat, t.app.screen.chat);
    assert OpenId(t.app) == OpenId(w.app);
    hide FeedRuns.Tells, Open, LastRead, SameReading;
    forall k | 0 <= k < |t.live| ensures CallOpens(t, t.live[k]) {
      assert CallOpens(w, w.live[k]);
    }
    forall k | 0 <= k < |t.app.answers| ensures AnswerOpens(t, t.app.answers[k]) {
      assert AnswerOpens(w, w.app.answers[k]);
    }
  }

  /** What a reader sees carries over, so the rest of a state is all there is to check. */
  lemma ReadingCarries(w: World, t: World)
    requires Inv(w) && Base(t) && ReadsAlike(w, t)
    ensures Inv(t)
  {
    hide Base;
    StreamCarries(w, t);
    OpeningsCarry(w, t);
    hide StreamHolds, OpeningsHold, Opening, SameReading;
  }

  /** The clock and the rooms table are not what a stream or an opening depends on. */
  lemma SameButClock(w: World, t: World)
    requires Inv(w) && TablesHold(t) && w.roomTable <= t.roomTable
    requires t == w.(clock := t.clock, roomTable := t.roomTable)
    ensures Inv(t)
  {
    assert Base(t);
    if w.app.screen.Chatting? {
      assert OnRoom(w.app);
      hide Base;
      ReadingCarries(w, t);
    }
  }

  // ---- Calls on their way ----

  lemma ServeCallKeepsBase(w: World, i: nat)
    requires Inv(w) && i < |w.live|
    ensures Base(w.(live := w.live[i := w.live[i].(served := ServeFor(w, w.live[i].call))]))
  {
    hide FeedRuns.OpeningPage, Snapshot.Rooms, AsRun;
    CountReplaced(w.live, i, w.live[i].(served := ServeFor(w, w.live[i].call)), w.app.channel);
  }

  /** What the server reads now for the open room tells its log from here on. */
  lemma ServedPageHolds(w: World, l: Live)
    requires Base(w) && OnRoom(w.app) && CallOpens(w, l)
    ensures CallOpens(w, l.(served := ServeFor(w, l.call)))
  {
    FeedRuns.OpeningTells(w.rows, OpenId(w.app), FromNewest, w.poll);
  }

  lemma ServeCallKeepsReading(w: World, i: nat)
    requires Base(w) && OnRoom(w.app) && StreamHolds(w) && OpeningsHold(w) && i < |w.live|
    ensures var t := w.(live := w.live[i := w.live[i].(served := ServeFor(w, w.live[i].call))]);
            && StreamHolds(t) && OpeningsHold(t)
            && (Opening(w.app, w.live) ==> Opening(t.app, t.live))
  {
    var t := w.(live := w.live[i := w.live[i].(served := ServeFor(w, w.live[i].call))]);
    assert CallOpens(w, w.live[i]);
    ServedPageHolds(w, w.live[i]);
    assert w.app.messages.Some? ==> AsRun(t) == AsRun(w);
    hide Base, ServeFor, FeedRuns.Gapless, OpeningHolds, Flatten, Open;
    forall k | 0 <= k < |t.live| ensures CallOpens(t, t.live[k]) {
      assert CallOpens(w, w.live[k]);
    }
    forall k | 0 <= k < |t.app.answers| ensures AnswerOpens(t, t.app.answers[k]) {
      assert AnswerOpens(w, w.app.answers[k]);
    }
    if k :| 0 <= k < |w.live| && w.live[k].channel == w.app.channel && w.live[k].call.OpenFeed? {
      assert t.live[k].channel == t.app.channel && t.live[k].call.OpenFeed?;
    }
  }

  lemma ServeCallKeepsInv(w: World, i: nat)
    requires Inv(w)
    ensures Inv(Step(w, ServeCall(i)))
  {
    if i < |w.live| && w.live[i].served.None? {
      ServeCallKeepsBase(w, i);
      assert w.app.screen.Chatting? ==> OnRoom(w.app);
      if w.app.screen.Chatting? {
        ServeCallKeepsReading(w, i);
      }
      hide Base, StreamHolds, OpeningsHold, Opening, ServeFor;
    }
  }

  lemma AnswerFitsItsCall(screen: Screen, l: Live, result: Result<(), Failure>, poll: Poll)
    requires CallFits(screen, l.call) && AnswerOf(l, result, poll).Some?
    ensures AnswerFits(screen, AnswerOf(l, result, poll).value)
  {
  }

  lemma FinishCallKeepsPairs(w: World, i: nat, result: Result<(), Failure>)
    requires Paired(w.app, w.live) && i < |w.live| && AnswerOf(w.live[i], result, w.poll).Some?
    ensures var t := Step(w, FinishCall(i, result)); Paired(t.app, t.live)
  {
    hide CallFits, AnswerFits, AnswerOf, Count;
    var t := Step(w, FinishCall(i, result));
    CountAround(w.live, i, w.app.channel);
    if w.live[i].channel == w.app.channel {
      AnswerFitsItsCall(w.app.screen, w.live[i], result, w.poll);
    }
    forall k | 0 <= k < |t.live| ensures t.live[k] == w.live[if k < i then k else k + 1] {
    }
  }

  /** Lists a finished call carries were read like any other. */
  lemma FinishCallKeepsLists(w: World, i: nat, result: Result<(), Failure>)
    requires ListsHold(w) && i < |w.live| && AnswerOf(w.live[i], result, w.poll).Some?
    ensures ListsHold(Step(w, FinishCall(i, result)))
  {
    hide WasRead, Open;
    var t := Step(w, FinishCall(i, result));
    FinishedList(w.live[i], result, w.poll);
    hide AnswerOf, Snapshot.Rooms;
    forall k | 0 <= k < |t.live| ensures t.live[k] == w.live[if k < i then k else k + 1] {
    }
  }

  lemma FinishedList(l: Live, result: Result<(), Failure>, poll: Poll)
    requires AnswerOf(l, result, poll).Some?
    ensures var answer := AnswerOf(l, result, poll).value;
            answer.LoggedIn? && answer.listed.Ok? ==>
              l.served.Some? && l.served.value.ServedList? && answer.listed.value == l.served.value.snapshot
  {
  }

  lemma FinishCallKeepsBase(w: World, i: nat, result: Result<(), Failure>)
    requires Base(w) && i < |w.live| && AnswerOf(w.live[i], result, w.poll).Some?
    ensures Base(Step(w, FinishCall(i, result)))
  {
    FinishCallKeepsPairs(w, i, result);
    FinishCallKeepsLists(w, i, result);
    hide Paired, ListsHold, ReadBound, AnswerOf;
  }

  lemma FinishCallKeepsOpenings(w: World, i: nat, result: Result<(), Failure>)
    requires OnRoom(w.app) && OpeningsHold(w) && i < |w.live| && AnswerOf(w.live[i], result, w.poll).Some?
    ensures OnRoom(Step(w, FinishCall(i, result)).app) && OpeningsHold(Step(w, FinishCall(i, result)))
  {
    hide OpeningHolds, Open;
    var t := Step(w, FinishCall(i, result));
    assert CallOpens(w, w.live[i]);
    forall k | 0 <= k < |t.live| ensures CallOpens(t, t.live[k]) {
      assert t.live[k] == w.live[if k < i then k else k + 1];
      assert CallOpens(w, w.live[if k < i then k else k + 1]);
    }
    forall k | 0 <= k < |t.app.answers| ensures AnswerOpens(t, t.app.answers[k]) {
      if k < |w.app.answers| {
        assert AnswerOpens(w, w.app.answers[k]);
      }
    }
  }

  /** What a finished call leaves alone: the stream and the pane. */
  lemma FinishCallKeepsReading(w: World, i: nat, result: Result<(), Failure>)
    requires OnRoom(w.app) && StreamHolds(w) && OpeningsHold(w)
    requires i < |w.live| && AnswerOf(w.live[i], result, w.poll).Some?
    ensures var t := Step(w, FinishCall(i, result));
            && OnRoom(t.app) && StreamHolds(t) && OpeningsHold(t)
            && t.app.messages == w.app.messages && t.app.reopen == w.app.reopen
            && (Opening(w.app, w.live) ==> Opening(t.app, t.live))
  {
    hide OpeningsHold, Opening, AnswerOf, LastRead, Flatten, FeedRuns.Gapless;
    var t := Step(w, FinishCall(i, result));
    FinishCallKeepsOpenings(w, i, result);
    if Opening(w.app, w.live) {
      OpeningSurvivesFinish(w, i, result);
    }
    assert w.app.messages.Some? ==> AsRun(t) == AsRun(w);
  }

  lemma FinishCallKeepsInv(w: World, i: nat, result: Result<(), Failure>)
    requires Inv(w)
    ensures Inv(Step(w, FinishCall(i, result)))
  {
    hide StreamHolds, OpeningsHold, Opening, AnswerOf, Paired, ReadBound, WasRead, TablesHold;
    if i < |w.live| && AnswerOf(w.live[i], result, w.poll).Some? {
      FinishCallKeepsBase(w, i, result);
      if w.app.screen.Chatting? {
        FinishCallKeepsReading(w, i, result);
      }
    }
  }

  lemma OpeningSurvivesFinish(w: World, i: nat, result: Result<(), Failure>)
    requires i < |w.live| && AnswerOf(w.live[i], result, w.poll).Some?
    requires Opening(w.app, w.live)
    ensures var t := Step(w, FinishCall(i, result)); Opening(t.app, t.live)
  {
    var t := Step(w, FinishCall(i, result));
    if k :| 0 <= k < |w.live| && w.live[k].channel == w.app.channel && w.live[k].call.OpenFeed? {
      if k == i {
        assert t.app.answers[|w.app.answers|].RoomOpened?;
      } else {
        assert t.live[if k < i then k else k - 1] == w.live[k];
      }
    } else {
      var k :| 0 <= k < |w.app.answers| && w.app.answers[k].RoomOpened?;
      assert t.app.answers[k] == w.app.answers[k];
    }
  }

  // ---- The app reacting ----

  /** Two screens that differ only in what was typed, noticed, scrolled or drawn. */
  predicate SameReading(c: Chat, d: Chat) {
    && c.rooms == d.rooms && c.selected == d.selected && c.messages == d.messages
    && c.lastRead == d.lastRead && c.watched == d.watched
  }

  lemma ChatChangeKeepsLists(w: World, chat: Chat)
    requires ListsHold(w) && w.app.screen.Chatting? && chat.rooms == w.app.screen.chat.rooms
    requires chat.selected < |chat.rooms|
    ensures ListsHold(w.(app := w.app.(screen := Chatting(chat))))
  {
    hide WasRead, Snapshot.Rooms;
  }

  lemma ChatChangeKeepsReads(chat: Chat, changed: Chat, rows: seq<Row>)
    requires ReadBound(chat, rows) && changed.lastRead == chat.lastRead
    ensures ReadBound(changed, rows)
  {
    hide Log;
    assert forall room: nat :: LastRead(changed, room) == LastRead(chat, room);
  }

  /** What is typed, drawn or selected on the chat screen does not matter to the rest of the app. */
  lemma ChatChangeKeepsBase(w: World, chat: Chat)
    requires Base(w) && w.app.screen.Chatting? && chat.rooms == w.app.screen.chat.rooms
    requires chat.lastRead == w.app.screen.chat.lastRead && chat.selected < |chat.rooms|
    ensures Base(w.(app := w.app.(screen := Chatting(chat))))
  {
    ChatChangeKeepsLists(w, chat);
    ChatChangeKeepsReads(w.app.screen.chat, chat, w.rows);
    hide ListsHold, ReadBound, Count;
  }

  lemma ChatChangeKeepsInv(w: World, chat: Chat)
    requires Inv(w) && w.app.screen.Chatting? && SameReading(w.app.screen.chat, chat)
    ensures Inv(w.(app := w.app.(screen := Chatting(chat))))
  {
    assert Base(w) && OnRoom(w.app);
    hide Inv, Base;
    ChatChangeKeepsBase(w, chat);
    ReadingCarries(w, w.(app := w.app.(screen := Chatting(chat))));
  }

  /** Signing out leaves nothing behind: every call that was out answers through a dropped channel. */
  lemma SigningOutKeepsInv(w: World, f: Failure)
    requires Base(w) && SignedOut(w.app, f).Some?
    ensures Inv(w.(app := SignedOut(w.app, f).value))
  {
    CountZero(w.live, w.app.channel + 1);
  }

  lemma RefusalKeepsInv(w: World, f: Failure)
    requires Inv(w)
    ensures Inv(w.(app := OnRefused(w.app, f)))
  {
    if SignedOut(w.app, f).Some? {
      SigningOutKeepsInv(w, f);
    } else if w.app.screen.Chatting? && f.Other? {
      ChatChangeKeepsInv(w, Warn(w.app.screen.chat, f.why));
    }
  }

  lemma FailureKeepsInv(w: World, f: Failure)
    requires Inv(w)
    ensures Inv(w.(app := OnFailed(w.app, f)))
  {
    if SignedOut(w.app, f).Some? {
      SigningOutKeepsInv(w, f);
    }
  }

  /** Starting a call that opens no feed. */
  lemma AskKeepsInv(w: World, call: Call)
    requires Inv(w) && CallFits(w.app.screen, call) && !call.OpenFeed?
    ensures Inv(Started(w, Ask(w.app, call)))
  {
    if !w.app.pending {
      AskKeepsBase(w, call);
      if w.app.screen.Chatting? {
        hide Base;
        AskKeepsReading(w, call);
      }
    }
  }

  lemma AskKeepsBase(w: World, call: Call)
    requires Base(w) && CallFits(w.app.screen, call) && !w.app.pending
    ensures Base(Started(w, Ask(w.app, call)))
    ensures w.app.screen.Chatting? ==> OnRoom(w.app)
  {
    var t := Started(w, Ask(w.app, call));
    AskedIsPaired(w, t, call);
    hide Paired, WasRead, ReadBound, Snapshot.Rooms;
  }

  lemma AskKeepsReading(w: World, call: Call)
    requires OnRoom(w.app) && StreamHolds(w) && OpeningsHold(w) && !call.OpenFeed? && !w.app.pending
    ensures var t := Started(w, Ask(w.app, call));
            && OnRoom(t.app) && StreamHolds(t) && OpeningsHold(t)
            && (Opening(w.app, w.live) ==> Opening(t.app, t.live))
  {
    var t := Started(w, Ask(w.app, call));
    assert w.app.messages.Some? ==> AsRun(t) == AsRun(w);
    hide FeedRuns.Gapless, Flatten, OpeningHolds, Open;
    forall k | 0 <= k < |t.live| ensures CallOpens(t, t.live[k]) {
      if k < |w.live| {
        assert CallOpens(w, w.live[k]);
      }
    }
    forall k | 0 <= k < |t.app.answers| ensures AnswerOpens(t, t.app.answers[k]) {
      assert AnswerOpens(w, w.app.answers[k]);
    }
    if k :| 0 <= k < |w.live| && w.live[k].channel == w.app.channel && w.live[k].call.OpenFeed? {
      assert t.live[k] == w.live[k];
    }
  }

  lemma AskedIsPaired(w: World, t: World, call: Call)
    requires Paired(w.app, w.live) && !w.app.pending && CallFits(t.app.screen, call)
    requires t.app.channel == w.app.channel && t.app.answers == w.app.answers && t.app.pending
    requires t.app.client == w.app.client && t.app.reopen == w.app.reopen && t.app.rooms == w.app.rooms
    requires t.app.screen.Chatting? == w.app.screen.Chatting? && t.app.screen.Connection? == w.app.screen.Connection?
    requires t.app.messages.None? || t.app.messages == w.app.messages
    requires t.live == w.live + [Live(call, w.app.channel, None)]
    ensures Paired(t.app, t.live)
  {
    CountJoins(w.live, [Live(call, w.app.channel, None)], w.app.channel);
    CountOne(Live(call, w.app.channel, None), w.app.channel);
    CountZero(w.live, w.app.channel);
    forall i | 0 <= i < |t.live| && t.live[i].channel == t.app.channel ensures i == |w.live| {
    }
  }

  /** The world once the selected room has been asked for. */
  function Asked(w: World): World {
    Started(w, AskOpen(w.app))
  }

  /** Which differs in its pane, its stream and one more call. */
  function AskedOf(w: World): World
    requires OnRoom(w.app)
  {
    w.(app := w.app.(pending := true, messages := None, screen := Chatting(Clear(w.app.screen.chat))),
       live := w.live + [Live(OpenFeed(OpenId(w.app)), w.app.channel, None)])
  }

  lemma AskingIs(w: World)
    requires Base(w) && OnRoom(w.app) && !w.app.pending
    ensures AskOpen(w.app).1 == Some(OpenFeed(OpenId(w.app)))
    ensures Asked(w) == AskedOf(w)
    ensures OnRoom(Asked(w).app) && OpenId(Asked(w).app) == OpenId(w.app)
  {
    hide ListsHold, ReadBound, Count;
  }

  lemma AskingKeepsLists(w: World)
    requires ListsHold(w) && OnRoom(w.app)
    ensures ListsHold(AskedOf(w))
  {
    hide WasRead, Snapshot.Rooms;
  }

  lemma AskingKeepsBase(w: World)
    requires Base(w) && OnRoom(w.app) && !w.app.pending
    ensures Base(Asked(w))
  {
    AskingIs(w);
    AskingKeepsLists(w);
    assert Paired(Asked(w).app, Asked(w).live) by {
      AskedIsPaired(w, Asked(w), OpenFeed(OpenId(w.app)));
    }
    assert ReadBound(Asked(w).app.screen.chat, w.rows) by {
      hide ListsHold, Paired, Log;
      assert forall room: nat :: LastRead(Clear(w.app.screen.chat), room) == LastRead(w.app.screen.chat, room);
    }
    hide Asked, ListsHold, Paired, ReadBound;
  }

  /** The one call out is the new one, and it opens the selected room. */
  lemma AskingOpens(w: World)
    requires Base(w) && OnRoom(w.app) && !w.app.pending
    ensures OnRoom(Asked(w).app) && OpeningsHold(Asked(w)) && Opening(Asked(w).app, Asked(w).live)
  {
    AskingIs(w);
    CountZero(w.live, w.app.channel);
    assert w.app.answers == [] && forall k :: 0 <= k < |w.live| ==> w.live[k].channel != w.app.channel;
    hide Base, Count;
    var t := Asked(w);
    forall k | 0 <= k < |t.live| ensures CallOpens(t, t.live[k]) {
    }
    assert t.live[|w.live|].call.OpenFeed? && t.live[|w.live|].channel == t.app.channel;
  }

  /** With nothing out, opening the selected room starts from any pane at all. */
  lemma OpeningStarts(w: World)
    requires Base(w) && OnRoom(w.app) && !w.app.pending
    ensures Inv(Started(w, AskOpen(w.app)))
    ensures AskOpen(w.app).1 == Some(OpenFeed(OpenId(w.app)))
  {
    AskingIs(w);
    AskingKeepsBase(w);
    AskingOpens(w);
    hide Base, OpeningsHold, Opening;
  }

  // ---- Keys ----

  /** A key that opens nothing leaves the reading as it was, and with a call unanswered none asks. */
  lemma KeyKeepsReading(chat: Chat, key: Key, pending: bool)
    requires chat.selected < |chat.rooms|
    ensures var (after, intent) := HandleKey(chat, key, pending);
            && (intent.Some? ==> !pending)
            && (intent != Some(OpenSelected) ==> SameReading(chat, after))
            && after.rooms == chat.rooms && after.lastRead == chat.lastRead && after.selected < |after.rooms|
  {
  }

  lemma KeyKeepsInv(w: World, key: AppKey)
    requires Inv(w)
    ensures Inv(Started(w, Press(w.app, key)))
  {
    hide Inv;
    if key.Quit? {
      QuitKeepsInv(w);
    } else {
      match w.app.screen
      case Connection => AskKeepsInv(w, Connect);
      case SignIn(username) =>
        AskKeepsInv(w, Register);
        AskKeepsInv(w, LogIn(username));
        if key.TypeUsername? {
          TypingKeepsInv(w, key.username);
        }
      case Chatting(chat) =>
        if key.InChat? {
          ChatKeyKeepsInv(w, key.key);
        }
    }
  }

  lemma TypingKeepsInv(w: World, username: string)
    requires Inv(w) && w.app.screen.SignIn?
    ensures Inv(w.(app := w.app.(screen := SignIn(username))))
  {
  }

  lemma QuitKeepsBase(w: World)
    requires Base(w)
    ensures Base(w.(app := w.app.(exit := true)))
  {
    hide WasRead, Count, ReadBound;
  }

  lemma QuitKeepsInv(w: World)
    requires Inv(w)
    ensures Inv(w.(app := w.app.(exit := true)))
  {
    var t := w.(app := w.app.(exit := true));
    QuitKeepsBase(w);
    if w.app.screen.Chatting? {
      assert OnRoom(w.app);
      hide Base;
      ReadingCarries(w, t);
    }
  }

  /** Moving the selection empties the pane, and opening the room it moved to starts at once. */
  lemma SelectionOpens(w: World, chat: Chat)
    requires Inv(w) && w.app.screen.Chatting? && !w.app.pending
    requires chat.rooms == w.app.screen.chat.rooms && chat.lastRead == w.app.screen.chat.lastRead
    requires chat.selected < |chat.rooms|
    ensures var moved := w.(app := w.app.(screen := Chatting(chat)));
            Inv(Started(moved, AskOpen(moved.app)))
  {
    assert Base(w);
    hide Inv, Base, AskOpen;
    ChatChangeKeepsBase(w, chat);
    OpeningStarts(w.(app := w.app.(screen := Chatting(chat))));
  }

  lemma SendKeepsInv(w: World, body: string)
    requires Inv(w) && w.app.screen.Chatting?
    ensures Inv(Started(w, AskSend(w.app, body)))
  {
    assert OnRoom(w.app);
    hide Inv, Ask;
    AskKeepsInv(w, PostBody(OpenId(w.app), body));
  }

  lemma CreateKeepsInv(w: World, name: string)
    requires Inv(w) && w.app.screen.Chatting?
    ensures Inv(Started(w, AskCreate(w.app, name)))
  {
    AskKeepsInv(w, MakeRoom(name));
  }

  lemma IntentKeepsInv(w: World, chat: Chat, intent: Option<Intent>)
    requires Inv(w) && w.app.screen.Chatting?
    requires chat.rooms == w.app.screen.chat.rooms && chat.lastRead == w.app.screen.chat.lastRead
    requires chat.selected < |chat.rooms|
    requires intent.Some? ==> !w.app.pending
    requires intent != Some(OpenSelected) ==> SameReading(w.app.screen.chat, chat)
    ensures var moved := w.(app := w.app.(screen := Chatting(chat)));
            Inv(Started(moved, AskFor(moved.app, intent)))
  {
    hide Inv;
    var moved := w.(app := w.app.(screen := Chatting(chat)));
    match intent
    case Some(OpenSelected) => SelectionOpens(w, chat);
    case None => ChatChangeKeepsInv(w, chat);
    case Some(Send(body)) =>
      ChatChangeKeepsInv(w, chat);
      SendKeepsInv(moved, body);
    case Some(Create(name)) =>
      ChatChangeKeepsInv(w, chat);
      CreateKeepsInv(moved, name);
  }

  lemma ChatKeyKeepsInv(w: World, key: Key)
    requires Inv(w) && w.app.screen.Chatting?
    ensures Inv(Started(w, Press(w.app, InChat(key))))
  {
    KeyKeepsReading(w.app.screen.chat, key, w.app.pending);
    var (after, intent) := HandleKey(w.app.screen.chat, key, w.app.pending);
    IntentKeepsInv(w, after, intent);
    var moved := w.(app := w.app.(screen := Chatting(after)));
    StartedFrom(w, moved, AskFor(moved.app, intent));
  }

  /** Which app a reaction replaced does not matter. */
  lemma StartedFrom(w: World, v: World, reaction: (App, Option<Call>))
    requires v == w.(app := v.app)
    ensures Started(w, reaction) == Started(v, reaction)
  {
  }

  // ---- Answers ----

  /** The world with its one answer off the queue and nothing out. */
  function Quieted(w: World): World {
    w.(app := w.app.(pending := false, answers := []))
  }

  lemma TakingQuiets(w: World)
    requires Inv(w) && w.app.answers != []
    ensures |w.app.answers| == 1
    ensures Base(Quieted(w)) && Count(w.live, w.app.channel) == 0
    ensures AnswerFits(w.app.screen, w.app.answers[0])
    ensures w.app.screen.Chatting? ==> StreamHolds(Quieted(w)) && OpeningsHold(Quieted(w))
    ensures Act(w.app.(answers := w.app.answers[1..]), w.app.answers[0]) == Act(Quieted(w).app, w.app.answers[0])
  {
    assert w.app.answers[1..] == [];
    assert w.app.(answers := w.app.answers[1..]).(pending := false) == Quieted(w).app;
    CountZero(w.live, w.app.channel);
    assert w.app.messages.Some? ==> AsRun(Quieted(w)) == AsRun(w);
  }

  /** An answer that opened nothing leaves the room as it was. */
  lemma QuietedKeepsInv(w: World)
    requires Inv(w) && w.app.answers != [] && !w.app.answers[0].RoomOpened?
    ensures Inv(Quieted(w))
  {
    TakingQuiets(w);
    CountZero(w.live, w.app.channel);
  }

  lemma TakeOpenedKeepsInv(w: World)
    requires Inv(w) && w.app.answers != [] && w.app.answers[0].RoomOpened?
    ensures Inv(TakeAnswer(w))
  {
    TakingQuiets(w);
    var q, feed := Quieted(w), w.app.answers[0].feed;
    assert AnswerOpens(w, w.app.answers[0]);
    match feed
    case Err(f) =>
      var r := q.(app := q.app.(reopen := true));
      ReopenKeepsInv(q);
      RefusalKeepsInv(r, f);
      StartedFrom(w, r, (OnRefused(r.app, f), None));
    case Ok(feed) =>
      StreamOpens(q, feed);
  }

  lemma ReopenKeepsInv(q: World)
    requires Base(q) && q.app.screen.Chatting? && StreamHolds(q) && OpeningsHold(q) && q.app.messages.None?
    ensures Inv(q.(app := q.app.(reopen := true)))
  {
    var r := q.(app := q.app.(reopen := true));
    forall k | 0 <= k < |r.live| ensures CallOpens(r, r.live[k]) {
      assert CallOpens(q, q.live[k]);
    }
    forall k | 0 <= k < |r.app.answers| ensures AnswerOpens(r, r.app.answers[k]) {
      assert AnswerOpens(q, q.app.answers[k]);
    }
  }

  /** The world once a feed that was asked for has come back. */
  function Opened(q: World, feed: Feed): World {
    Started(q, Act(q.app, RoomOpened(Ok(feed)))).(batches := [], start := FeedRuns.StartOf(FromNewest, feed.holding))
  }

  lemma OpenedIsBased(q: World, feed: Feed)
    requires Base(q) && OnRoom(q.app) && q.app.answers == [] && Count(q.live, q.app.channel) == 0
    ensures Base(Opened(q, feed)) && OnRoom(Opened(q, feed).app)
  {
    hide WasRead, Snapshot.Rooms, FeedRuns.StartOf;
    CountZero(q.live, q.app.channel);
    LastReadWatching(q.app.screen.chat, feed.room);
  }

  lemma LastReadWatching(chat: Chat, room: nat)
    ensures forall other: nat :: LastRead(Watching(chat, room), other) == LastRead(chat, other)
  {
  }

  /** The stream that opens tells the room's log from its own start into an empty pane. */
  lemma StreamOpens(q: World, feed: Feed)
    requires Base(q) && q.app.screen.Chatting? && StreamHolds(q) && q.app.messages.None?
    requires q.app.answers == [] && Count(q.live, q.app.channel) == 0
    requires OpeningHolds(q.poll, q.rows, q.app.screen.chat, OpenId(q.app), feed)
    ensures Inv(Opened(q, feed))
  {
    var t := Opened(q, feed);
    OpenedIsBased(q, feed);
    CountZero(q.live, q.app.channel);
    LastReadWatching(q.app.screen.chat, feed.room);
    assert Keyed(q.rows) && OnRoom(q.app);
    hide Base, LastRead, Log, FeedRuns.Tells;
    assert FeedRuns.Gapless(AsRun(t));
  }

  lemma TakeConnectedKeepsInv(w: World)
    requires Inv(w) && w.app.answers != [] && w.app.answers[0].Connected?
    ensures Inv(TakeAnswer(w))
  {
    TakingQuiets(w);
    QuietedKeepsInv(w);
    var q := Quieted(w);
    match w.app.answers[0].result
    case Err(f) => RefusalKeepsInv(q, f);
    case Ok(_) => CountZero(w.live, w.app.channel);
  }

  lemma TakeRegisteredKeepsInv(w: World)
    requires Inv(w) && w.app.answers != [] && w.app.answers[0].Registered?
    ensures Inv(TakeAnswer(w))
  {
    TakingQuiets(w);
    QuietedKeepsInv(w);
    var q := Quieted(w);
    match w.app.answers[0].result
    case Err(f) => RefusalKeepsInv(q, f);
    case Ok(_) =>
      AskKeepsInv(q, LogIn(q.app.screen.username));
      StartedFrom(w, q, AskLogIn(q.app, q.app.screen.username));
  }

  /** Read positions taken from a listing are the ends of the listed logs. */
  lemma {:induction false} ReadFromListing(rooms: seq<NameTable.Entry>, rows: seq<Row>, k: nat)
    requires k <= |rooms| && Keyed(rows)
    ensures var read := ReadFrom(Store.Listing(rooms, rows)[..k]);
            forall room :: room in read ==> read[room] == Newest(Log(rows, room))
  {
    if k > 0 {
      ReadFromListing(rooms, rows, k - 1);
      var listed := Store.Listing(rooms, rows);
      assert listed[..k][..k - 1] == listed[..k - 1];
      assert listed[..k][k - 1] == listed[k - 1];
    }
  }

  /** A new chat screen over a list that was read from the tables. */
  lemma NewScreenIsBased(q: World, username: string, listed: Snapshot)
    requires Base(q) && q.app.screen.SignIn? && WasRead(q.roomTable, q.rows, listed)
    requires q.app.answers == [] && !q.app.pending
    ensures var t := LoggedOn(q, username, listed);
            Base(t) && OnRoom(t.app) && !t.app.pending
  {
    CountZero(q.live, q.app.channel);
    var chat := NewChat(listed.Rooms(), username);
    assert q.rows == listed.rows + q.rows[|listed.rows|..];
    Server.LogIsAppended(listed.rows, q.rows[|listed.rows|..], 0);
    ReadFromListing(listed.rooms, listed.rows, |listed.rooms|);
    assert listed.Rooms()[..|listed.rooms|] == listed.Rooms();
    forall room: nat ensures LastRead(chat, room) <= Newest(Log(q.rows, room)) {
      OlderReadsLess(listed.rows, q.rows, room);
    }
  }

  /** The new screen a login shows, before a room is opened on it. */
  function LoggedOn(q: World, username: string, listed: Snapshot): World {
    q.(app := q.app.(rooms := Some(Sidebar(None)), screen := Chatting(NewChat(listed.Rooms(), username))),
       shown := listed)
  }

  lemma LoggedInIs(w: World, username: string, listed: Snapshot)
    requires w.app.answers == [LoggedIn(username, Ok(listed))]
    ensures var t := LoggedOn(Quieted(w), username, listed);
            TakeAnswer(w) == Started(t, AskOpen(t.app)).(logins := w.logins + 1, batches := [], start := START)
  {
    hide AskOpen, NewChat;
    assert w.app.answers[1..] == [];
  }

  lemma LoginRefusedIs(w: World, username: string, f: Failure)
    requires w.app.answers == [LoggedIn(username, Err(f))]
    ensures TakeAnswer(w) == Quieted(w).(app := OnRefused(Quieted(w).app, f))
  {
    hide OnRefused;
    assert w.app.answers[1..] == [];
  }

  lemma TakeLoggedInKeepsInv(w: World)
    requires Inv(w) && w.app.answers != [] && w.app.answers[0].LoggedIn?
    ensures Inv(TakeAnswer(w))
  {
    TakingQuiets(w);
    QuietedKeepsInv(w);
    var q := Quieted(w);
    match w.app.answers[0].listed
    case Err(f) =>
      LoginRefusedIs(w, w.app.answers[0].username, f);
      hide Inv, TakeAnswer, OnRefused;
      RefusalKeepsInv(q, f);
    case Ok(listed) =>
      LoggedInIs(w, w.app.answers[0].username, listed);
      ListsWereRead(w);
      hide Inv, TakeAnswer, NewChat, WasRead;
      var t := LoggedOn(q, w.app.answers[0].username, listed);
      NewScreenIsBased(q, w.app.answers[0].username, listed);
      hide Base;
      OpeningStarts(t);
      AskOpenDropsStream(t.app);
      HistoryIsFree(Started(t, AskOpen(t.app)), TakeAnswer(w));
  }

  lemma ListsWereRead(w: World)
    requires Inv(w) && w.app.answers != [] && w.app.answers[0].LoggedIn? && w.app.answers[0].listed.Ok?
    ensures WasRead(w.roomTable, w.rows, w.app.answers[0].listed.value)
  {
  }

  lemma AskOpenDropsStream(a: App)
    requires AskOpen(a).1.Some?
    ensures AskOpen(a).0.messages.None?
  {
  }

  /** Without a stream the stream's history means nothing. */
  lemma HistoryIsFree(w: World, t: World)
    requires Inv(w) && w.app.messages.None?
    requires t == w.(start := t.start, batches := t.batches, logins := t.logins)
    ensures Inv(t)
  {
    if w.app.screen.Chatting? {
      forall k | 0 <= k < |t.live| ensures CallOpens(t, t.live[k]) {
        assert CallOpens(w, w.live[k]);
      }
      forall k | 0 <= k < |t.app.answers| ensures AnswerOpens(t, t.app.answers[k]) {
        assert AnswerOpens(w, w.app.answers[k]);
      }
    }
  }

  lemma TakeSentKeepsInv(w: World)
    requires Inv(w) && w.app.answers != [] && (w.app.answers[0].MessageSent? || w.app.answers[0].RoomCreated?)
    ensures Inv(TakeAnswer(w))
  {
    TakingQuiets(w);
    QuietedKeepsInv(w);
    SentIs(w);
    hide Inv, TakeAnswer, Act, OnRefused, Quieted, Started;
    var q := Quieted(w);
    match w.app.answers[0]
    case MessageSent(body, Err(f)) =>
      var chat := Restore(q.app.screen.chat, body);
      ChatChangeKeepsInv(q, chat);
      RefusalKeepsInv(q.(app := q.app.(screen := Chatting(chat))), f);
    case RoomCreated(Err(f)) => RefusalKeepsInv(q, f);
    case _ =>
  }

  /** What taking the answer to a send or a creation comes to. */
  lemma SentIs(w: World)
    requires |w.app.answers| == 1 && (w.app.answers[0].MessageSent? || w.app.answers[0].RoomCreated?)
    requires AnswerFits(w.app.screen, w.app.answers[0])
    ensures var q := Quieted(w);
            && q.app.screen.Chatting?
            && TakeAnswer(w)
            == match w.app.answers[0]
               case MessageSent(body, Err(f)) =>
                 var chat := Restore(q.app.screen.chat, body);
                 q.(app := OnRefused(q.app.(screen := Chatting(chat)), f))
               case RoomCreated(Err(f)) => q.(app := OnRefused(q.app, f))
               case _ => q
  {
    hide OnRefused;
    assert w.app.answers[1..] == [];
  }

  lemma TakeAnswerKeepsInv(w: World)
    requires Inv(w) && w.app.answers != []
    ensures Inv(TakeAnswer(w))
  {
    hide Inv;
    match w.app.answers[0]
    case Connected(_) => TakeConnectedKeepsInv(w);
    case Registered(_) => TakeRegisteredKeepsInv(w);
    case LoggedIn(_, _) => TakeLoggedInKeepsInv(w);
    case RoomOpened(_) => TakeOpenedKeepsInv(w);
    case MessageSent(_, _) => TakeSentKeepsInv(w);
    case RoomCreated(_) => TakeSentKeepsInv(w);
  }

  // ---- The message stream ----

  /** What a feed's own steps do, beside keeping it gapless: a batch ends at the cursor. */
  lemma MoveDelivers(v: FeedRuns.World, e: FeedRuns.Event)
    requires FeedRuns.Gapless(v) && !e.PostTo? && !e.Tick?
    ensures var r := FeedRuns.Step(v, e);
            && r.rows == v.rows && r.poll == v.poll && r.clock == v.clock && r.start == v.start
            && v.feed.cursor <= r.feed.cursor
            && (|r.delivered| > |v.delivered| ==>
                  var batch := r.delivered[|r.delivered| - 1];
                  && r.delivered == v.delivered + [batch]
                  && batch != [] && Newest(batch) == r.feed.cursor <= Newest(Log(v.rows, v.feed.room)))
            && (|r.delivered| <= |v.delivered| ==> r.delivered == v.delivered)
            && (e.FailFetch? ==> r.delivered == v.delivered)
  {
    HeldIsListed(v);
    hide FeedRuns.Tells, Log, FeedRuns.Page, Between, Keyed;
  }

  /** What a feed holds ends at its cursor, inside the log. */
  lemma HeldIsListed(v: FeedRuns.World)
    requires FeedRuns.Gapless(v)
    ensures v.feed.holding != [] ==> Newest(v.feed.holding) == v.feed.cursor <= Newest(Log(v.rows, v.feed.room))
  {
    LogAscends(v.rows, v.feed.room);
    BetweenIsSlice(Log(v.rows, v.feed.room), v.start, v.start);
  }

  /** Reading a batch of the open room marks nothing past the end of its log. */
  lemma AppendReads(chat: Chat, rows: seq<Row>, batch: seq<Message>)
    requires ReadBound(chat, rows) && chat.selected < |chat.rooms| && batch != []
    requires Newest(batch) <= Newest(Log(rows, chat.rooms[chat.selected].id))
    ensures ReadBound(Append(chat, batch), rows)
    ensures LastRead(Append(chat, batch), chat.rooms[chat.selected].id) == Newest(batch)
  {
    forall room: nat ensures LastRead(Append(chat, batch), room) <= Newest(Log(rows, room)) {
      assert LastRead(Append(chat, batch), room)
          == if room == chat.rooms[chat.selected].id then Newest(batch) else LastRead(chat, room);
    }
  }

  /** A change of the chat screen and its stream that leaves the rooms and calls alone. */
  ghost predicate OnlyReads(w: World, t: World) {
    && OnRoom(w.app) && w.app.messages.Some? && t.app.messages.Some? && t.app.screen.Chatting?
    && t == w.(app := t.app, batches := t.batches)
    && t.app == w.app.(messages := t.app.messages, screen := t.app.screen)
    && t.app.screen.chat.rooms == w.app.screen.chat.rooms && t.app.screen.chat.selected == w.app.screen.chat.selected
  }

  lemma OnlyReadsKeepsBase(w: World, t: World)
    requires Base(w) && OnlyReads(w, t) && ReadBound(t.app.screen.chat, t.rows)
    ensures Base(t)
  {
    hide ReadBound, WasRead;
  }

  /** The batch the pane is given is the one the stream handed over, and reading it is reading to the cursor. */
  lemma AppendHolds(w: World, t: World, batch: seq<Message>)
    requires Inv(w) && OnlyReads(w, t) && batch != []
    requires t.batches == w.batches + [batch] && t.app.screen.chat == Append(w.app.screen.chat, batch)
    requires FeedRuns.Gapless(AsRun(t)) && t.app.messages.value.feed.room == OpenId(w.app)
    requires Newest(batch) == t.app.messages.value.feed.cursor <= Newest(Log(w.rows, OpenId(w.app)))
    ensures Inv(t)
  {
    hide ReadBound, ListsHold, FeedRuns.Gapless, Paired;
    FeedRuns.FlattenPush(w.batches, batch);
    AppendReads(w.app.screen.chat, w.rows, batch);
    OnlyReadsKeepsBase(w, t);
    StreamKeepsOpenings(w, t);
  }

  /** While a stream is open nothing opens another, so moving it disturbs no opening. */
  lemma StreamKeepsOpenings(w: World, t: World)
    requires OnRoom(w.app) && OpeningsHold(w) && w.app.messages.Some?
    requires OnRoom(t.app) && t.app.messages.Some?
    requires t.live == w.live && t.app.channel == w.app.channel && t.app.answers == w.app.answers
    ensures OpeningsHold(t)
  {
    forall k | 0 <= k < |t.live| ensures CallOpens(t, t.live[k]) {
      assert CallOpens(w, w.live[k]);
    }
    forall k | 0 <= k < |t.app.answers| ensures AnswerOpens(t, t.app.answers[k]) {
      assert AnswerOpens(w, w.app.answers[k]);
    }
  }

  lemma QuietMoveHolds(w: World, t: World)
    requires Inv(w) && w.app.messages.Some? && t.app.messages.Some?
    requires t == w.(app := w.app.(messages := t.app.messages))
    requires FeedRuns.Gapless(AsRun(t)) && t.app.messages.value.feed.room == w.app.messages.value.feed.room
    requires w.app.messages.value.feed.cursor <= t.app.messages.value.feed.cursor
    ensures Inv(t)
  {
    StreamKeepsOpenings(w, t);
  }

  lemma StreamMoveKeepsInv(w: World, e: FeedRuns.Event)
    requires Inv(w) && w.app.messages.Some? && !e.PostTo? && !e.Tick?
    ensures Inv(StreamMoved(w, e))
    ensures e.FailFetch? ==> StreamMoved(w, e).app.screen == w.app.screen
  {
    hide Inv, FeedRuns.Step, FeedRuns.Gapless, Newest, Log, Flatten, LastRead;
    InvWatches(w);
    var v, t := AsRun(w), StreamMoved(w, e);
    var r := FeedRuns.Step(v, e);
    FeedRuns.StepIsGapless(v, e);
    MoveDelivers(v, e);
    assert AsRun(t) == r.(marks := []);
    GaplessIgnoresMarks(r);
    if |r.delivered| > |v.delivered| {
      AppendHolds(w, t, r.delivered[|r.delivered| - 1]);
    } else {
      QuietMoveHolds(w, t);
    }
  }

  lemma InvWatches(w: World)
    requires Inv(w) && w.app.messages.Some?
    ensures OnRoom(w.app) && w.app.messages.value.feed.room == OpenId(w.app)
    ensures FeedRuns.Gapless(AsRun(w))
  {
  }

  lemma GaplessIgnoresMarks(r: FeedRuns.World)
    requires FeedRuns.Gapless(r)
    ensures FeedRuns.Gapless(r.(marks := []))
  {
  }

  lemma StreamFailsKeepsInv(w: World, f: Failure)
    requires Inv(w)
    ensures Inv(Step(w, StreamFails(f)))
  {
    hide Inv;
    if w.app.messages.Some? && w.app.messages.value.phase == Fetching {
      StreamMoveKeepsInv(w, FeedRuns.FailFetch);
      FailureKeepsInv(StreamMoved(w, FeedRuns.FailFetch), f);
    }
  }

  // ---- The sidebar's stream ----

  /** A change of the sidebar's stream alone, to something read from the tables since the last list. */
  lemma SidebarKeepsInv(w: World, bar: Sidebar)
    requires Inv(w) && w.app.screen.Chatting?
    requires bar.reply.Some? ==>
               && WasRead(w.roomTable, w.rows, bar.reply.value)
               && w.shown.rooms <= bar.reply.value.rooms && w.shown.rows <= bar.reply.value.rows
    ensures Inv(w.(app := w.app.(rooms := Some(bar))))
  {
    SidebarKeepsBase(w, bar);
    assert OnRoom(w.app);
    hide Base;
    ReadingCarries(w, w.(app := w.app.(rooms := Some(bar))));
  }

  lemma SidebarKeepsBase(w: World, bar: Sidebar)
    requires Base(w) && w.app.screen.Chatting?
    requires bar.reply.Some? ==>
               && WasRead(w.roomTable, w.rows, bar.reply.value)
               && w.shown.rooms <= bar.reply.value.rooms && w.shown.rows <= bar.reply.value.rows
    ensures Base(w.(app := w.app.(rooms := Some(bar))))
  {
    hide ReadBound, WasRead, Count, Snapshot.Rooms, CallFits, AnswerFits;
  }

  lemma ServeListKeepsInv(w: World)
    requires Inv(w)
    ensures Inv(Step(w, ServeList))
  {
    if w.app.rooms.Some? && w.app.rooms.value.reply.None? {
      SidebarKeepsInv(w, Sidebar(Some(Snapshot(w.roomTable, w.rows))));
    }
  }

  /** A newer list keeps every shown room where it was, under its id and name. */
  lemma NewerListKeepsRooms(roomTable: seq<NameTable.Entry>, older: Snapshot, newer: Snapshot)
    requires NameTable.Distinct(roomTable) && older.rooms <= newer.rooms <= roomTable
    ensures PaneCache.KeepsRooms(older.Rooms(), newer.Rooms())
  {
  }

  /** The list once the sidebar shows it, before anything is asked for. */
  function Shown(w: World, s: Snapshot): World
    requires w.app.screen.Chatting?
  {
    w.(app := w.app.(rooms := Some(Sidebar(None)), screen := Chatting(ShowRooms(w.app.screen.chat, s.Rooms()))),
       shown := s)
  }

  /** Showing it moves neither the selection nor the room that is open. */
  lemma ShownIsSame(w: World, s: Snapshot)
    requires Inv(w) && w.app.screen.Chatting? && w.app.rooms == Some(Sidebar(Some(s)))
    ensures OnRoom(w.app) && OnRoom(Shown(w, s).app) && OpenId(Shown(w, s).app) == OpenId(w.app)
    ensures Shown(w, s).app.screen.chat == w.app.screen.chat.(rooms := s.Rooms())
    ensures WasRead(w.roomTable, w.rows, s)
  {
    NewerListKeepsRooms(w.roomTable, w.shown, s);
    PaneCache.SelectionKept(w.app.screen.chat, s.Rooms());
  }

  lemma ShownKeepsLists(w: World, s: Snapshot)
    requires ListsHold(w) && w.app.screen.Chatting? && w.app.rooms == Some(Sidebar(Some(s)))
    requires OnRoom(Shown(w, s).app)
    ensures ListsHold(Shown(w, s))
  {
    hide WasRead;
  }

  lemma ShownKeepsPairs(w: World, s: Snapshot)
    requires Paired(w.app, w.live) && w.app.screen.Chatting?
    ensures Paired(Shown(w, s).app, Shown(w, s).live)
  {
    hide Count, ShowRooms;
  }

  lemma ShownKeepsReads(w: World, s: Snapshot)
    requires w.app.screen.Chatting? && ReadBound(w.app.screen.chat, w.rows)
    ensures ReadBound(Shown(w, s).app.screen.chat, w.rows)
  {
    assert forall room: nat :: LastRead(Shown(w, s).app.screen.chat, room) == LastRead(w.app.screen.chat, room);
  }

  lemma ShownKeepsBase(w: World, s: Snapshot)
    requires Inv(w) && w.app.screen.Chatting? && w.app.rooms == Some(Sidebar(Some(s)))
    ensures Base(Shown(w, s))
  {
    ShownIsSame(w, s);
    hide WasRead, ListsHold, Paired, ReadBound, ShowRooms;
    ShownKeepsLists(w, s);
    ShownKeepsPairs(w, s);
    ShownKeepsReads(w, s);
  }

  lemma ShownKeepsInv(w: World, s: Snapshot)
    requires Inv(w) && w.app.screen.Chatting? && w.app.rooms == Some(Sidebar(Some(s)))
    ensures Inv(Shown(w, s))
  {
    hide WasRead, ListsHold, Paired, ReadBound;
    var t := Shown(w, s);
    ShownIsSame(w, s);
    ShownKeepsBase(w, s);
    forall k | 0 <= k < |t.live| ensures CallOpens(t, t.live[k]) {
      assert CallOpens(w, w.live[k]);
    }
    forall k | 0 <= k < |t.app.answers| ensures AnswerOpens(t, t.app.answers[k]) {
      assert AnswerOpens(w, w.app.answers[k]);
    }
    assert w.app.messages.Some? ==> AsRun(t) == AsRun(w);
    assert Opening(w.app, w.live) ==> Opening(t.app, t.live);
  }

  /** A call the app starts does not care which list is recorded as shown. */
  lemma ListArrivesIs(w: World, s: Snapshot)
    requires w.app.screen.Chatting? && w.app.rooms == Some(Sidebar(Some(s)))
    ensures Step(w, ListArrives)
         == if w.app.reopen then Started(Shown(w, s), AskOpen(Shown(w, s).app)) else Shown(w, s)
  {
  }

  lemma ListArrivesKeepsInv(w: World)
    requires Inv(w)
    ensures Inv(Step(w, ListArrives))
  {
    if w.app.rooms.Some? && w.app.rooms.value.reply.Some? {
      var s := w.app.rooms.value.reply.value;
      ShownKeepsInv(w, s);
      ListArrivesIs(w, s);
      ReopeningKeepsInv(Shown(w, s));
    }
  }

  lemma ReopeningKeepsInv(w: World)
    requires Inv(w) && w.app.screen.Chatting?
    ensures Inv(Started(w, AskOpen(w.app)))
  {
    if !w.app.pending {
      OpeningStarts(w);
    }
  }

  lemma ListFailsKeepsInv(w: World, f: Failure)
    requires Inv(w)
    ensures Inv(Step(w, ListFails(f)))
  {
    hide Inv;
    if w.app.rooms.Some? {
      SidebarStops(w);
      FailureKeepsInv(w.(app := w.app.(rooms := Some(Sidebar(None)))), f);
    }
  }

  lemma SidebarStops(w: World)
    requires Inv(w) && w.app.rooms.Some?
    ensures Inv(w.(app := w.app.(rooms := Some(Sidebar(None)))))
  {
    SidebarKeepsInv(w, Sidebar(None));
  }

  // ---- Every run ----

  lemma StepKeepsInv(w: World, e: Event)
    requires Inv(w)
    ensures Inv(Step(w, e))
  {
    hide Inv;
    match e
    case PostTo(room, username, body, now) =>
      if TopKey(w.rows) < MAX_COLUMN {
        PostKeepsInv(w, room, username, body, now);
      }
    case NewRoom(name) => NewRoomKeepsInv(w, name);
    case Tick(passed) => TickKeepsInv(w, passed);
    case KeyPressed(key) => KeyKeepsInv(w, key);
    case ServeCall(i) => ServeCallKeepsInv(w, i);
    case FinishCall(i, result) => FinishCallKeepsInv(w, i, result);
    case AnswerTaken =>
      if w.app.answers != [] {
        TakeAnswerKeepsInv(w);
      }
    case StreamMoves(moved) =>
      if w.app.messages.Some? && (moved.CallNext? || moved.Wake? || moved.Serve? || moved.SettleReply?) {
        StreamMoveKeepsInv(w, moved);
      }
    case StreamFails(f) => StreamFailsKeepsInv(w, f);
    case ServeList => ServeListKeepsInv(w);
    case ListArrives => ListArrivesKeepsInv(w);
    case ListFails(f) => ListFailsKeepsInv(w, f);
    case DrawScreen(area) =>
      if w.app.screen.Chatting? {
        ChatChangeKeepsInv(w, Draw(w.app.screen.chat, area, w.render, w.dayOf));
      }
  }

  lemma TickKeepsInv(w: World, passed: nat)
    requires Inv(w)
    ensures Inv(Step(w, Tick(passed)))
  {
    SameButClock(w, Step(w, Tick(passed)));
  }

  lemma BootHolds(poll: Poll, render: Renderer, dayOf: Calendar, maxRooms: nat, roomTable: seq<NameTable.Entry>,
                  rows: seq<Row>)
    requires Server.Servable(roomTable, rows)
    ensures Inv(Boot(poll, render, dayOf, maxRooms, roomTable, rows))
  {
  }

  /** Every state of every run. */
  lemma {:induction false} RunKeepsInv(w: World, events: seq<Event>)
    requires Inv(w)
    ensures Inv(Run(w, events))
  {
    hide Inv;
    if events != [] {
      RunKeepsInv(w, events[..|events| - 1]);
      StepKeepsInv(Run(w, events[..|events| - 1]), events[|events| - 1]);
    }
  }
}
