/**
 The terminal app over whole runs, with the server it talks to.

 A run interleaves posts to any room and new rooms, the clock, keys, draws, the calls that are out
 (each served and then finished, at any time, in any order), the answers as the loop takes them, and
 both streams. A call outlives the channel it answers through: its answer then goes nowhere.
 */
module Terminal {
  import opened Wire
  import opened Logs
  import opened Columns
  import opened MessageTable
  import NameTable
  import Store
  import Server
  import opened Feed
  import FeedRuns
  import opened Chat
  import opened App

  /** What the server has read for a call that is out. */
  datatype Served = ServedList(snapshot: Snapshot) | ServedPage(page: seq<Message>)

  datatype Live = Live(call: Call, channel: nat, served: Option<Served>)

  /**
   `start` and `batches` are the open stream's history, `shown` is the tables the sidebar's list was
   read from, and `logins` counts the chat screens there have been. Nothing the app does reads them.
   */
  datatype World = World(
    poll: Poll,
    render: Renderer,
    dayOf: Calendar,
    maxRooms: nat,
    roomTable: seq<NameTable.Entry>,
    rows: seq<Row>,
    clock: nat,
    app: App,
    live: seq<Live>,
    start: nat,
    batches: seq<seq<Message>>,
    shown: Snapshot,
    logins: nat)

  datatype Event =
    | PostTo(room: nat, username: string, body: string, now: nat)
    | NewRoom(name: string)
    | Tick(passed: nat)
    | KeyPressed(key: AppKey)
    | ServeCall(i: nat)
    | FinishCall(i: nat, result: Result<(), Failure>)
    | AnswerTaken
    | StreamMoves(e: FeedRuns.Event)
    | StreamFails(f: Failure)
    | ServeList
    | ListArrives
    | ListFails(f: Failure)
    | DrawScreen(area: Rect)

  /** The open stream as a run of its feed. */
  function AsRun(w: World): FeedRuns.World
    requires w.app.messages.Some?
  {
    var s := w.app.messages.value;
    FeedRuns.World(w.poll, w.rows, w.clock, s.feed, s.phase, s.reply, w.start, w.batches, [])
  }

  /** The world once the app has reacted: a call it started is live, on the app's own channel. */
  function Started(w: World, reaction: (App, Option<Call>)): World {
    var (app, call) := reaction;
    w.(app := app,
       live := if call.Some? then w.live + [Live(call.value, app.channel, None)] else w.live)
  }

  /** What a finished call answers. One that needs the server's reply cannot succeed without it. */
  function AnswerOf(l: Live, result: Result<(), Failure>, poll: Poll): Option<Answer> {
    match l.call
    case Connect => Some(Connected(result))
    case Register => Some(Registered(result))
    case LogIn(username) =>
      (match result
       case Err(f) => Some(LoggedIn(username, Err(f)))
       case Ok(_) =>
         if l.served.Some? && l.served.value.ServedList?
         then Some(LoggedIn(username, Ok(l.served.value.snapshot))) else None)
    case OpenFeed(room) =>
      (match result
       case Err(f) => Some(RoomOpened(Err(f)))
       case Ok(_) =>
         if l.served.Some? && l.served.value.ServedPage?
         then Some(RoomOpened(Ok(Open(room, FromNewest, l.served.value.page, poll)))) else None)
    case PostBody(_, body) => Some(MessageSent(body, result))
    case MakeRoom(_) => Some(RoomCreated(result))
  }

  /** What the server reads for a call. */
  function ServeFor(w: World, call: Call): Option<Served> {
    match call
    case LogIn(_) => Some(ServedList(Snapshot(w.roomTable, w.rows)))
    case OpenFeed(room) =>
      if room as int in Store.Ids(w.roomTable) && w.poll.PageSize() <= Store.U32_MAX
      then Some(ServedPage(FeedRuns.OpeningPage(w.rows, room, FromNewest, w.poll))) else None
    case _ => None
  }

  function Without<T>(s: seq<T>, i: nat): seq<T>
    requires i < |s|
  {
    s[..i] + s[i + 1..]
  }

  /** The stream after its feed moved, and the batch it handed over applied. */
  function StreamMoved(w: World, e: FeedRuns.Event): World
    requires w.app.messages.Some?
  {
    var r := FeedRuns.Step(AsRun(w), e);
    var app := w.app.(messages := Some(Stream(r.feed, r.phase, r.reply)));
    if |r.delivered| > |w.batches|
    then w.(app := ApplyMessages(app, Ok(r.delivered[|r.delivered| - 1])), batches := r.delivered)
    else w.(app := app)
  }

  function TakeAnswer(w: World): World
    requires w.app.answers != []
  {
    var answer := w.app.answers[0];
    var reacted := Started(w, Act(w.app.(answers := w.app.answers[1..]), answer));
    match answer
    case LoggedIn(_, Ok(listed)) => reacted.(shown := listed, logins := w.logins + 1, batches := [], start := START)
    case RoomOpened(Ok(feed)) => reacted.(batches := [], start := FeedRuns.StartOf(FromNewest, feed.holding))
    case _ => reacted
  }

  function Step(w: World, e: Event): World {
    match e
    case PostTo(room, username, body, now) =>
      if TopKey(w.rows) < MAX_COLUMN then w.(rows := Post(w.rows, {room}, room, username, body, now, 0).0) else w
    case NewRoom(name) => w.(roomTable := NameTable.TryInsert(w.roomTable, w.maxRooms, name, "").0)
    case Tick(passed) => w.(clock := w.clock + passed)
    case KeyPressed(key) => if w.app.exit then w else Started(w, Press(w.app, key))
    case ServeCall(i) =>
      if i < |w.live| && w.live[i].served.None?
      then w.(live := w.live[i := w.live[i].(served := ServeFor(w, w.live[i].call))]) else w
    case FinishCall(i, result) =>
      if i < |w.live| && AnswerOf(w.live[i], result, w.poll).Some? then
        w.(live := Without(w.live, i),
           app := if w.live[i].channel == w.app.channel
                  then w.app.(answers := w.app.answers + [AnswerOf(w.live[i], result, w.poll).value]) else w.app)
      else w
    case AnswerTaken => if w.app.exit || w.app.answers == [] then w else TakeAnswer(w)
    case StreamMoves(moved) =>
      if w.app.messages.Some? && (moved.CallNext? || moved.Wake? || moved.Serve? || moved.SettleReply?)
      then StreamMoved(w, moved) else w
    case StreamFails(f) =>
      if w.app.messages.Some? && w.app.messages.value.phase == Fetching
      then
        var failed := StreamMoved(w, FeedRuns.FailFetch);
        failed.(app := ApplyMessages(failed.app, Err(f)))
      else w
    case ServeList =>
      if w.app.rooms.Some? && w.app.rooms.value.reply.None?
      then w.(app := w.app.(rooms := Some(Sidebar(Some(Snapshot(w.roomTable, w.rows)))))) else w
    case ListArrives =>
      if w.app.rooms.Some? && w.app.rooms.value.reply.Some? then
        var snapshot := w.app.rooms.value.reply.value;
        Started(w, ApplyRooms(w.app.(rooms := Some(Sidebar(None))), Ok(snapshot))).(shown := snapshot)
      else w
    case ListFails(f) =>
      if w.app.rooms.Some? then Started(w, ApplyRooms(w.app.(rooms := Some(Sidebar(None))), Err(f))) else w
    case DrawScreen(area) =>
      if w.app.screen.Chatting?
      then w.(app := w.app.(screen := Chatting(Draw(w.app.screen.chat, area, w.render, w.dayOf)))) else w
  }

  function Run(w: World, events: seq<Event>): World {
    if events == [] then w else Step(Run(w, events[..|events| - 1]), events[|events| - 1])
  }

  /** A fresh app beside a server whose tables may already hold anything they can hold. */
  function Boot(poll: Poll, render: Renderer, dayOf: Calendar, maxRooms: nat, roomTable: seq<NameTable.Entry>,
                rows: seq<Row>): World
  {
    World(poll, render, dayOf, maxRooms, roomTable, rows, 0, NewApp(), [], START, [], Snapshot(roomTable, rows), 0)
  }

  // ---- What every reachable state keeps ----

  /** How many live calls answer through a channel. */
  function Count(live: seq<Live>, channel: nat): nat {
    if live == [] then 0
    else Count(live[..|live| - 1], channel) + if live[|live| - 1].channel == channel then 1 else 0
  }

  ghost predicate TablesHold(w: World) {
    Server.Servable(w.roomTable, w.rows)
  }

  /** The calls each screen makes. */
  predicate CallFits(screen: Screen, call: Call) {
    match screen
    case Connection => call.Connect?
    case SignIn(_) => call.Register? || call.LogIn?
    case Chatting(_) => call.OpenFeed? || call.PostBody? || call.MakeRoom?
  }

  predicate AnswerFits(screen: Screen, answer: Answer) {
    match screen
    case Connection => answer.Connected?
    case SignIn(_) => answer.Registered? || answer.LoggedIn?
    case Chatting(_) => answer.RoomOpened? || answer.MessageSent? || answer.RoomCreated?
  }

  /** One call or its answer while something is pending, nothing otherwise, and always the screen's own. */
  ghost predicate Paired(app: App, live: seq<Live>) {
    && Count(live, app.channel) + |app.answers| == (if app.pending then 1 else 0)
    && (forall i :: 0 <= i < |live| ==> live[i].channel <= app.channel)
    && (forall i :: 0 <= i < |live| && live[i].channel == app.channel ==> CallFits(app.screen, live[i].call))
    && (forall i :: 0 <= i < |app.answers| ==> AnswerFits(app.screen, app.answers[i]))
    && (!app.screen.Chatting? ==> app.messages.None? && app.rooms.None? && !app.reopen)
    && (app.screen.Chatting? ==> app.rooms.Some?)
    && (app.client <==> !app.screen.Connection?)
  }

  /** A list was read from the tables at some moment, and the tables only grow. */
  ghost predicate WasRead(roomTable: seq<NameTable.Entry>, rows: seq<Row>, s: Snapshot) {
    s.rooms != [] && s.rooms <= roomTable && s.rows <= rows
  }

  ghost predicate ListsHold(w: World) {
    && (forall i :: 0 <= i < |w.live| && w.live[i].served.Some? && w.live[i].served.value.ServedList? ==>
          WasRead(w.roomTable, w.rows, w.live[i].served.value.snapshot))
    && (forall i :: 0 <= i < |w.app.answers| && w.app.answers[i].LoggedIn? && w.app.answers[i].listed.Ok? ==>
          WasRead(w.roomTable, w.rows, w.app.answers[i].listed.value))
    && (w.app.screen.Chatting? ==>
          && WasRead(w.roomTable, w.rows, w.shown)
          && w.app.screen.chat.rooms == w.shown.Rooms()
          && OnRoom(w.app)
          && (w.app.rooms.Some? && w.app.rooms.value.reply.Some? ==>
                var s := w.app.rooms.value.reply.value;
                WasRead(w.roomTable, w.rows, s) && w.shown.rooms <= s.rooms && w.shown.rows <= s.rows))
  }

  /** Nothing is marked read past the end of its room's log. */
  ghost predicate ReadBound(chat: Chat, rows: seq<Row>) {
    forall room: nat :: LastRead(chat, room) <= Newest(Log(rows, room))
  }

  /** A room is selected on the chat screen. */
  predicate OnRoom(app: App) {
    app.screen.Chatting? && app.screen.chat.selected < |app.screen.chat.rooms|
  }

  /** The room the chat screen has open. */
  function OpenId(app: App): nat
    requires OnRoom(app)
  {
    app.screen.chat.rooms[app.screen.chat.selected].id
  }

  /** A feed about to open tells the log from its own start, and starts past what has been read. */
  ghost predicate OpeningHolds(poll: Poll, rows: seq<Row>, chat: Chat, room: nat, feed: Feed) {
    && feed == Open(room, FromNewest, feed.holding, poll)
    && FeedRuns.Tells(Log(rows, room), FeedRuns.StartOf(FromNewest, feed.holding), feed, [])
    && LastRead(chat, room) <= feed.cursor
  }

  /** The stream watches the open room, and the pane is what the stream has handed over. */
  ghost predicate StreamHolds(w: World)
    requires OnRoom(w.app)
  {
    var chat, id := w.app.screen.chat, OpenId(w.app);
    match w.app.messages
    case None => chat.messages == [] && chat.watched == None
    case Some(s) =>
      && s.feed.room == id
      && chat.watched == Some(id)
      && !w.app.reopen
      && FeedRuns.Gapless(AsRun(w))
      && chat.messages == Flatten(w.batches)
      && LastRead(chat, id) <= s.feed.cursor
  }

  /** A call that would open a feed opens the selected room, and what it was served will tell its log. */
  ghost predicate CallOpens(w: World, l: Live)
    requires OnRoom(w.app)
  {
    l.channel == w.app.channel && l.call.OpenFeed? ==>
      && l.call.room == OpenId(w.app)
      && w.app.messages.None?
      && (l.served.Some? && l.served.value.ServedPage? ==>
            OpeningHolds(w.poll, w.rows, w.app.screen.chat, OpenId(w.app),
                         Open(OpenId(w.app), FromNewest, l.served.value.page, w.poll)))
  }

  ghost predicate AnswerOpens(w: World, answer: Answer)
    requires OnRoom(w.app)
  {
    answer.RoomOpened? ==>
      && w.app.messages.None?
      && (answer.feed.Ok? ==>
            OpeningHolds(w.poll, w.rows, w.app.screen.chat, OpenId(w.app), answer.feed.value))
  }

  ghost predicate OpeningsHold(w: World)
    requires OnRoom(w.app)
  {
    && (forall i :: 0 <= i < |w.live| ==> CallOpens(w, w.live[i]))
    && (forall i :: 0 <= i < |w.app.answers| ==> AnswerOpens(w, w.app.answers[i]))
  }

  /** A room is being opened: its call is out, or its answer is waiting. */
  ghost predicate Opening(app: App, live: seq<Live>) {
    || (exists i :: 0 <= i < |live| && live[i].channel == app.channel && live[i].call.OpenFeed?)
    || (exists i :: 0 <= i < |app.answers| && app.answers[i].RoomOpened?)
  }

  ghost predicate Base(w: World) {
    && TablesHold(w)
    && Paired(w.app, w.live)
    && ListsHold(w)
    && (w.app.screen.Chatting? ==> ReadBound(w.app.screen.chat, w.rows))
  }

  ghost predicate Inv(w: World) {
    && Base(w)
    && (w.app.screen.Chatting? ==>
          && StreamHolds(w)
          && OpeningsHold(w)
          && (w.app.messages.Some? || w.app.reopen || Opening(w.app, w.live)))
  }

  // ---- Counting calls ----

  lemma {:induction false} CountJoins(a: seq<Live>, b: seq<Live>, channel: nat)
    ensures Count(a + b, channel) == Count(a, channel) + Count(b, channel)
  {
    if b == [] {
      assert a + b == a;
    } else {
      assert (a + b)[..|a + b| - 1] == a + b[..|b| - 1];
      CountJoins(a, b[..|b| - 1], channel);
    }
  }

  lemma CountOne(l: Live, channel: nat)
    ensures Count([l], channel) == if l.channel == channel then 1 else 0
  {
    assert [l][..0] == [];
  }

  lemma CountAround(live: seq<Live>, i: nat, channel: nat)
    requires i < |live|
    ensures Count(live, channel) == Count(Without(live, i), channel) + (if live[i].channel == channel then 1 else 0)
  {
    hide Count;
    assert live == live[..i] + ([live[i]] + live[i + 1..]);
    CountJoins(live[..i], [live[i]] + live[i + 1..], channel);
    CountJoins([live[i]], live[i + 1..], channel);
    CountJoins(live[..i], live[i + 1..], channel);
    CountOne(live[i], channel);
  }

  /** What a call was served does not matter to the count. */
  lemma CountReplaced(live: seq<Live>, i: nat, l: Live, channel: nat)
    requires i < |live| && l.channel == live[i].channel
    ensures Count(live[i := l], channel) == Count(live, channel)
  {
    CountAround(live, i, channel);
    CountAround(live[i := l], i, channel);
    hide Count;
    assert Without(live[i := l], i) == Without(live, i);
  }

  /** Nothing is counted exactly when nothing answers through the channel. */
  lemma {:induction false} CountZero(live: seq<Live>, channel: nat)
    ensures Count(live, channel) == 0 <==> forall i :: 0 <= i < |live| ==> live[i].channel != channel
  {
    if live != [] {
      var front := live[..|live| - 1];
      CountZero(front, channel);
      assert forall i :: 0 <= i < |front| ==> front[i] == live[i];
    }
  }
}
