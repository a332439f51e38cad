/**
 A feed over whole runs, against a server that anyone may post to at any point.

 A run interleaves posts to any room, the clock, calls to `next` and their being dropped, and the
 two halves of a fetch: the server reading its table, and the reply settling. Between the two the
 table may grow, the reply may be lost, and the call may be dropped.
 */
module FeedRuns {
  import opened Wire
  import opened Logs
  import opened Columns
  import opened MessageTable
  import opened Store
  import opened Api
  import opened Feed

  /** What happened to the feed's fetches. One that failed or came back short is `paced`: the next must wait. */
  datatype Mark = Began(at: nat) | Settled(at: nat, paced: bool)

  /** `start`, `delivered` and `marks` are history: nothing the feed does reads them. */
  datatype World = World(
    poll: Poll,
    rows: seq<Row>,
    clock: nat,
    feed: Feed,
    phase: Phase,
    reply: Option<seq<Message>>,
    start: nat,
    delivered: seq<seq<Message>>,
    marks: seq<Mark>)

  datatype Event =
    | PostTo(room: nat, username: string, body: string, now: nat)
    | Tick(passed: nat)
    | CallNext
    | Wake
    | Serve
    | SettleReply
    | FailFetch
    | Drop

  /** The page the server reads for a request. A limit or cursor it cannot parse is never answered. */
  function Page(rows: seq<Row>, f: Feed, poll: Poll): Option<seq<Message>> {
    if poll.PageSize() <= U32_MAX && Fits(f.room) && Fits(f.cursor)
    then Some(PageOf(Log(rows, f.room), Limit(Some(poll.PageSize())), Some(f.cursor), None))
    else None
  }

  /** The page a feed opens with. */
  function OpeningPage(rows: seq<Row>, room: nat, since: Since, poll: Poll): seq<Message> {
    PageOf(Log(rows, room), Limit(Some(poll.PageSize())), if since.After? then Some(since.pos) else None, None)
  }

  /** The position just before what the feed delivers. */
  function StartOf(since: Since, page: seq<Message>): nat {
    if since.After? then since.pos else if page == [] || page[0].pos == START then START else page[0].pos - 1
  }

  /** A feed just opened over `rows`, its opening fetch settled at `now`. */
  function Opened(rows: seq<Row>, room: nat, since: Since, poll: Poll, now: nat): World {
    var page := OpeningPage(rows, room, since, poll);
    World(poll, rows, now, Open(room, since, page, poll), Idle, None, StartOf(since, page), [],
          [Settled(now, since == FromNewest || |page| < poll.PageSize())])
  }

  /** The feed reacts, and what it hands over is recorded. */
  function Signalled(w: World, signal: Signal): World {
    var (feed, phase, out) := React(w.feed, w.phase, signal, w.poll);
    w.(feed := feed,
       phase := phase,
       reply := if phase == Fetching && w.phase == Fetching then w.reply else None,
       delivered := if out.Batch? then w.delivered + [out.messages] else w.delivered,
       marks := w.marks
                + (if w.phase == Fetching && (signal.Answered? || signal.Failed?)
                   then [Settled(w.clock, signal.Failed? || |signal.page| < w.poll.PageSize())]
                   else [])
                + (if phase == Fetching && w.phase != Fetching then [Began(w.clock)] else []))
  }

  function Step(w: World, e: Event): World {
    match e
    case PostTo(room, username, body, now) =>
      if TopKey(w.rows) < MAX_COLUMN then w.(rows := Post(w.rows, {room}, room, username, body, now, 0).0) else w
    case Tick(passed) => w.(clock := w.clock + passed)
    case CallNext => Signalled(w, Call(w.clock))
    case Wake => Signalled(w, Elapsed(w.clock))
    case Serve => if w.phase == Fetching && w.reply.None? then w.(reply := Page(w.rows, w.feed, w.poll)) else w
    case SettleReply =>
      if w.phase == Fetching && w.reply.Some? then Signalled(w, Answered(w.reply.value, w.clock)) else w
    case FailFetch => Signalled(w, Failed)
    case Drop => Signalled(w, Dropped)
  }

  function Run(w: World, events: seq<Event>): World {
    if events == [] then w else Step(Run(w, events[..|events| - 1]), events[|events| - 1])
  }

  // ---- Exactly once, in order, without a gap ----

  /** `page` is the log's own window from `c` to its last message. */
  ghost predicate Window(log: seq<Message>, c: nat, page: seq<Message>) {
    page != [] ==> c < Newest(page) <= Newest(log) && Between(log, c, Newest(page)) == page
  }

  /** What was told and what is held are together the log from `start` to the cursor. */
  ghost predicate Tells(log: seq<Message>, start: nat, f: Feed, told: seq<Message>) {
    && start <= f.cursor
    && (f.cursor == start || f.cursor <= Newest(log))
    && (f.holding != [] ==> Newest(f.holding) == f.cursor)
    && told + f.holding == Between(log, start, f.cursor)
  }

  ghost predicate Gapless(w: World) {
    var log := Log(w.rows, w.feed.room);
    && Keyed(w.rows)
    && Tells(log, w.start, w.feed, Flatten(w.delivered))
    && (forall i :: 0 <= i < |w.delivered| ==> w.delivered[i] != [])
    && (w.phase != Idle ==> w.feed.holding == [])
    && (w.reply.Some? ==> w.phase == Fetching && Window(log, w.feed.cursor, w.reply.value))
  }

  lemma FlattenPush(batches: seq<seq<Message>>, batch: seq<Message>)
    ensures Flatten(batches + [batch]) == Flatten(batches) + batch
  {
    assert (batches + [batch])[..|batches|] == batches;
  }

  lemma LimitIsPositive(asked: Option<nat>)
    ensures 1 <= Limit(asked) <= MAX_LIMIT
  {
  }

  /** What a post does to the rows while the sequence lasts, and so to one room's log. */
  lemma PostPushes(rows: seq<Row>, room: nat, username: string, body: string, now: nat, watched: nat)
    requires Keyed(rows) && TopKey(rows) < MAX_COLUMN
    ensures var after := Post(rows, {room}, room, username, body, now, 0).0;
            var log := Log(rows, watched);
            && Keyed(after)
            && Ascending(log) && Newest(log) <= TopKey(rows)
            && (Log(after, watched) == log
                || exists m: Message :: m.pos > TopKey(rows) && Log(after, watched) == log + [m])
  {
    PostLandsLast(rows, {room}, room, username, body, now, 0);
    PostKeepsKeyed(rows, {room}, room, username, body, now, 0);
    LogAscends(rows, watched);
    var after := Post(rows, {room}, room, username, body, now, 0).0;
    if after != rows {
      var row := Row(TopKey(rows) + 1, room, username, body, now);
      LogPush(rows, row, watched);
      assert Decode(row) == Ok(Message(row.pos, username, body, now));
    }
  }

  /** A later post moves no window that has been read. */
  lemma WindowKeeps(log: seq<Message>, m: Message, c: nat, page: seq<Message>)
    requires Ascending(log) && m.pos > Newest(log) && Window(log, c, page)
    ensures Window(log + [m], c, page)
  {
    if page != [] {
      BetweenUnmoved(log, m, c, Newest(page));
    }
  }

  /** Nor what a feed has told. */
  lemma TellsKeeps(log: seq<Message>, m: Message, start: nat, f: Feed, told: seq<Message>)
    requires Ascending(log) && m.pos > Newest(log) && Tells(log, start, f, told)
    ensures Tells(log + [m], start, f, told)
  {
    BetweenUnmoved(log, m, start, f.cursor);
  }

  lemma PostIsGapless(w: World, room: nat, username: string, body: string, now: nat)
    requires Gapless(w)
    ensures Gapless(Step(w, PostTo(room, username, body, now)))
  {
    if TopKey(w.rows) < MAX_COLUMN {
      PostPushes(w.rows, room, username, body, now, w.feed.room);
      var t := Step(w, PostTo(room, username, body, now));
      var log, after := Log(w.rows, w.feed.room), Log(t.rows, w.feed.room);
      if after != log {
        var m: Message :| m.pos > TopKey(w.rows) && after == log + [m];
        TellsKeeps(log, m, w.start, w.feed, Flatten(w.delivered));
        if w.reply.Some? {
          WindowKeeps(log, m, w.feed.cursor, w.reply.value);
        }
      }
    }
  }

  lemma ServeIsGapless(w: World)
    requires Gapless(w)
    ensures Gapless(Step(w, Serve))
  {
    LogAscends(w.rows, w.feed.room);
    LimitIsPositive(Some(w.poll.PageSize()));
    PageIsWindow(Log(w.rows, w.feed.room), w.feed.cursor, Limit(Some(w.poll.PageSize())));
  }

  /** A page that settles is told after everything before it. */
  lemma TellsPage(log: seq<Message>, start: nat, f: Feed, g: Feed, told: seq<Message>, page: seq<Message>)
    requires Ascending(log) && Tells(log, start, f, told) && f.holding == [] && page != []
    requires Window(log, f.cursor, page) && g.cursor == Newest(page) && g.holding == []
    ensures Tells(log, start, g, told + page)
  {
    BetweenJoins(log, start, f.cursor, g.cursor);
    assert told + [] == told;
    assert told + page + [] == told + page;
  }

  /** What was held is told next. */
  lemma TellsHeld(log: seq<Message>, start: nat, f: Feed, g: Feed, told: seq<Message>)
    requires Tells(log, start, f, told) && g.cursor == f.cursor && g.holding == []
    ensures Tells(log, start, g, told + f.holding)
  {
    assert told + f.holding + [] == told + f.holding;
  }

  /** What has been told depends on the cursor and on what is held. */
  lemma TellsSame(log: seq<Message>, start: nat, f: Feed, g: Feed, told: seq<Message>)
    requires Tells(log, start, f, told) && g.cursor == f.cursor && g.holding == f.holding
    ensures Tells(log, start, g, told)
  {
  }

  /** A signal that hands nothing over leaves the cursor and what is held. */
  lemma QuietSignal(w: World, signal: Signal)
    requires !(w.phase == Fetching && signal.Answered? && signal.page != [])
    requires !(w.phase == Idle && signal.Call? && w.feed.holding != [])
    ensures var t := Signalled(w, signal);
            t.feed.cursor == w.feed.cursor && t.feed.holding == w.feed.holding && t.delivered == w.delivered
  {
  }

  /** A reply that was read while the request was out, or any signal that brings no messages. */
  lemma {:induction false} SignalIsGapless(w: World, signal: Signal)
    requires Gapless(w)
    requires signal.Answered? ==> w.reply == Some(signal.page)
    ensures Gapless(Signalled(w, signal))
  {
    hide Tells, Window, Log, Flatten, Ascending, Keyed, Newest, InTime;
    var log := Log(w.rows, w.feed.room);
    var t := Signalled(w, signal);
    LogAscends(w.rows, w.feed.room);
    if w.phase == Fetching && signal.Answered? && signal.page != [] {
      TellsPage(log, w.start, w.feed, t.feed, Flatten(w.delivered), signal.page);
      FlattenPush(w.delivered, signal.page);
    } else if w.phase == Idle && signal.Call? && w.feed.holding != [] {
      TellsHeld(log, w.start, w.feed, t.feed, Flatten(w.delivered));
      FlattenPush(w.delivered, w.feed.holding);
    } else {
      QuietSignal(w, signal);
      TellsSame(log, w.start, w.feed, t.feed, Flatten(w.delivered));
    }
  }

  lemma StepKeepsStart(w: World, e: Event)
    ensures Step(w, e).start == w.start && Step(w, e).feed.room == w.feed.room && Step(w, e).poll == w.poll
  {
    hide Page, Post;
  }

  lemma {:induction false} StepIsGapless(w: World, e: Event)
    requires Gapless(w)
    ensures Gapless(Step(w, e))
    ensures Step(w, e).start == w.start && Step(w, e).feed.room == w.feed.room && Step(w, e).poll == w.poll
  {
    StepKeepsStart(w, e);
    hide Tells, Window, Keyed, Log, Signalled, Page;
    match e
    case PostTo(room, username, body, now) => PostIsGapless(w, room, username, body, now);
    case Tick(_) =>
    case Serve => ServeIsGapless(w);
    case CallNext => SignalIsGapless(w, Call(w.clock));
    case Wake => SignalIsGapless(w, Elapsed(w.clock));
    case SettleReply =>
      if w.phase == Fetching && w.reply.Some? {
        SignalIsGapless(w, Answered(w.reply.value, w.clock));
      }
    case FailFetch => SignalIsGapless(w, Failed);
    case Drop => SignalIsGapless(w, Dropped);
  }

  lemma OpenedAfterTells(log: seq<Message>, pos: nat, limit: nat)
    requires Ascending(log) && limit > 0
    ensures var page := FirstN(Above(log, pos), limit);
            page == Between(log, pos, if page == [] then pos else Newest(page))
  {
    PageIsWindow(log, pos, limit);
    BetweenIsSlice(log, pos, pos);
  }

  lemma OpenedNewestTells(log: seq<Message>, limit: nat)
    requires Ascending(log) && limit > 0
    ensures var page := LastN(log, limit);
            && page == Between(log, StartOf(FromNewest, page), if page == [] then START else Newest(page))
            && (page != [] ==> StartOf(FromNewest, page) < Newest(page) == Newest(log))
  {
    var page := LastN(log, limit);
    NewestPageIsWindow(log, limit);
    BetweenIsSlice(log, START, START);
    if page != [] {
      AtMostNewest(log, |log| - |page|);
    }
    hide Ascending, Between, Rank, Newest;
    assert page != [] ==> page[0] == log[|log| - |page|];
  }

  /** An opening page tells the log from its own start, with nothing handed over yet. */
  lemma OpeningTells(rows: seq<Row>, room: nat, since: Since, poll: Poll)
    requires Keyed(rows)
    ensures var page := OpeningPage(rows, room, since, poll);
            && Tells(Log(rows, room), StartOf(since, page), Open(room, since, page, poll), [])
            && (since == FromNewest ==> Open(room, since, page, poll).cursor == Newest(Log(rows, room)))
  {
    LogAscends(rows, room);
    LimitIsPositive(Some(poll.PageSize()));
    var log, limit := Log(rows, room), Limit(Some(poll.PageSize()));
    var page := OpeningPage(rows, room, since, poll);
    if since.After? {
      OpenedAfterTells(log, since.pos, limit);
      PageIsWindow(log, since.pos, limit);
    } else {
      OpenedNewestTells(log, limit);
    }
    assert [] + page == page;
  }

  lemma OpenedIsGapless(rows: seq<Row>, room: nat, since: Since, poll: Poll, now: nat)
    requires Keyed(rows)
    ensures Gapless(Opened(rows, room, since, poll, now))
  {
    OpeningTells(rows, room, since, poll);
  }

  lemma {:induction false} RunIsGapless(w: World, events: seq<Event>)
    requires Gapless(w)
    ensures Gapless(Run(w, events))
    ensures Run(w, events).start == w.start && Run(w, events).feed.room == w.feed.room
  {
    if events != [] {
      RunIsGapless(w, events[..|events| - 1]);
      StepIsGapless(Run(w, events[..|events| - 1]), events[|events| - 1]);
    }
  }

  /**
   In every interleaving, the batches handed over so far, then what is held, are exactly the room's
   log from where the feed started to its cursor: each message once, in order, none left out. No
   batch is empty.
   */
  lemma {:induction false} ExactlyOnce(rows: seq<Row>, room: nat, since: Since, poll: Poll, now: nat,
                                       events: seq<Event>)
    requires Keyed(rows)
    ensures var w := Run(Opened(rows, room, since, poll, now), events);
            ToldOnce(Log(w.rows, room), StartOf(since, OpeningPage(rows, room, since, poll)), w)
  {
    OpenedIsGapless(rows, room, since, poll, now);
    RunIsGapless(Opened(rows, room, since, poll, now), events);
    LogAscends(Run(Opened(rows, room, since, poll, now), events).rows, room);
  }

  /** Batches handed over, then what is held, are the log from the start to the cursor, and no batch is empty. */
  ghost predicate ToldOnce(log: seq<Message>, start: nat, w: World) {
    && Flatten(w.delivered) + w.feed.holding == Between(log, start, w.feed.cursor)
    && Ascending(log)
    && forall i :: 0 <= i < |w.delivered| ==> w.delivered[i] != []
  }

  // ---- Pacing ----

  ghost predicate InTime(marks: seq<Mark>, interval: nat) {
    forall i, j :: 0 <= i < j < |marks| && marks[i].Settled? && marks[i].paced && marks[j].Began? ==>
      marks[j].at >= marks[i].at + interval
  }

  /** The interval after every paced settlement is over at `t`. */
  ghost predicate Rested(marks: seq<Mark>, interval: nat, t: nat) {
    forall i :: 0 <= i < |marks| && marks[i].Settled? && marks[i].paced ==> t >= marks[i].at + interval
  }

  ghost predicate Paced(w: World) {
    && InTime(w.marks, w.poll.interval)
    && (forall i :: 0 <= i < |w.marks| ==> w.marks[i].at <= w.clock)
    && (w.phase == Waiting ==> w.feed.due.Some?)
    && (w.feed.due.Some? ==> Rested(w.marks, w.poll.interval, w.feed.due.value))
    && (w.phase == Fetching || (w.feed.due.None? && w.feed.catchingUp) ==> Rested(w.marks, w.poll.interval, w.clock))
  }

  lemma BeginInTime(marks: seq<Mark>, interval: nat, now: nat)
    requires InTime(marks, interval) && Rested(marks, interval, now)
    ensures InTime(marks + [Began(now)], interval)
    ensures forall t: nat :: Rested(marks, interval, t) ==> Rested(marks + [Began(now)], interval, t)
  {
    var after := marks + [Began(now)];
    assert forall i :: 0 <= i < |marks| ==> after[i] == marks[i];
  }

  lemma SettleInTime(marks: seq<Mark>, interval: nat, now: nat, paced: bool)
    requires InTime(marks, interval)
    ensures InTime(marks + [Settled(now, paced)], interval)
    ensures forall t: nat :: Rested(marks, interval, t) && (paced ==> t >= now + interval) ==>
              Rested(marks + [Settled(now, paced)], interval, t)
  {
    var after := marks + [Settled(now, paced)];
    assert forall i :: 0 <= i < |marks| ==> after[i] == marks[i];
  }

  /** A settled fetch: what comes next waits for a deadline, or the page was full. */
  lemma SettleIsPaced(w: World, signal: Signal)
    requires Paced(w) && w.phase == Fetching && (signal.Answered? || signal.Failed?)
    requires signal.Answered? ==> signal.now == w.clock
    ensures Paced(Signalled(w, signal))
  {
    var paced := signal.Failed? || |signal.page| < w.poll.PageSize();
    SettleInTime(w.marks, w.poll.interval, w.clock, paced);
    var t := Signalled(w, signal);
    assert t.marks == w.marks + [Settled(w.clock, paced)];
    hide InTime;
    assert !paced ==> Rested(t.marks, w.poll.interval, w.clock);
    assert Rested(t.marks, w.poll.interval, w.clock + w.poll.interval);
    hide Rested;
  }

  /** An interval from now every interval that has begun is over, and once the deadline has passed they are already. */
  lemma PacedRests(w: World)
    requires Paced(w)
    ensures Rested(w.marks, w.poll.interval, w.clock + w.poll.interval)
    ensures w.feed.due.Some? && w.clock >= w.feed.due.value ==> Rested(w.marks, w.poll.interval, w.clock)
  {
  }

  lemma SignalIsPaced(w: World, signal: Signal)
    requires Paced(w)
    requires signal.Call? || signal.Elapsed? || signal.Answered? ==> signal.now == w.clock
    ensures Paced(Signalled(w, signal))
  {
    if w.phase == Fetching && (signal.Answered? || signal.Failed?) {
      SettleIsPaced(w, signal);
    } else {
      PacedRests(w);
      hide InTime, Rested;
      var t := Signalled(w, signal);
      if t.phase == Fetching && w.phase != Fetching {
        BeginInTime(w.marks, w.poll.interval, w.clock);
        assert t.marks == w.marks + [Began(w.clock)];
      } else {
        assert t.marks == w.marks;
      }
    }
  }

  lemma StepIsPaced(w: World, e: Event)
    requires Paced(w)
    ensures Paced(Step(w, e)) && Step(w, e).poll == w.poll
  {
    match e
    case CallNext => SignalIsPaced(w, Call(w.clock));
    case Wake => SignalIsPaced(w, Elapsed(w.clock));
    case SettleReply =>
      if w.phase == Fetching && w.reply.Some? {
        SignalIsPaced(w, Answered(w.reply.value, w.clock));
      }
    case FailFetch => SignalIsPaced(w, Failed);
    case Drop => SignalIsPaced(w, Dropped);
    case _ =>
  }

  lemma {:induction false} RunIsPaced(w: World, events: seq<Event>)
    requires Paced(w)
    ensures Paced(Run(w, events)) && Run(w, events).poll == w.poll
  {
    hide Paced, Step;
    if events != [] {
      RunIsPaced(w, events[..|events| - 1]);
      StepIsPaced(Run(w, events[..|events| - 1]), events[|events| - 1]);
    }
  }

  lemma OpenedIsPaced(rows: seq<Row>, room: nat, since: Since, poll: Poll, now: nat)
    ensures Paced(Opened(rows, room, since, poll, now))
  {
  }

  /**
   From the opening fetch on: after a failure or a short page at some time, no later fetch of the feed
   begins before that time plus the interval, whatever calls are made and dropped in between.
   */
  lemma {:induction false} FetchesArePaced(rows: seq<Row>, room: nat, since: Since, poll: Poll, now: nat,
                                           events: seq<Event>)
    ensures InTime(Run(Opened(rows, room, since, poll, now), events).marks, poll.interval)
  {
    OpenedIsPaced(rows, room, since, poll, now);
    RunIsPaced(Opened(rows, room, since, poll, now), events);
  }

  /** A feed opened at the newest page waits before its first fetch, however full that page was. */
  lemma NewestWaitsFirst(rows: seq<Row>, room: nat, poll: Poll, now: nat)
    ensures var w := Step(Step(Opened(rows, room, FromNewest, poll, now), CallNext), CallNext);
            && w.phase == Waiting
            && w.feed.due == Some(now + poll.interval)
            && w.feed.holding == []
  {
    hide PageOf, Log;
  }

  /** With nothing held and no deadline, a call fetches at once if it is catching up, and else waits an interval. */
  lemma AskedWaitsInterval(w: World)
    requires w.phase == Idle && w.feed.holding == [] && w.feed.due.None?
    ensures var t := Step(w, CallNext);
            if w.feed.catchingUp then t.phase == Fetching && t.feed.due.None?
            else t.phase == Waiting && t.feed.due == Some(w.clock + w.poll.interval)
  {
  }

  predicate Settles(e: Event) {
    e.SettleReply? || e.FailFetch?
  }

  lemma StepKeepsDeadline(w: World, e: Event)
    requires !Settles(e)
    ensures w.feed.due.Some? ==> Step(w, e).feed.due == w.feed.due
  {
    hide Page, Post;
  }

  /** A deadline is not moved by any number of calls, made or dropped, until a fetch settles. */
  lemma {:induction false} DeadlineHolds(w: World, events: seq<Event>, due: nat)
    requires w.feed.due == Some(due)
    requires forall i :: 0 <= i < |events| ==> !Settles(events[i])
    ensures Run(w, events).feed.due == Some(due)
  {
    hide Step, Settles;
    if events != [] {
      DeadlineHolds(w, events[..|events| - 1], due);
      StepKeepsDeadline(Run(w, events[..|events| - 1]), events[|events| - 1]);
    }
  }

  /** So a call that is polled through the deadline fetches, however many were dropped before it. */
  lemma {:induction false} CalledThroughDeadlineFetches(w: World, events: seq<Event>, due: nat)
    requires w.feed.due == Some(due) && w.feed.holding == []
    requires forall i :: 0 <= i < |events| ==> !Settles(events[i])
    requires Run(w, events).clock >= due
    ensures Step(Step(Step(Run(w, events), Drop), CallNext), Wake).phase == Fetching
  {
    DeadlineHolds(w, events, due);
    HoldingStaysEmpty(w, events);
  }

  lemma StepKeepsEmpty(w: World, e: Event)
    requires w.feed.holding == []
    ensures Step(w, e).feed.holding == []
  {
    hide Page, Post;
  }

  lemma {:induction false} HoldingStaysEmpty(w: World, events: seq<Event>)
    requires w.feed.holding == []
    ensures Run(w, events).feed.holding == []
  {
    hide Step;
    if events != [] {
      HoldingStaysEmpty(w, events[..|events| - 1]);
      StepKeepsEmpty(Run(w, events[..|events| - 1]), events[|events| - 1]);
    }
  }
}
