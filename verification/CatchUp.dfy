/** How many fetches a feed makes before it first waits. */
module CatchUp {
  import opened Wire
  import opened Logs
  import opened Columns
  import opened MessageTable
  import opened Api
  import opened Feed
  import opened FeedRuns

  function Fetches(marks: seq<Mark>): nat {
    if marks == [] then 0
    else Fetches(marks[..|marks| - 1]) + if marks[|marks| - 1].Settled? then 1 else 0
  }

  lemma FetchesPush(marks: seq<Mark>, m: Mark)
    ensures Fetches(marks + [m]) == Fetches(marks) + if m.Settled? then 1 else 0
  {
    assert (marks + [m])[..|marks|] == marks;
  }

  /** How many full pages of a room are outstanding after `pos`. */
  function FullPages(rows: seq<Row>, room: nat, pos: nat, poll: Poll): nat {
    |Above(Log(rows, room), pos)| / if poll.pageLimit == 0 then 1 else poll.pageLimit
  }

  // ---- Every run without posts or failures ----

  predicate Plain(e: Event) {
    !e.PostTo? && !e.FailFetch?
  }

  /** Where a feed that opened with `above` outstanding stands, told by how many of its fetches have settled. */
  ghost predicate Counted(w: World, rows: seq<Row>, p: nat, above: seq<Message>) {
    var k, rest := Fetches(w.marks), Above(Log(rows, w.feed.room), w.feed.cursor);
    && w.rows == rows && w.poll.PageSize() == p && Fits(w.feed.room) && Fits(w.feed.cursor)
    && rest == above[Min(k * p, |above|)..]
    && (w.feed.catchingUp <==> k * p <= |above|)
    && (w.feed.catchingUp ==> w.feed.due.None? && w.phase != Waiting)
    && (w.phase == Waiting ==> w.feed.due.Some?)
    && (w.reply.Some? ==> w.phase == Fetching && w.reply.value == FirstN(rest, p))
  }

  /** What is left of `above` once a page has been taken off the front of what was left. */
  lemma PageComesOff(above: seq<Message>, p: nat, k: nat, page: seq<Message>)
    requires p > 0 && k * p <= |above| && page == FirstN(above[k * p..], p)
    ensures above[k * p..][|page|..] == above[Min((k + 1) * p, |above|)..]
    ensures |page| >= p <==> (k + 1) * p <= |above|
    ensures page == [] ==> (k + 1) * p > |above|
  {
    assert (k + 1) * p == k * p + p;
    assert above[k * p..][|page|..] == above[k * p + |page|..];
  }

  lemma PageFits(rows: seq<Row>, room: nat, c: nat, p: nat)
    requires Keyed(rows) && p > 0
    ensures var page := FirstN(Above(Log(rows, room), c), p); page != [] ==> Fits(Newest(page))
  {
    LogAscends(rows, room);
    PageIsWindow(Log(rows, room), c, p);
  }

  /** A settled page brings the count to the next multiple of the page size. */
  lemma SettleCounts(w: World, rows: seq<Row>, p: nat, above: seq<Message>)
    requires Keyed(rows) && 0 < p && Counted(w, rows, p, above) && w.reply.Some?
    ensures Counted(Step(w, SettleReply), rows, p, above)
    ensures Fetches(Step(w, SettleReply).marks) == Fetches(w.marks) + 1
  {
    hide Log, Above, Keyed, Ascending, Fetches, Step;
    var log, c, page, k := Log(rows, w.feed.room), w.feed.cursor, w.reply.value, Fetches(w.marks);
    PageFits(rows, w.feed.room, c, p);
    LogAscends(rows, w.feed.room);
    PageAdvances(log, c, p);
    Settling(w, page, p);
    if k * p <= |above| {
      PageComesOff(above, p, k, page);
    } else {
      assert (k + 1) * p == k * p + p;
      assert above[|above|..] == [];
    }
  }

  /** What settling does to a feed, whatever it was waiting for. */
  lemma Settling(w: World, page: seq<Message>, p: nat)
    requires w.phase == Fetching && w.reply == Some(page) && p == w.poll.PageSize()
    ensures var t := Step(w, SettleReply);
            && t.rows == w.rows && t.poll == w.poll && t.clock == w.clock && t.feed.room == w.feed.room
            && t.feed.cursor == (if page == [] then w.feed.cursor else Newest(page))
            && t.feed.catchingUp == (|page| >= p)
            && t.reply.None? && t.feed.holding == w.feed.holding
            && (page != [] ==> t.phase == Idle && t.feed.due.None?)
            && (page == [] ==> t.phase == Waiting && t.feed.due.Some?)
            && Fetches(t.marks) == Fetches(w.marks) + 1
  {
    SettledMark(w, page, p);
    FetchesPush(w.marks, Settled(w.clock, |page| < p));
    hide Fetches;
  }

  lemma SettledMark(w: World, page: seq<Message>, p: nat)
    requires w.phase == Fetching && w.reply == Some(page) && p == w.poll.PageSize()
    ensures Step(w, SettleReply).marks == w.marks + [Settled(w.clock, |page| < p)]
  {
  }

  /** What every other step leaves as it was, and that it never makes a feed wait while it is catching up. */
  ghost predicate Carries(w: World, t: World) {
    && t.rows == w.rows && t.poll == w.poll && t.feed.room == w.feed.room
    && t.feed.cursor == w.feed.cursor && t.feed.catchingUp == w.feed.catchingUp
    && Fetches(t.marks) == Fetches(w.marks)
    && (w.feed.due.Some? ==> t.feed.due == w.feed.due)
    && (t.phase == Waiting ==> w.phase == Waiting || (t.feed.due.Some? && (w.feed.due.None? ==> !w.feed.catchingUp)))
    && (w.feed.due.None? && t.feed.due.Some? ==> !w.feed.catchingUp && t.phase == Waiting)
    && (t.phase == Fetching ==> w.phase == Fetching || w.feed.catchingUp || w.phase == Waiting)
    && (t.reply.Some? ==> t.phase == Fetching && (t.reply == w.reply || t.reply == Page(w.rows, w.feed, w.poll)))
  }

  lemma OtherStepCarries(w: World, e: Event)
    requires Plain(e) && !(e.SettleReply? && w.reply.Some?) && (w.reply.Some? ==> w.phase == Fetching)
    requires w.phase == Waiting ==> w.feed.due.Some?
    ensures Carries(w, Step(w, e))
  {
    FetchesPush(w.marks, Began(w.clock));
    hide Fetches, Page;
    var t := Step(w, e);
    assert t.marks == w.marks || t.marks == w.marks + [Began(w.clock)];
  }

  lemma PageAsServed(w: World, p: nat)
    requires p == w.poll.PageSize() <= MAX_LIMIT && Fits(w.feed.room) && Fits(w.feed.cursor)
    ensures Page(w.rows, w.feed, w.poll) == Some(FirstN(Above(Log(w.rows, w.feed.room), w.feed.cursor), p))
  {
    assert Limit(Some(p)) == p;
  }

  /** Nothing but a settled page moves the count. */
  lemma OtherStepCounts(w: World, rows: seq<Row>, p: nat, above: seq<Message>, e: Event)
    requires Counted(w, rows, p, above) && 0 < p <= MAX_LIMIT && Plain(e) && !(e.SettleReply? && w.reply.Some?)
    ensures Counted(Step(w, e), rows, p, above)
  {
    PageAsServed(w, p);
    OtherStepCarries(w, e);
    hide Step, Fetches, Log, Above, FirstN, Page;
  }

  lemma StepCounts(w: World, rows: seq<Row>, p: nat, above: seq<Message>, e: Event)
    requires Keyed(rows) && 0 < p <= MAX_LIMIT && Counted(w, rows, p, above) && Plain(e)
    ensures Counted(Step(w, e), rows, p, above)
  {
    if e.SettleReply? && w.reply.Some? {
      SettleCounts(w, rows, p, above);
    } else {
      OtherStepCounts(w, rows, p, above, e);
    }
  }

  /** The opening page counts as the first. */
  lemma {:induction false} OpeningCounts(rows: seq<Row>, room: nat, pos: nat, poll: Poll, now: nat)
    requires Keyed(rows) && Fits(room) && Fits(pos) && poll.PageSize() <= MAX_LIMIT
    ensures var w := Opened(rows, room, After(pos), poll, now);
            Counted(w, rows, poll.PageSize(), Above(Log(rows, room), pos)) && Fetches(w.marks) == 1
  {
    hide Log, Above, Ascending, Fetches, Keyed;
    var log, p := Log(rows, room), poll.PageSize();
    var w := Opened(rows, room, After(pos), poll, now);
    var above := Above(log, pos);
    assert Limit(Some(p)) == p;
    OneFetch(w.marks[0]);
    PageFits(rows, room, pos, p);
    LogAscends(rows, room);
    PageAdvances(log, pos, p);
    assert above[0 * p..] == above;
    PageComesOff(above, p, 0, FirstN(above, p));
  }

  lemma OneFetch(m: Mark)
    ensures Fetches([m]) == if m.Settled? then 1 else 0
  {
    assert [m][..0] == [];
  }

  lemma {:induction false} RunCounts(rows: seq<Row>, room: nat, pos: nat, poll: Poll, now: nat, events: seq<Event>)
    requires Keyed(rows) && Fits(room) && Fits(pos) && poll.PageSize() <= MAX_LIMIT
    requires forall i :: 0 <= i < |events| ==> Plain(events[i])
    ensures Counted(Run(Opened(rows, room, After(pos), poll, now), events), rows, poll.PageSize(),
                    Above(Log(rows, room), pos))
  {
    hide Counted, Opened, Step, Log, Above, Plain;
    if events == [] {
      OpeningCounts(rows, room, pos, poll, now);
    } else {
      var front := events[..|events| - 1];
      RunCounts(rows, room, pos, poll, now, front);
      StepCounts(Run(Opened(rows, room, After(pos), poll, now), front), rows, poll.PageSize(),
                 Above(Log(rows, room), pos), events[|events| - 1]);
    }
  }

  lemma Quotient(n: nat, p: nat, k: nat)
    requires p > 0
    ensures k <= n / p <==> k * p <= n
  {
    if k <= n / p {
      assert k * p <= n / p * p;
    } else {
      assert k * p >= (n / p + 1) * p;
    }
  }

  /** A feed that is catching up has no deadline and does not wait. It is for `n` settled fetches, and no longer. */
  ghost predicate WaitsAfter(w: World, n: nat) {
    && (w.feed.catchingUp <==> Fetches(w.marks) <= n)
    && (w.feed.catchingUp ==> w.feed.due.None?)
    && (w.phase == Waiting ==> Fetches(w.marks) > n)
  }

  lemma CountedWaits(w: World, rows: seq<Row>, p: nat, above: seq<Message>)
    requires Counted(w, rows, p, above) && p > 0
    ensures WaitsAfter(w, |above| / p)
  {
    hide Log, Above, FirstN, Fetches;
    Quotient(|above|, p, Fetches(w.marks));
  }

  /**
   A feed opened after `pos` with `n` messages outstanding, in every run without posts or failures:
   until n/p + 1 fetches have settled, the opening one included, it has no deadline and never waits.
   From then on it no longer asks at once. A configured limit of 0 asks for pages of 1, so p is never 0.
   */
  lemma {:induction false} NoWaitBetween(rows: seq<Row>, room: nat, pos: nat, poll: Poll, now: nat,
                                         events: seq<Event>)
    requires Keyed(rows) && Fits(room) && Fits(pos) && poll.PageSize() <= MAX_LIMIT
    requires forall i :: 0 <= i < |events| ==> Plain(events[i])
    ensures WaitsAfter(Run(Opened(rows, room, After(pos), poll, now), events), FullPages(rows, room, pos, poll))
  {
    hide Run, Opened, Log, Above, Counted, WaitsAfter, Plain, Keyed;
    RunCounts(rows, room, pos, poll, now, events);
    var p := poll.PageSize();
    CountedWaits(Run(Opened(rows, room, After(pos), poll, now), events), rows, p, Above(Log(rows, room), pos));
  }

  /** No state of the run, its last included, is a wait. */
  ghost predicate NeverWaits(w: World, events: seq<Event>) {
    forall i :: 0 <= i <= |events| ==> Run(w, events[..i]).phase != Waiting
  }

  /** A feed that has not waited yet has made at most one fetch more than it was catching up for, and then rests. */
  ghost predicate Unwaited(w: World, n: nat) {
    w.phase != Waiting && (!w.feed.catchingUp ==> w.phase == Idle && w.feed.due.None? && Fetches(w.marks) == n + 1)
  }

  /** What one step makes of that: either it still has not waited, or it starts to wait after exactly that many. */
  lemma UnwaitedStep(w: World, e: Event, n: nat, p: nat)
    requires Plain(e) && WaitsAfter(w, n) && Unwaited(w, n) && WaitsAfter(Step(w, e), n)
    requires p == w.poll.PageSize() && (w.reply.Some? ==> w.phase == Fetching)
    ensures if Step(w, e).phase == Waiting then Fetches(Step(w, e).marks) == n + 1 else Unwaited(Step(w, e), n)
  {
    if e.SettleReply? && w.reply.Some? {
      Settling(w, w.reply.value, p);
      hide Step, Fetches;
    } else {
      OtherStepCarries(w, e);
      hide Step, Fetches, Page;
    }
  }

  lemma {:induction false} RunUnwaited(rows: seq<Row>, room: nat, pos: nat, poll: Poll, now: nat, events: seq<Event>,
                                       n: nat)
    requires Keyed(rows) && Fits(room) && Fits(pos) && poll.PageSize() <= MAX_LIMIT
    requires forall i :: 0 <= i < |events| ==> Plain(events[i])
    requires n == FullPages(rows, room, pos, poll)
    requires NeverWaits(Opened(rows, room, After(pos), poll, now), events)
    ensures Unwaited(Run(Opened(rows, room, After(pos), poll, now), events), n)
  {
    hide Step, Opened, WaitsAfter, Unwaited, FullPages, Keyed, Plain, Run, Fetches;
    var w0 := Opened(rows, room, After(pos), poll, now);
    if events == [] {
      OpenedUnwaited(rows, room, pos, poll, now);
    } else {
      var front, e := events[..|events| - 1], events[|events| - 1];
      NeverWaitsFront(w0, events);
      RunUnwaited(rows, room, pos, poll, now, front, n);
      NoWaitBetween(rows, room, pos, poll, now, events);
      NoWaitBetween(rows, room, pos, poll, now, front);
      RepliesAreAwaited(rows, room, pos, poll, now, front);
      UnwaitedStep(Run(w0, front), e, n, poll.PageSize());
    }
  }

  lemma NeverWaitsFront(w: World, events: seq<Event>)
    requires events != [] && NeverWaits(w, events)
    ensures var front := events[..|events| - 1];
            && NeverWaits(w, front)
            && Run(w, events) == Step(Run(w, front), events[|events| - 1])
            && Run(w, events).phase != Waiting
  {
    hide Step;
    var front := events[..|events| - 1];
    assert forall i :: 0 <= i <= |front| ==> events[..i] == front[..i];
    assert events[..|events|] == events;
  }

  lemma OpenedUnwaited(rows: seq<Row>, room: nat, pos: nat, poll: Poll, now: nat)
    requires Keyed(rows) && Fits(room) && Fits(pos) && poll.PageSize() <= MAX_LIMIT
    ensures Unwaited(Run(Opened(rows, room, After(pos), poll, now), []), FullPages(rows, room, pos, poll))
  {
    hide Run, Opened, Fetches, Log, Above, FullPages, Keyed, Counted;
    OpenedRests(rows, room, pos, poll, now);
    OpeningCounts(rows, room, pos, poll, now);
    NoWaitBetween(rows, room, pos, poll, now, []);
  }

  lemma OpenedRests(rows: seq<Row>, room: nat, pos: nat, poll: Poll, now: nat)
    ensures var w := Opened(rows, room, After(pos), poll, now);
            w.phase == Idle && w.feed.due.None? && w.reply.None? && w.clock == now && Run(w, []) == w
  {
    hide OpeningPage;
  }

  lemma RepliesAreAwaited(rows: seq<Row>, room: nat, pos: nat, poll: Poll, now: nat, events: seq<Event>)
    requires Keyed(rows) && Fits(room) && Fits(pos) && poll.PageSize() <= MAX_LIMIT
    requires forall i :: 0 <= i < |events| ==> Plain(events[i])
    ensures var w := Run(Opened(rows, room, After(pos), poll, now), events);
            w.poll.PageSize() == poll.PageSize() && (w.reply.Some? ==> w.phase == Fetching)
  {
    RunCounts(rows, room, pos, poll, now, events);
    hide Run, Opened, Log, Above, FirstN, Fetches;
  }

  /** However a run without posts or failures comes to its first wait, exactly n/p + 1 fetches have settled by then. */
  lemma {:induction false} FirstWaitIsExact(rows: seq<Row>, room: nat, pos: nat, poll: Poll, now: nat,
                                            events: seq<Event>, e: Event)
    requires Keyed(rows) && Fits(room) && Fits(pos) && poll.PageSize() <= MAX_LIMIT
    requires Plain(e) && forall i :: 0 <= i < |events| ==> Plain(events[i])
    requires NeverWaits(Opened(rows, room, After(pos), poll, now), events)
    requires Run(Opened(rows, room, After(pos), poll, now), events + [e]).phase == Waiting
    ensures Fetches(Run(Opened(rows, room, After(pos), poll, now), events + [e]).marks)
         == FullPages(rows, room, pos, poll) + 1
  {
    var w0, n := Opened(rows, room, After(pos), poll, now), FullPages(rows, room, pos, poll);
    assert (events + [e])[..|events|] == events;
    RunUnwaited(rows, room, pos, poll, now, events, n);
    NoWaitBetween(rows, room, pos, poll, now, events);
    NoWaitBetween(rows, room, pos, poll, now, events + [e]);
    RepliesAreAwaited(rows, room, pos, poll, now, events);
    hide Step, Opened, WaitsAfter, Unwaited, FullPages, Fetches, Keyed, Run;
    UnwaitedStep(Run(w0, events), e, n, poll.PageSize());
  }

  /** How many requests a feed has sent since it opened. */
  function Sent(marks: seq<Mark>): nat {
    if marks == [] then 0 else Sent(marks[..|marks| - 1]) + if marks[|marks| - 1].Began? then 1 else 0
  }

  lemma SentPush(marks: seq<Mark>, m: Mark)
    ensures Sent(marks + [m]) == Sent(marks) + if m.Began? then 1 else 0
  {
    assert (marks + [m])[..|marks|] == marks;
  }

  /** Every request settles but the one that is out, and the opening one settled first. */
  ghost predicate AllSettle(w: World) {
    Sent(w.marks) + 1 == Fetches(w.marks) + if w.phase == Fetching then 1 else 0
  }

  /** A step marks the settling of the request that was out, or the sending of a new one, and never both. */
  lemma MarkOf(w: World, e: Event) returns (m: Mark)
    requires !e.Drop?
    ensures var t := Step(w, e);
            || (t.marks == w.marks && (t.phase == Fetching <==> w.phase == Fetching))
            || (t.marks == w.marks + [m] && m.Began? && t.phase == Fetching && w.phase != Fetching)
            || (t.marks == w.marks + [m] && m.Settled? && t.phase != Fetching && w.phase == Fetching)
  {
    hide Page, Post;
    var t := Step(w, e);
    m := if |t.marks| > |w.marks| then t.marks[|w.marks|] else Began(0);
  }

  lemma StepSettles(w: World, e: Event)
    requires AllSettle(w) && !e.Drop?
    ensures AllSettle(Step(w, e))
  {
    hide Step, Sent, Fetches;
    var m := MarkOf(w, e);
    SentPush(w.marks, m);
    FetchesPush(w.marks, m);
  }

  /** While no call is dropped, counting what settled counts what was asked: no request is sent for nothing. */
  lemma {:induction false} RequestsSettle(rows: seq<Row>, room: nat, since: Since, poll: Poll, now: nat,
                                          events: seq<Event>)
    requires forall i :: 0 <= i < |events| ==> !events[i].Drop?
    ensures AllSettle(Run(Opened(rows, room, since, poll, now), events))
  {
    if events == [] {
      var m := Opened(rows, room, since, poll, now).marks[0];
      SentPush([], m);
      FetchesPush([], m);
      assert [] + [m] == [m];
    } else {
      var front := events[..|events| - 1];
      RequestsSettle(rows, room, since, poll, now, front);
      hide Step, Opened, AllSettle;
      StepSettles(Run(Opened(rows, room, since, poll, now), front), events[|events| - 1]);
    }
  }

  /** With nothing left above the cursor and nothing held, what was delivered is all there was. */
  lemma {:induction false} EverythingDelivered(rows: seq<Row>, room: nat, pos: nat, poll: Poll, now: nat,
                                               events: seq<Event>)
    requires Keyed(rows)
    requires var w := Run(Opened(rows, room, After(pos), poll, now), events);
             w.rows == rows && w.feed.holding == [] && Above(Log(rows, room), w.feed.cursor) == []
    ensures Flatten(Run(Opened(rows, room, After(pos), poll, now), events).delivered) == Above(Log(rows, room), pos)
  {
    var w0 := Opened(rows, room, After(pos), poll, now);
    var w, log := Run(w0, events), Log(rows, room);
    OpenedIsGapless(rows, room, After(pos), poll, now);
    RunIsGapless(w0, events);
    LogAscends(rows, room);
    PageIsWindow(log, w.feed.cursor, 1);
    BetweenIsAbove(log, pos, w.feed.cursor);
    assert Flatten(w.delivered) + [] == Flatten(w.delivered);
  }

  /** Whatever the run, a feed that no longer asks at once and holds nothing has delivered all that was outstanding. */
  lemma {:induction false} CaughtUpIsDelivered(rows: seq<Row>, room: nat, pos: nat, poll: Poll, now: nat,
                                               events: seq<Event>)
    requires Keyed(rows) && Fits(room) && Fits(pos) && poll.PageSize() <= MAX_LIMIT
    requires forall i :: 0 <= i < |events| ==> Plain(events[i])
    ensures var w := Run(Opened(rows, room, After(pos), poll, now), events);
            !w.feed.catchingUp && w.feed.holding == [] ==> Flatten(w.delivered) == Above(Log(rows, room), pos)
  {
    var w := Run(Opened(rows, room, After(pos), poll, now), events);
    RunCounts(rows, room, pos, poll, now, events);
    RunIsGapless(Opened(rows, room, After(pos), poll, now), events) by {
      OpenedIsGapless(rows, room, After(pos), poll, now);
    }
    assert w.feed.room == room;
    hide Opened, Run, Log, Above, Gapless, Fetches, Plain, FirstN;
    if !w.feed.catchingUp && w.feed.holding == [] {
      assert Above(Log(rows, room), w.feed.cursor) == [];
      EverythingDelivered(rows, room, pos, poll, now, events);
    }
  }

  // ---- One such run, with nothing between its fetches ----

  /** A caller that takes what is held and asks again, and a server that answers. */
  const CYCLE: seq<Event> := [CallNext, CallNext, Serve, SettleReply]

  function Cycles(k: nat): seq<Event> {
    if k == 0 then [] else Cycles(k - 1) + CYCLE
  }

  lemma {:induction false} CyclesArePlain(k: nat)
    ensures forall i :: 0 <= i < |Cycles(k)| ==> Plain(Cycles(k)[i])
  {
    if k > 0 {
      CyclesArePlain(k - 1);
    }
  }

  lemma {:induction false} RunJoins(w: World, first: seq<Event>, next: seq<Event>)
    ensures Run(w, first + next) == Run(Run(w, first), next)
  {
    if next == [] {
      assert first + next == first;
    } else {
      var front := next[..|next| - 1];
      assert (first + next)[..|first + next| - 1] == first + front;
      RunJoins(w, first, front);
    }
  }

  lemma RunTwo(w: World, a: Event, b: Event)
    ensures Run(w, [a, b]) == Step(Step(w, a), b)
  {
    assert [a, b][..1] == [a];
    assert [a][..0] == [];
    assert Run(w, []) == w;
    assert Run(w, [a]) == Step(w, a);
  }

  lemma RunCycle(w: World)
    ensures Run(w, CYCLE) == Step(Step(Step(Step(w, CallNext), CallNext), Serve), SettleReply)
  {
    assert CYCLE == [CallNext, CallNext] + [Serve, SettleReply];
    RunJoins(w, [CallNext, CallNext], [Serve, SettleReply]);
    RunTwo(w, CallNext, CallNext);
    RunTwo(Step(Step(w, CallNext), CallNext), Serve, SettleReply);
  }

  /** Ready to fetch at once: what it holds is handed over first. */
  ghost predicate Draining(w: World) {
    && w.phase == Idle && w.feed.due.None? && w.reply.None?
    && w.feed.catchingUp
  }

  /** Taking what is held and asking again sends a request at once. */
  ghost predicate Asked(w: World, t: World) {
    && t.rows == w.rows && t.clock == w.clock && t.poll == w.poll
    && t.feed == w.feed.(holding := [])
    && t.phase == Fetching && t.reply.None?
    && Fetches(t.marks) == Fetches(w.marks)
  }

  lemma AsksAtOnce(w: World)
    requires Draining(w)
    ensures Asked(w, Step(Step(w, CallNext), CallNext))
  {
    FetchesPush(w.marks, Began(w.clock));
    var called := Step(w, CallNext);
    if w.feed.holding == [] {
      assert called.marks == w.marks + [Began(w.clock)];
      assert Step(called, CallNext).marks == called.marks;
    } else {
      assert called.marks == w.marks;
      assert Step(called, CallNext).marks == w.marks + [Began(w.clock)];
    }
  }

  /** Between fetches: a caller could be asking or waiting, and no request is out. */
  ghost predicate Quiet(w: World, now: nat) {
    && w.clock == now && w.reply.None?
    && ((w.phase == Idle && w.feed.due.None?) || (w.phase == Waiting && w.feed.holding == []))
  }

  /** One cycle of a draining feed is one fetch, at the same instant. */
  lemma CycleFetchesOnce(w: World)
    requires Draining(w) && w.poll.PageSize() <= MAX_LIMIT && Fits(w.feed.room) && Fits(w.feed.cursor)
    ensures Quiet(Run(w, CYCLE), w.clock) && Fetches(Run(w, CYCLE).marks) == Fetches(w.marks) + 1
  {
    AsksAtOnce(w);
    var asked := Step(Step(w, CallNext), CallNext);
    var page := PageOf(Log(asked.rows, w.feed.room), Limit(Some(w.poll.PageSize())), Some(w.feed.cursor), None);
    assert Step(asked, Serve) == asked.(reply := Some(page));
    Settling(Step(asked, Serve), page, w.poll.PageSize());
    RunCycle(w);
    hide Step, Run, Log, PageOf, Fetches;
  }

  /** One more cycle, from a feed that has not made all its fetches. */
  lemma CycleFetches(w: World, now: nat, n: nat)
    requires Quiet(w, now) && WaitsAfter(w, n) && Fetches(w.marks) <= n
    requires w.poll.PageSize() <= MAX_LIMIT && Fits(w.feed.room) && Fits(w.feed.cursor)
    ensures Quiet(Run(w, CYCLE), now) && Fetches(Run(w, CYCLE).marks) == Fetches(w.marks) + 1
  {
    hide Run, Fetches;
    CycleFetchesOnce(w);
  }

  lemma NoCycles(rows: seq<Row>, room: nat, pos: nat, poll: Poll, now: nat)
    requires Keyed(rows) && Fits(room) && Fits(pos) && poll.PageSize() <= MAX_LIMIT
    ensures var w := Run(Opened(rows, room, After(pos), poll, now), Cycles(0)); Quiet(w, now) && Fetches(w.marks) == 1
  {
    hide Run, Opened, Fetches, Keyed, Counted;
    OpeningCounts(rows, room, pos, poll, now);
    OpenedRests(rows, room, pos, poll, now);
  }

  lemma OneMoreCycle(rows: seq<Row>, room: nat, pos: nat, poll: Poll, now: nat, k: nat)
    requires Keyed(rows) && Fits(room) && Fits(pos) && poll.PageSize() <= MAX_LIMIT
    requires k < FullPages(rows, room, pos, poll)
    requires var w := Run(Opened(rows, room, After(pos), poll, now), Cycles(k));
             Quiet(w, now) && Fetches(w.marks) == k + 1
    ensures var w := Run(Opened(rows, room, After(pos), poll, now), Cycles(k + 1));
            Quiet(w, now) && Fetches(w.marks) == k + 2
  {
    assert Cycles(k + 1) == Cycles(k) + CYCLE;
    hide Run, Opened, Fetches, Plain, Keyed, FullPages, WaitsAfter, Cycles, Quiet;
    CyclesArePlain(k);
    NoWaitBetween(rows, room, pos, poll, now, Cycles(k));
    CountedFits(rows, room, pos, poll, now, Cycles(k));
    RunJoins(Opened(rows, room, After(pos), poll, now), Cycles(k), CYCLE);
    CycleFetches(Run(Opened(rows, room, After(pos), poll, now), Cycles(k)), now, FullPages(rows, room, pos, poll));
  }

  lemma {:induction false} CyclesFetch(rows: seq<Row>, room: nat, pos: nat, poll: Poll, now: nat, k: nat)
    requires Keyed(rows) && Fits(room) && Fits(pos) && poll.PageSize() <= MAX_LIMIT
    requires k <= FullPages(rows, room, pos, poll)
    ensures var w := Run(Opened(rows, room, After(pos), poll, now), Cycles(k));
            Quiet(w, now) && Fetches(w.marks) == k + 1
    decreases k
  {
    hide Run, Opened, Fetches, Keyed, FullPages, Cycles, Quiet;
    if k == 0 {
      NoCycles(rows, room, pos, poll, now);
    } else {
      CyclesFetch(rows, room, pos, poll, now, k - 1);
      OneMoreCycle(rows, room, pos, poll, now, k - 1);
    }
  }

  lemma CountedFits(rows: seq<Row>, room: nat, pos: nat, poll: Poll, now: nat, events: seq<Event>)
    requires Keyed(rows) && Fits(room) && Fits(pos) && poll.PageSize() <= MAX_LIMIT
    requires forall i :: 0 <= i < |events| ==> Plain(events[i])
    ensures var w := Run(Opened(rows, room, After(pos), poll, now), events);
            w.poll.PageSize() == poll.PageSize() && Fits(w.feed.room) && Fits(w.feed.cursor)
  {
    RunCounts(rows, room, pos, poll, now, events);
    hide Run, Opened, Log, Above, FirstN, Fetches;
  }

  /** Asking twice more leaves a feed that is not catching up waiting, having fetched nothing. */
  lemma ThenWaits(w: World)
    requires w.phase == Waiting || (w.phase == Idle && w.feed.due.None?)
    requires !w.feed.catchingUp
    ensures var t := Run(w, [CallNext, CallNext]);
            && t.phase == Waiting && t.clock == w.clock && t.rows == w.rows && t.marks == w.marks
            && t.feed.cursor == w.feed.cursor
            && (w.phase == Idle ==> t.feed.holding == [])
            && (w.phase == Waiting ==> t.feed.holding == w.feed.holding)
  {
    RunTwo(w, CallNext, CallNext);
  }

  /** The bound is met, at one instant: a caller that keeps asking is told everything and then waits. */
  lemma {:induction false} CatchesUp(rows: seq<Row>, room: nat, pos: nat, poll: Poll, now: nat)
    requires Keyed(rows) && Fits(room) && Fits(pos) && poll.PageSize() <= MAX_LIMIT
    ensures var n := FullPages(rows, room, pos, poll);
            var w0 := Opened(rows, room, After(pos), poll, now);
            var w := Run(w0, Cycles(n) + [CallNext, CallNext]);
            && w.phase == Waiting && w.clock == now
            && Fetches(w.marks) == n + 1
            && Flatten(w.delivered) == Above(Log(rows, room), pos)
  {
    var n := FullPages(rows, room, pos, poll);
    var w0 := Opened(rows, room, After(pos), poll, now);
    var events := Cycles(n) + [CallNext, CallNext];
    CyclesFetch(rows, room, pos, poll, now, n);
    CyclesArePlain(n);
    NoWaitBetween(rows, room, pos, poll, now, Cycles(n));
    RunJoins(w0, Cycles(n), [CallNext, CallNext]);
    hide Run, Opened, Log, Above, Cycles, Fetches, Flatten, FullPages, Keyed;
    ThenWaits(Run(w0, Cycles(n)));
    assert forall i :: 0 <= i < |events| ==> Plain(events[i]);
    NoWaitBetween(rows, room, pos, poll, now, events);
    CaughtUpIsDelivered(rows, room, pos, poll, now, events);
  }

  // ---- Pages larger than the server gives ----

  /** Asking for more than the server gives is never a full page: such a feed always waits. */
  lemma {:induction false} LargePagesNeverCatchUp(rows: seq<Row>, room: nat, since: Since, poll: Poll, now: nat,
                                                  events: seq<Event>)
    requires poll.PageSize() > MAX_LIMIT
    ensures var w := Run(Opened(rows, room, since, poll, now), events);
            && w.poll == poll
            && !w.feed.catchingUp
            && (w.reply.Some? ==> |w.reply.value| <= MAX_LIMIT)
  {
    if events != [] {
      var front := events[..|events| - 1];
      LargePagesNeverCatchUp(rows, room, since, poll, now, front);
      LargePageSteps(Run(Opened(rows, room, since, poll, now), front), events[|events| - 1]);
      hide Step, Opened;
    }
  }

  lemma LargePageSteps(w: World, e: Event)
    requires w.poll.PageSize() > MAX_LIMIT
    requires !w.feed.catchingUp && (w.reply.Some? ==> |w.reply.value| <= MAX_LIMIT)
    ensures var t := Step(w, e);
            t.poll == w.poll && !t.feed.catchingUp && (t.reply.Some? ==> |t.reply.value| <= MAX_LIMIT)
  {
    hide Log, Above, Post, TopKey;
  }
}
