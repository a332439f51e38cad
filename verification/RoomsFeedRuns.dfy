/** The rooms feed over whole runs: a fetch after every interval, and every list handed over. */
module RoomsFeedRuns {
  import opened Wire
  import opened Feed
  import opened FeedRuns

  /** `answered` and `told` are every settled read and everything handed over. Nothing reads them. */
  datatype Lists = Lists(
    poll: Poll,
    clock: nat,
    feed: RoomsFeed,
    phase: Phase,
    marks: seq<Mark>,
    answered: seq<ListOutcome>,
    told: seq<ListOutcome>)

  /** A feed just opened, its opening fetch settled at `now`. */
  function Watching(rooms: seq<Room>, poll: Poll, now: nat): Lists {
    Lists(poll, now, RoomsFeed(Some(rooms), None), Idle, [Settled(now, true)], [Listed(rooms)], [])
  }

  datatype Happening = Passed(ticks: nat) | Asked | Woken | Came(list: Option<seq<Room>>) | Gone

  function SignalOf(w: Lists, e: Happening): Option<ListSignal> {
    match e
    case Passed(_) => None
    case Asked => Some(AskList(w.clock))
    case Woken => Some(ListElapsed(w.clock))
    case Came(list) => Some(ListSettled(list))
    case Gone => Some(ListDropped)
  }

  function Heard(w: Lists, signal: ListSignal): Lists {
    var (feed, phase, out) := ReactList(w.feed, w.phase, signal, w.poll);
    var settled := w.phase == Fetching && signal.ListSettled?;
    w.(feed := feed,
       phase := phase,
       marks := w.marks
                + (if settled then [Settled(w.clock, true)] else [])
                + (if phase == Fetching && w.phase != Fetching then [Began(w.clock)] else []),
       answered := if !settled then w.answered
                   else w.answered + [if signal.list.Some? then Listed(signal.list.value) else ListFailed],
       told := if out.NoList? then w.told else w.told + [out])
  }

  function After(w: Lists, e: Happening): Lists {
    if e.Passed? then w.(clock := w.clock + e.ticks) else Heard(w, SignalOf(w, e).value)
  }

  function Runs(w: Lists, events: seq<Happening>): Lists {
    if events == [] then w else After(Runs(w, events[..|events| - 1]), events[|events| - 1])
  }

  ghost predicate ListsPaced(w: Lists) {
    && InTime(w.marks, w.poll.interval)
    && (forall i :: 0 <= i < |w.marks| ==> w.marks[i].at <= w.clock)
    && (w.phase == Waiting ==> w.feed.due.Some?)
    && (w.feed.due.Some? ==> Rested(w.marks, w.poll.interval, w.feed.due.value))
    && (w.phase == Fetching ==> Rested(w.marks, w.poll.interval, w.clock))
  }

  /** Everything settled is told once and in order, the opening list first. */
  ghost predicate ListsTold(w: Lists) {
    w.answered == w.told + if w.feed.holding.Some? then [Listed(w.feed.holding.value)] else []
  }

  lemma HeardIsPaced(w: Lists, signal: ListSignal)
    requires ListsPaced(w)
    requires signal.AskList? || signal.ListElapsed? ==> signal.now == w.clock
    ensures ListsPaced(Heard(w, signal))
  {
    var t := Heard(w, signal);
    var marks, interval := w.marks, w.poll.interval;
    if w.phase == Fetching && signal.ListSettled? {
      SettleInTime(marks, interval, w.clock, true);
      assert t.marks == marks + [Settled(w.clock, true)];
    } else if t.phase == Fetching && w.phase != Fetching {
      BeginInTime(marks, interval, w.clock);
      assert t.marks == marks + [Began(w.clock)];
    } else {
      assert t.marks == marks;
      assert forall i :: 0 <= i < |marks| ==> marks[i].at <= w.clock;
    }
  }

  lemma HeardIsTold(w: Lists, signal: ListSignal)
    requires ListsTold(w) && (w.phase != Idle ==> w.feed.holding.None?)
    ensures ListsTold(Heard(w, signal))
    ensures Heard(w, signal).phase != Idle ==> Heard(w, signal).feed.holding.None?
  {
    assert w.told + [] == w.told;
  }

  /**
   After every settled read, failed or not, the next fetch waits out the interval, whatever calls are
   made and dropped between. And each read reaches the caller, in order.
   */
  lemma {:induction false} ListsArePacedAndTold(rooms: seq<Room>, poll: Poll, now: nat, events: seq<Happening>)
    ensures var w := Runs(Watching(rooms, poll, now), events);
            && w.poll == poll
            && ListsPaced(w) && InTime(w.marks, poll.interval)
            && ListsTold(w) && (w.phase != Idle ==> w.feed.holding.None?)
  {
    if events != [] {
      var front, e := events[..|events| - 1], events[|events| - 1];
      ListsArePacedAndTold(rooms, poll, now, front);
      var w := Runs(Watching(rooms, poll, now), front);
      if !e.Passed? {
        HeardIsPaced(w, SignalOf(w, e).value);
        HeardIsTold(w, SignalOf(w, e).value);
      }
    }
  }

  /** A deadline once set is moved by nothing but a settled read. */
  lemma {:induction false} ListDeadlineHolds(w: Lists, events: seq<Happening>, due: nat)
    requires w.feed.due == Some(due) && w.feed.holding.None?
    requires forall i :: 0 <= i < |events| ==> !events[i].Came?
    ensures Runs(w, events).feed.due == Some(due) && Runs(w, events).feed.holding.None?
  {
    if events != [] {
      ListDeadlineHolds(w, events[..|events| - 1], due);
    }
  }

  /** A call with nothing held and no deadline sets one, an interval ahead and no further, and waits. */
  lemma DeadlineIsInterval(w: Lists)
    requires w.phase == Idle && w.feed.holding.None? && w.feed.due.None?
    ensures After(w, Asked).feed.due == Some(w.clock + w.poll.interval) && After(w, Asked).phase == Waiting
  {
  }

  /** A call polled at or past the deadline fetches, however many were dropped before it. */
  lemma {:induction false} PolledPastDeadlineFetches(w: Lists, events: seq<Happening>, due: nat)
    requires w.feed.due == Some(due) && w.feed.holding.None?
    requires forall i :: 0 <= i < |events| ==> !events[i].Came?
    requires Runs(w, events).clock >= due
    ensures After(After(After(Runs(w, events), Gone), Asked), Woken).phase == Fetching
  {
    ListDeadlineHolds(w, events, due);
  }

  /** What the server answers, a failure too, reaches the caller that waits for it, and clears the deadline. */
  lemma AnswerReachesCaller(w: Lists, list: Option<seq<Room>>)
    requires w.phase == Fetching
    ensures var t := After(w, Happening.Came(list));
            && t.told == w.told + [if list.Some? then Listed(list.value) else ListFailed]
            && t.phase == Idle && t.feed.due.None?
  {
  }
}
