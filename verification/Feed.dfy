/**
 The two polling feeds, each a cursor or a list and a deadline that outlives the call that set it.

 A call to `next` is left at two points: while it sleeps and while its request is out. `React` is the
 feed between those points, one function of what happened; the classes are the source's own loops,
 proved to do what `React` does.
 */
module Feed {
  import opened Wire
  import opened Logs

  // ---- Messages ----

  /** Where a feed starts: a page back from the end of the log, or just past a position. */
  datatype Since = FromNewest | After(pos: nat)

  datatype Poll = Poll(interval: nat, pageLimit: nat) {
    /** The configured limit, raised to 1. */
    function PageSize(): nat {
      Max(pageLimit, 1)
    }
  }

  datatype Feed = Feed(
    room: nat,
    cursor: nat,
    holding: seq<Message>,
    catchingUp: bool,
    due: Option<nat>)

  /** The feed over the page it opened with. */
  function Open(room: nat, since: Since, page: seq<Message>, poll: Poll): Feed {
    var from := if since.After? then since.pos else START;
    Feed(room,
         if page == [] then from else Newest(page),
         page,
         since.After? && |page| >= poll.PageSize(),
         None)
  }

  /** Sets the deadline, unless one is set already or a full page says more is waiting. */
  function Arm(f: Feed, now: nat, poll: Poll): Feed {
    if f.due.Some? || f.catchingUp then f else f.(due := Some(now + poll.interval))
  }

  /** What a settled fetch leaves behind. A failure is `None`. */
  function Settle(f: Feed, got: Option<seq<Message>>, poll: Poll): Feed {
    f.(due := None,
       catchingUp := got.Some? && |got.value| >= poll.PageSize(),
       cursor := if got.Some? && got.value != [] then Newest(got.value) else f.cursor)
  }

  datatype Phase = Idle | Waiting | Fetching

  datatype Signal =
    | Call(now: nat)
    | Elapsed(now: nat)
    | Answered(page: seq<Message>, now: nat)
    | Failed
    | Dropped

  datatype Outcome = Nothing | Batch(messages: seq<Message>) | Failure

  function AfterArming(f: Feed): Phase {
    if f.due.Some? then Waiting else Fetching
  }

  /** What one signal does to a feed. A signal that does not fit the phase does nothing. */
  function React(f: Feed, phase: Phase, signal: Signal, poll: Poll): (Feed, Phase, Outcome) {
    match (phase, signal)
    case (Idle, Call(now)) =>
      if f.holding != [] then (f.(holding := []), Idle, Batch(f.holding))
      else var armed := Arm(f, now, poll); (armed, AfterArming(armed), Nothing)
    case (Waiting, Elapsed(now)) =>
      (f, if f.due.Some? && now < f.due.value then Waiting else Fetching, Nothing)
    case (Fetching, Answered(page, now)) =>
      var settled := Settle(f, Some(page), poll);
      if page != [] then (settled, Idle, Batch(page))
      else var armed := Arm(settled, now, poll); (armed, AfterArming(armed), Nothing)
    case (Fetching, Failed) => (Settle(f, None, poll), Idle, Failure)
    case (Waiting, Dropped) => (f, Idle, Nothing)
    case (Fetching, Dropped) => (f, Idle, Nothing)
    case _ => (f, phase, Nothing)
  }

  /** The signals one after another, and the last thing they brought. */
  function ReactAll(f: Feed, phase: Phase, signals: seq<Signal>, poll: Poll): (Feed, Phase, Outcome) {
    if signals == [] then (f, phase, Nothing)
    else
      var (before, at, _) := ReactAll(f, phase, signals[..|signals| - 1], poll);
      React(before, at, signals[|signals| - 1], poll)
  }

  // ---- The loop, a turn at a time ----

  /** How one turn of the loop ends: in the sleep, or in the fetch. */
  datatype Turn =
    | LeftSleeping
    | LeftFetching
    | Refused
    | Came(page: seq<Message>, now: nat)

  datatype Ending = Left | Brought(messages: seq<Message>) | Broke

  /** The signals a call and its turns amount to. The feed is idle again at the end. */
  function Story(f: Feed, now: nat, turns: seq<Turn>, poll: Poll): seq<Signal> {
    if f.holding != [] then [Call(now)] else [Call(now)] + Turns(Arm(f, now, poll), turns, poll)
  }

  /** The turns of the loop, from a feed that is armed. */
  function Turns(f: Feed, turns: seq<Turn>, poll: Poll): seq<Signal>
    decreases |turns|
  {
    var slept := if f.due.Some? then [Elapsed(f.due.value)] else [];
    if turns == [] then [Dropped]
    else
      match turns[0]
      case LeftSleeping => [Dropped]
      case LeftFetching => slept + [Dropped]
      case Refused => slept + [Failed]
      case Came(page, now) =>
        if page != [] then slept + [Answered(page, now)]
        else slept + [Answered(page, now)] + Turns(Arm(Settle(f, Some(page), poll), now, poll), turns[1..], poll)
  }

  lemma {:induction false} ReactAllJoins(f: Feed, phase: Phase, first: seq<Signal>, next: seq<Signal>, poll: Poll)
    ensures var (g, at, out) := ReactAll(f, phase, first, poll);
            && (next != [] ==> ReactAll(f, phase, first + next, poll) == ReactAll(g, at, next, poll))
            && (next == [] ==> ReactAll(f, phase, first + next, poll) == (g, at, out))
  {
    if next == [] {
      assert first + next == first;
    } else {
      assert (first + next)[..|first + next| - 1] == first + next[..|next| - 1];
      ReactAllJoins(f, phase, first, next[..|next| - 1], poll);
    }
  }

  lemma ReactToOne(f: Feed, phase: Phase, signal: Signal, poll: Poll)
    ensures ReactAll(f, phase, [signal], poll) == React(f, phase, signal, poll)
  {
    assert [signal][..0] == [];
    assert ReactAll(f, phase, [], poll) == (f, phase, Nothing);
  }

  /** Sleeping out the deadline starts the fetch. */
  lemma SleepsThenFetches(f: Feed, end: Signal, poll: Poll)
    requires !end.Elapsed?
    ensures ReactAll(f, AfterArming(f), (if f.due.Some? then [Elapsed(f.due.value)] else []) + [end], poll)
         == React(f, Fetching, end, poll)
  {
    if f.due.Some? {
      ReactAllJoins(f, Waiting, [Elapsed(f.due.value)], [end], poll);
      ReactToOne(f, Waiting, Elapsed(f.due.value), poll);
      ReactToOne(f, Fetching, end, poll);
    } else {
      assert [] + [end] == [end];
      ReactToOne(f, Fetching, end, poll);
    }
  }

  function AsOutcome(end: Ending): Outcome {
    match end
    case Left => Nothing
    case Brought(messages) => Batch(messages)
    case Broke => Failure
  }

  /** Where the signals of a whole call lead. */
  function Told(f: Feed, now: nat, turns: seq<Turn>, poll: Poll): (Feed, Phase, Outcome) {
    ReactAll(f, Idle, Story(f, now, turns, poll), poll)
  }

  lemma ToldFromLoop(f: Feed, now: nat, turns: seq<Turn>, poll: Poll)
    ensures Told(f, now, turns, poll)
         == if f.holding != [] then (f.(holding := []), Idle, Batch(f.holding)) else Led(Arm(f, now, poll), turns, poll)
  {
    ReactToOne(f, Idle, Call(now), poll);
    if f.holding == [] {
      ReactAllJoins(f, Idle, [Call(now)], Turns(Arm(f, now, poll), turns, poll), poll);
    }
  }

  /** Where the signals of an armed feed's turns lead. */
  function Led(f: Feed, turns: seq<Turn>, poll: Poll): (Feed, Phase, Outcome) {
    ReactAll(f, AfterArming(f), Turns(f, turns, poll), poll)
  }

  /** What the first turn does, and that an empty page leads on to the next. */
  lemma TurnByTurn(f: Feed, turns: seq<Turn>, poll: Poll)
    ensures turns == [] || turns[0].LeftSleeping? || turns[0].LeftFetching? ==>
              Led(f, turns, poll) == (f, Idle, Nothing)
    ensures turns != [] && turns[0].Refused? ==> Led(f, turns, poll) == (Settle(f, None, poll), Idle, Failure)
    ensures turns != [] && turns[0].Came? && turns[0].page != [] ==>
              Led(f, turns, poll) == (Settle(f, Some(turns[0].page), poll), Idle, Batch(turns[0].page))
    ensures turns != [] && turns[0].Came? && turns[0].page == [] ==>
              Led(f, turns, poll) == Led(Arm(Settle(f, Some([]), poll), turns[0].now, poll), turns[1..], poll)
  {
    ReactToOne(f, AfterArming(f), Dropped, poll);
    if turns != [] {
      match turns[0]
      case LeftSleeping =>
      case LeftFetching => SleepsThenFetches(f, Dropped, poll);
      case Refused => SleepsThenFetches(f, Failed, poll);
      case Came(page, now) =>
        SleepsThenFetches(f, Answered(page, now), poll);
        if page == [] {
          var slept := if f.due.Some? then [Elapsed(f.due.value)] else [];
          var next := Arm(Settle(f, Some(page), poll), now, poll);
          ReactAllJoins(f, AfterArming(f), slept + [Answered(page, now)], Turns(next, turns[1..], poll), poll);
        }
    }
  }

  /** One room's messages, kept current. */
  class MessagesFeed {
    const poll: Poll
    const room: nat
    var cursor: nat
    var holding: seq<Message>
    var catchingUp: bool
    var due: Option<nat>

    function Model(): Feed
      reads this
    {
      Feed(room, cursor, holding, catchingUp, due)
    }

    /** What `watch_room_messages` builds once its fetch has come back. */
    constructor (room: nat, since: Since, page: seq<Message>, poll: Poll)
      ensures Model() == Open(room, since, page, poll)
      ensures this.poll == poll
    {
      this.room, this.poll := room, poll;
      var from := if since.After? then since.pos else START;
      cursor := if |page| > 0 then page[|page| - 1].pos else from;
      catchingUp := since != FromNewest && |page| >= poll.PageSize();
      holding := page;
      due := None;
    }

    /**
     The next batch. `turns` is what each pass of the loop runs into, and running out of them is
     the call being dropped. The whole call does to the feed what its signals do one at a time.
     */
    method Next(now: nat, turns: seq<Turn>) returns (end: Ending)
      modifies this`cursor, this`holding, this`catchingUp, this`due
      ensures (Model(), Idle, AsOutcome(end)) == Told(old(Model()), now, turns, poll)
    {
      hide Led, Told, Turns, Story, ReactAll;
      ghost var asked := Model();
      ToldFromLoop(asked, now, turns, poll);
      if holding != [] {
        end := Brought(holding);
        holding := [];
        return;
      }

      ghost var told := Told(asked, now, turns, poll);
      var page := poll.PageSize();
      var clock: nat, i: nat := now, 0;
      while true
        invariant i <= |turns| && holding == []
        invariant Led(Arm(Model(), clock, poll), turns[i..], poll) == told
        decreases |turns| - i
      {
        ghost var before := Model();
        if due.None? && !catchingUp {
          due := Some(clock + poll.interval);
        }
        assert Model() == Arm(before, clock, poll);
        TurnByTurn(Model(), turns[i..], poll);
        if i == |turns| || turns[i].LeftSleeping? || turns[i].LeftFetching? {
          return Left;
        }
        due := None;
        catchingUp := turns[i].Came? && |turns[i].page| >= page;
        if turns[i].Refused? {
          return Broke;
        }
        if |turns[i].page| > 0 {
          cursor := turns[i].page[|turns[i].page| - 1].pos;
          return Brought(turns[i].page);
        }
        assert turns[i..][1..] == turns[i + 1..];
        clock, i := turns[i].now, i + 1;
      }
    }
  }

  // ---- Rooms ----

  datatype RoomsFeed = RoomsFeed(holding: Option<seq<Room>>, due: Option<nat>)

  datatype ListSignal =
    | AskList(now: nat)
    | ListElapsed(now: nat)
    | ListSettled(list: Option<seq<Room>>)
    | ListDropped

  /** What a call for the list hands back: a list, or the failure of the read. */
  datatype ListOutcome = NoList | Listed(rooms: seq<Room>) | ListFailed

  /** The rooms feed between its waits. Unlike the messages feed it never skips its sleep. */
  function ReactList(f: RoomsFeed, phase: Phase, signal: ListSignal, poll: Poll): (RoomsFeed, Phase, ListOutcome) {
    match (phase, signal)
    case (Idle, AskList(now)) =>
      if f.holding.Some? then (f.(holding := None), Idle, Listed(f.holding.value))
      else (f.(due := if f.due.Some? then f.due else Some(now + poll.interval)), Waiting, NoList)
    case (Waiting, ListElapsed(now)) =>
      (f, if f.due.Some? && now < f.due.value then Waiting else Fetching, NoList)
    case (Fetching, ListSettled(list)) =>
      (f.(due := None), Idle, match list case Some(rooms) => Listed(rooms) case None => ListFailed)
    case (Waiting, ListDropped) => (f, Idle, NoList)
    case (Fetching, ListDropped) => (f, Idle, NoList)
    case _ => (f, phase, NoList)
  }

  /** How a call for the list ends. */
  datatype ListTurn = ListLeftSleeping | ListLeftFetching | ListCame(list: Option<seq<Room>>)

  /** The rooms feed as the object that changes in place. */
  class RoomsPoller {
    const poll: Poll
    var holding: Option<seq<Room>>
    var due: Option<nat>

    function Model(): RoomsFeed
      reads this
    {
      RoomsFeed(holding, due)
    }

    constructor (rooms: seq<Room>, poll: Poll)
      ensures Model() == RoomsFeed(Some(rooms), None) && this.poll == poll
    {
      holding, due, this.poll := Some(rooms), None, poll;
    }

    method Next(now: nat, turn: ListTurn) returns (out: ListOutcome)
      modifies this`holding, this`due
      ensures var asked := ReactList(old(Model()), Idle, AskList(now), poll);
              if asked.1.Idle? then (Model(), out) == (asked.0, asked.2)
              else
                var slept := ReactList(asked.0, Waiting, ListElapsed(asked.0.due.value), poll);
                var ended := match turn
                             case ListLeftSleeping => ReactList(asked.0, Waiting, ListDropped, poll)
                             case ListLeftFetching => ReactList(slept.0, slept.1, ListDropped, poll)
                             case ListCame(list) => ReactList(slept.0, slept.1, ListSettled(list), poll);
                Model() == ended.0 && out == ended.2 && ended.1.Idle?
    {
      if holding.Some? {
        out := Listed(holding.value);
        holding := None;
        return;
      }
      if due.None? {
        due := Some(now + poll.interval);
      }
      match turn
      case ListLeftSleeping => return NoList;
      case ListLeftFetching => return NoList;
      case ListCame(list) =>
        due := None;
        match list
        case Some(rooms) => return Listed(rooms);
        case None => return ListFailed;
    }
  }
}
