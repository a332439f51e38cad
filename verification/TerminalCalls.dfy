/** Which calls a run of the terminal app makes, on whose behalf, and what ends its session. */
module TerminalCalls {
  import opened Wire
  import opened MessageTable
  import NameTable
  import opened Feed
  import FeedRuns
  import opened Chat
  import opened App
  import opened Terminal
  import opened TerminalRuns
  import opened TerminalPromises

  // ---- What ends a session ----

  /** The failure that an event hands to the app, if it hands it one. */
  function FailureTaken(w: World, e: Event): Option<Failure> {
    match e
    case StreamFails(f) =>
      if w.app.messages.Some? && w.app.messages.value.phase == Fetching then Some(f) else None
    case ListFails(f) => if w.app.rooms.Some? then Some(f) else None
    case AnswerTaken => if w.app.exit || w.app.answers == [] then None else FailureOf(w.app.answers[0])
    case _ => None
  }

  /** Whether an app has signed out: it was past connecting, and is signing in on a new channel with nothing left. */
  ghost predicate Left(a: App, b: App) {
    && b.channel == a.channel + 1 && b.screen == SignIn("") && b.answers == []
    && b.messages.None? && b.rooms.None? && !b.pending && !b.reopen
  }

  /** Whether a session was ended, or else the channel and the chat screen were kept. */
  ghost predicate LeftIff(a: App, b: App, ended: bool) {
    if ended then Left(a, b) else b.channel == a.channel && (a.screen.Chatting? ==> b.screen.Chatting?)
  }

  lemma FailingLeavesIff(a: App, f: Failure)
    ensures LeftIff(a, OnFailed(a, f), f == Ended && !a.screen.Connection?)
    ensures LeftIff(a, OnRefused(a, f), f == Ended && !a.screen.Connection?)
  {
  }

  lemma AskingStays(a: App)
    ensures LeftIff(a, AskOpen(a).0, false)
  {
  }

  lemma PressStays(a: App, key: AppKey)
    ensures LeftIff(a, Press(a, key).0, false)
  {
    hide HandleKey;
  }

  lemma ActLeavesIff(a: App, answer: Answer)
    requires AnswerFits(a.screen, answer)
    ensures LeftIff(a, Act(a, answer).0, FailureOf(answer) == Some(Ended) && !a.screen.Connection?)
  {
    if FailureOf(answer).Some? {
      FailedActIs(a, answer);
      FailingLeavesIff(Reporting(a, answer), FailureOf(answer).value);
      hide Act, OnRefused, FailureOf;
    } else {
      hide SignedOut;
    }
  }

  lemma TakingLeavesIff(w: World)
    requires Inv(w) && !w.app.exit && w.app.answers != []
    ensures LeftIff(w.app, TakeAnswer(w).app, FailureOf(w.app.answers[0]) == Some(Ended) && !w.app.screen.Connection?)
  {
    hide Inv, Act, FailureOf, AnswerFits;
    ReadsFromInv(w);
    ActLeavesIff(w.app.(answers := w.app.answers[1..]), w.app.answers[0]);
  }

  lemma StreamFailLeavesIff(w: World, f: Failure)
    requires Inv(w) && w.app.messages.Some? && w.app.messages.value.phase == Fetching
    ensures LeftIff(w.app, Step(w, StreamFails(f)).app, f == Ended)
  {
    hide Inv, Step, StreamMoved, OnFailed;
    StreamFailSettles(w);
    StreamFailIs(w, f);
    FailingLeavesIff(StreamMoved(w, FeedRuns.FailFetch).app, f);
  }

  lemma SidebarLeavesIff(w: World, e: Event)
    requires Inv(w) && w.app.rooms.Some? && (e.ListArrives? || e.ListFails?)
    ensures LeftIff(w.app, Step(w, e).app, e.ListFails? && e.f == Ended)
  {
    hide Inv, Step;
    ReadsFromInv(w);
    SidebarIs(w, e);
    if e.ListFails? {
      FailingLeavesIff(w.app.(rooms := Some(Sidebar(None))), e.f);
    }
  }

  lemma QuietStays(w: World, e: Event)
    requires e.PostTo? || e.NewRoom? || e.Tick? || e.ServeCall? || e.FinishCall? || e.ServeList? || e.DrawScreen?
    ensures LeftIff(w.app, Step(w, e).app, false)
  {
    hide Post, Draw;
  }

  lemma MovingStays(w: World, e: FeedRuns.Event)
    requires w.app.messages.Some?
    ensures LeftIff(w.app, StreamMoved(w, e).app, false)
  {
  }

  /**
   A session ends exactly when the app is handed a failure that says so: by an answer, by the message
   stream or by the sidebar's. No other failure ends it, and nothing that is not a failure does.
   */
  lemma {:induction false} SessionEndsIff(w: World, e: Event)
    requires Inv(w)
    ensures LeftIff(w.app, Step(w, e).app, FailureTaken(w, e) == Some(Ended) && !w.app.screen.Connection?)
  {
    hide Inv, LeftIff, TakeAnswer, StreamMoved, FailureOf, Press, ApplyRooms, ApplyMessages, OnRoom;
    ReadsFromInv(w);
    SameStays(w.app);
    match e
    case KeyPressed(key) =>
      if !w.app.exit {
        PressStays(w.app, key);
      }
    case AnswerTaken =>
      if !w.app.exit && w.app.answers != [] {
        TakingLeavesIff(w);
      }
    case StreamMoves(moved) =>
      if w.app.messages.Some? {
        MovingStays(w, moved);
      }
    case StreamFails(f) =>
      if w.app.messages.Some? && w.app.messages.value.phase == Fetching {
        StreamFailLeavesIff(w, f);
      }
    case ListArrives =>
      if w.app.rooms.Some? {
        SidebarLeavesIff(w, e);
      }
    case ListFails(_) =>
      if w.app.rooms.Some? {
        SidebarLeavesIff(w, e);
      }
    case _ => QuietStays(w, e);
  }

  lemma SameStays(a: App)
    ensures LeftIff(a, a, false)
  {
  }

  /** So a chat screen is left exactly when the failure that is taken is an ended session. */
  lemma ChatIsLeftIff(w: World, e: Event)
    requires Inv(w) && w.app.screen.Chatting?
    ensures !Step(w, e).app.screen.Chatting? <==> FailureTaken(w, e) == Some(Ended)
    ensures !Step(w, e).app.screen.Chatting? ==> Step(w, e).app.screen == SignIn("")
  {
    hide Inv, Step, FailureTaken;
    SessionEndsIff(w, e);
  }

  /** Any other failure of a call is shown: its reason is the pane's notice, in view, and what was not sent is back. */
  lemma RefusalIsShown(w: World, why: string)
    requires Inv(w) && w.app.screen.Chatting? && w.app.answers != [] && FailureOf(w.app.answers[0]) == Some(Other(why))
    ensures var t := TakeAnswer(w);
            && t.app.screen.Chatting? && t.app.screen.chat.notices == [why] && t.app.screen.chat.scroll.None?
            && t.app.screen.chat.input == (if w.app.answers[0].MessageSent? then w.app.answers[0].body
                                           else w.app.screen.chat.input)
  {
    hide Inv, Act, FailureOf, TakeAnswer;
    ReadsFromInv(w);
    TakenIs(w);
    FailedActIs(w.app.(answers := w.app.answers[1..]), w.app.answers[0]);
  }

  lemma TakenIs(w: World)
    requires w.app.answers != []
    ensures TakeAnswer(w).app == Act(w.app.(answers := w.app.answers[1..]), w.app.answers[0]).0
  {
    hide Act;
  }

  // ---- What each call was started for ----

  /** What the reader typed on the chat screen, when Enter is pressed with no call unanswered. */
  predicate Typed(w: World, e: Event, meant: Meaning) {
    && e.KeyPressed? && e.key.InChat? && e.key.key.Enter? && w.app.screen.Chatting? && !w.app.exit && !w.app.pending
    && Understand(w.app.screen.chat.input, e.key.key.cells) == meant
  }

  /** What an event has to be for it to start a call. */
  ghost predicate AskedFor(w: World, e: Event, call: Call) {
    match call
    case Connect => w.app.screen.Connection? && e == KeyPressed(SubmitForm)
    case Register => w.app.screen.SignIn? && e == KeyPressed(PressRegister)
    case LogIn(username) =>
      && w.app.screen == SignIn(username)
      && (e == KeyPressed(PressLogIn)
          || (e == AnswerTaken && w.app.answers != []
              && w.app.answers[0].Registered? && w.app.answers[0].result.Ok?))
    case OpenFeed(room) => OnRoom(Step(w, e).app) && room == OpenId(Step(w, e).app)
    case PostBody(room, body) => OnRoom(w.app) && room == OpenId(w.app) && Typed(w, e, Say(body))
    case MakeRoom(name) => Typed(w, e, Meaning.NewRoom(name))
  }

  /** What a reaction may start. */
  ghost predicate StartsOnly(w: World, e: Event, reaction: (App, Option<Call>)) {
    reaction.1.Some? && Step(w, e).app == reaction.0 ==> AskedFor(w, e, reaction.1.value)
  }

  lemma OpenStartsOnly(w: World, e: Event, a: App)
    ensures StartsOnly(w, e, AskOpen(a))
  {
  }

  /** What Enter starts, whatever else is so. */
  lemma EnterAsksOnly(a: App, cells: Measure)
    requires OnRoom(a)
    ensures var call := Press(a, InChat(Enter(cells))).1;
            && (call.Some? ==> !a.pending)
            && (call.Some? ==> call.value.PostBody? || call.value.MakeRoom?)
            && (call.Some? && call.value.PostBody? ==>
                  call.value.room == OpenId(a) && Understand(a.screen.chat.input, cells) == Say(call.value.body))
            && (call.Some? && call.value.MakeRoom? ==>
                  Understand(a.screen.chat.input, cells) == Meaning.NewRoom(call.value.name))
  {
    hide Understand;
  }

  lemma EnterStartsOnly(w: World, cells: Measure)
    requires !w.app.exit && OnRoom(w.app)
    ensures StartsOnly(w, KeyPressed(InChat(Enter(cells))), Press(w.app, InChat(Enter(cells))))
  {
    hide Press, Understand, Step;
    EnterAsksOnly(w.app, cells);
  }

  lemma KeyStartsOnly(w: World, key: AppKey)
    requires !w.app.exit && (w.app.screen.Chatting? ==> OnRoom(w.app))
    ensures StartsOnly(w, KeyPressed(key), Press(w.app, key))
  {
    if w.app.screen.Chatting? && key.InChat? {
      if key.key.Enter? {
        EnterStartsOnly(w, key.key.cells);
      } else {
        var (after, intent) := HandleKey(w.app.screen.chat, key.key, w.app.pending);
        assert intent.Some? ==> intent == Some(OpenSelected);
        OpenStartsOnly(w, KeyPressed(key), w.app.(screen := Chatting(after)));
        hide Step, AskedFor;
      }
    } else {
      hide Step;
    }
  }

  lemma ActStartsOnly(w: World)
    requires !w.app.exit && w.app.answers != []
    ensures StartsOnly(w, AnswerTaken, Act(w.app.(answers := w.app.answers[1..]), w.app.answers[0]))
  {
    var a, answer := w.app.(answers := w.app.answers[1..]), w.app.answers[0];
    match answer
    case LoggedIn(username, Ok(listed)) =>
      OpenStartsOnly(w, AnswerTaken, a.(pending := false, rooms := Some(Sidebar(None)),
                                        screen := Chatting(NewChat(listed.Rooms(), username))));
      hide Step, AskedFor;
    case _ => hide Step;
  }

  lemma ListStartsOnly(w: World, list: Result<Snapshot, Failure>, e: Event)
    ensures StartsOnly(w, e, ApplyRooms(w.app.(rooms := Some(Sidebar(None))), list))
  {
    hide Step, AskedFor;
    if list.Ok? {
      var a := w.app.(rooms := Some(Sidebar(None)));
      var shown := if a.screen.Chatting?
                   then a.(screen := Chatting(ShowRooms(a.screen.chat, list.value.Rooms()))) else a;
      OpenStartsOnly(w, e, shown);
    }
  }

  /** A live call was live before, served or not, or has just been started, on the app's own channel. */
  ghost predicate Carried(w: World, e: Event, l: Live) {
    || (exists k :: 0 <= k < |w.live| && w.live[k].call == l.call && w.live[k].channel == l.channel)
    || (AskedFor(w, e, l.call) && l.channel == Step(w, e).app.channel)
  }

  lemma StartedCarries(w: World, e: Event, reaction: (App, Option<Call>))
    requires StartsOnly(w, e, reaction) && Step(w, e).app == reaction.0
    requires Step(w, e).live == Started(w, reaction).live
    ensures forall l :: l in Step(w, e).live ==> Carried(w, e, l)
  {
    hide Step, AskedFor;
    forall l | l in Step(w, e).live ensures Carried(w, e, l) {
      var k :| 0 <= k < |Step(w, e).live| && Step(w, e).live[k] == l;
      assert k < |w.live| ==> w.live[k] == l;
    }
  }

  lemma ServingCarries(w: World, e: Event)
    requires e.ServeCall? || e.FinishCall?
    ensures forall l :: l in Step(w, e).live ==> Carried(w, e, l)
  {
    hide ServeFor, AnswerOf, AskedFor;
    var t := Step(w, e);
    forall l | l in t.live ensures Carried(w, e, l) {
      var k :| 0 <= k < |t.live| && t.live[k] == l;
      if e.FinishCall? && t.live != w.live {
        assert t.live[k] == w.live[if k < e.i then k else k + 1];
      } else {
        assert w.live[k].call == l.call;
      }
    }
  }

  lemma SameCarries(w: World, e: Event)
    requires Step(w, e).live == w.live
    ensures forall l :: l in Step(w, e).live ==> Carried(w, e, l)
  {
    hide Step, AskedFor;
  }

  lemma AnswerCarries(w: World)
    ensures forall l :: l in Step(w, AnswerTaken).live ==> Carried(w, AnswerTaken, l)
  {
    if w.app.exit || w.app.answers == [] {
      SameCarries(w, AnswerTaken);
    } else {
      var reaction := Act(w.app.(answers := w.app.answers[1..]), w.app.answers[0]);
      ActStartsOnly(w);
      assert Step(w, AnswerTaken).app == reaction.0 && Step(w, AnswerTaken).live == Started(w, reaction).live by {
        hide Act;
      }
      hide Act, Step, Carried;
      StartedCarries(w, AnswerTaken, reaction);
    }
  }

  lemma KeyCarries(w: World, key: AppKey)
    requires w.app.screen.Chatting? ==> OnRoom(w.app)
    ensures forall l :: l in Step(w, KeyPressed(key)).live ==> Carried(w, KeyPressed(key), l)
  {
    if w.app.exit {
      SameCarries(w, KeyPressed(key));
    } else {
      KeyStartsOnly(w, key);
      hide Press, Carried;
      StartedCarries(w, KeyPressed(key), Press(w.app, key));
    }
  }

  lemma SidebarCarries(w: World, e: Event)
    requires e.ListArrives? || e.ListFails?
    ensures forall l :: l in Step(w, e).live ==> Carried(w, e, l)
  {
    if w.app.rooms.None? || (e.ListArrives? && w.app.rooms.value.reply.None?) {
      SameCarries(w, e);
    } else {
      var list := if e.ListFails? then Err(e.f) else Ok(w.app.rooms.value.reply.value);
      ListStartsOnly(w, list, e);
      hide ApplyRooms, Carried;
      StartedCarries(w, e, ApplyRooms(w.app.(rooms := Some(Sidebar(None))), list));
    }
  }

  lemma OtherCarries(w: World, e: Event)
    requires !e.KeyPressed? && !e.AnswerTaken? && !e.ServeCall? && !e.FinishCall? && !e.ListArrives? && !e.ListFails?
    ensures forall l :: l in Step(w, e).live ==> Carried(w, e, l)
  {
    assert Step(w, e).live == w.live by {
      hide Post, Draw, ApplyMessages;
    }
    SameCarries(w, e);
  }

  /** No step starts a call that was not asked for, or one for another room, line or name than was asked. */
  lemma {:induction false} StepStartsOnlyAsked(w: World, e: Event)
    requires Inv(w)
    ensures forall l :: l in Step(w, e).live ==> Carried(w, e, l)
  {
    hide Inv, Step, Carried;
    ReadsFromInv(w);
    match e
    case KeyPressed(key) => KeyCarries(w, key);
    case AnswerTaken => AnswerCarries(w);
    case ServeCall(_) => ServingCarries(w, e);
    case FinishCall(_, _) => ServingCarries(w, e);
    case ListArrives => SidebarCarries(w, e);
    case ListFails(_) => SidebarCarries(w, e);
    case _ => OtherCarries(w, e);
  }

  /** Some event of the run asked for the call, in the state it found. */
  ghost predicate EverAsked(w: World, events: seq<Event>, call: Call) {
    exists i :: 0 <= i < |events| && AskedFor(Run(w, events[..i]), events[i], call)
  }

  lemma EverAskedPush(w: World, events: seq<Event>, call: Call)
    requires events != []
    requires var front := events[..|events| - 1];
             EverAsked(w, front, call) || AskedFor(Run(w, front), events[|events| - 1], call)
    ensures EverAsked(w, events, call)
  {
    hide Run, AskedFor;
    var front := events[..|events| - 1];
    if i :| 0 <= i < |front| && AskedFor(Run(w, front[..i]), front[i], call) {
      assert front[..i] == events[..i] && front[i] == events[i];
    } else {
      assert AskedFor(Run(w, events[..|front|]), events[|front|], call);
    }
  }

  /**
   Every call that is out in any run of a fresh app was asked for: a post by the line the reader typed,
   trimmed, in the room that was open then; a room by the name in that line; a login by the name on
   the form; an open by the room selected.
   */
  lemma {:induction false} EveryCallWasAsked(w: World, events: seq<Event>, l: Live)
    requires Inv(w) && w.live == [] && l in Run(w, events).live
    ensures EverAsked(w, events, l.call)
  {
    hide Inv, Step, Carried, EverAsked, AskedFor;
    var front, e := events[..|events| - 1], events[|events| - 1];
    RunKeepsInv(w, front);
    StepStartsOnlyAsked(Run(w, front), e);
    if AskedFor(Run(w, front), e, l.call) {
      EverAskedPush(w, events, l.call);
    } else {
      var before := CarriedFrom(Run(w, front), e, l);
      EveryCallWasAsked(w, front, before);
      EverAskedPush(w, events, l.call);
    }
  }

  lemma CarriedFrom(w: World, e: Event, l: Live) returns (before: Live)
    requires Carried(w, e, l) && !AskedFor(w, e, l.call)
    ensures before in w.live && before.call == l.call
  {
    hide AskedFor, Step;
    var k :| 0 <= k < |w.live| && w.live[k].call == l.call && w.live[k].channel == l.channel;
    before := w.live[k];
  }

  // ---- What is asked for is started ----

  /** What Enter comes to, on a screen with a room and a client and no call unanswered. */
  lemma EnterAsks(a: App, cells: Measure)
    requires a.client && OnRoom(a) && !a.pending
    ensures var (b, call) := Press(a, InChat(Enter(cells)));
            match Understand(a.screen.chat.input, cells)
            case Say(body) =>
              && call == Some(PostBody(OpenId(a), body)) && b.pending && b.channel == a.channel
              && b.screen.Chatting? && b.screen.chat.input == ""
            case NewRoom(name) =>
              && call == Some(MakeRoom(name)) && b.pending && b.channel == a.channel
              && b.screen.Chatting? && b.screen.chat.input == ""
            case _ => call.None?
  {
    hide Understand;
  }

  /** A line that says something is posted to the open room at once, and the composer is emptied. */
  lemma EnterSends(w: World, cells: Measure, body: string)
    requires Inv(w) && Typed(w, KeyPressed(InChat(Enter(cells))), Say(body))
    ensures OnRoom(w.app)
    ensures var t := Step(w, KeyPressed(InChat(Enter(cells))));
            && t.live == w.live + [Live(PostBody(OpenId(w.app), body), w.app.channel, None)]
            && t.app.pending && t.app.screen.Chatting? && t.app.screen.chat.input == ""
  {
    hide Inv, Understand, Press;
    ReadsFromInv(w);
    HasClient(w);
    EnterAsks(w.app, cells);
  }

  /** So is a line that names a room. */
  lemma EnterCreates(w: World, cells: Measure, name: string)
    requires Inv(w) && Typed(w, KeyPressed(InChat(Enter(cells))), Meaning.NewRoom(name))
    ensures var t := Step(w, KeyPressed(InChat(Enter(cells))));
            && t.live == w.live + [Live(MakeRoom(name), w.app.channel, None)]
            && t.app.pending && t.app.screen.Chatting? && t.app.screen.chat.input == ""
  {
    hide Inv, Understand, Press;
    ReadsFromInv(w);
    HasClient(w);
    EnterAsks(w.app, cells);
  }

  /** With a call unanswered a line that would start another stays as it was typed. */
  lemma RefusedLineStays(w: World, cells: Measure)
    requires w.app.screen.Chatting? && w.app.pending && !w.app.exit
    requires var meant := Understand(w.app.screen.chat.input, cells); meant.Say? || meant.NewRoom?
    ensures Step(w, KeyPressed(InChat(Enter(cells)))) == w
  {
    hide Understand;
  }

  /** A room that is being opened starts from an empty pane, followed to its end, that nothing watches yet. */
  lemma OpeningStartsEmpty(a: App)
    requires AskOpen(a).1.Some?
    ensures var b := AskOpen(a).0;
            && OnRoom(a) && AskOpen(a).1 == Some(OpenFeed(OpenId(a)))
            && b.pending && b.messages.None? && OnRoom(b) && OpenId(b) == OpenId(a)
            && var c := b.screen.chat;
               c.messages == [] && c.notices == [] && c.watched.None? && c.scroll.None?
               && c.input == a.screen.chat.input && c.lastRead == a.screen.chat.lastRead
  {
  }

  lemma HasClient(w: World)
    requires Inv(w)
    ensures w.app.client <==> !w.app.screen.Connection?
  {
  }

  /** With nothing unanswered, the forms start the calls that their keys name. */
  lemma FormsStart(w: World)
    requires Inv(w) && !w.app.exit && !w.app.pending
    ensures w.app.screen.Connection? ==>
              var t := Step(w, KeyPressed(SubmitForm));
              t.live == w.live + [Live(Connect, w.app.channel, None)] && t.app == w.app.(pending := true)
    ensures w.app.screen.SignIn? ==>
              var t := Step(w, KeyPressed(PressRegister));
              t.live == w.live + [Live(Register, w.app.channel, None)] && t.app == w.app.(pending := true)
    ensures w.app.screen.SignIn? ==>
              var t := Step(w, KeyPressed(PressLogIn));
              && t.live == w.live + [Live(LogIn(w.app.screen.username), w.app.channel, None)]
              && t.app == w.app.(pending := true)
  {
    HasClient(w);
    hide Inv;
  }

  /** A login goes out under the name typed last, and a server that was reached is signed in to. */
  lemma FormsLead(w: World, username: string)
    requires !w.app.exit
    ensures w.app.screen.SignIn? ==>
              Step(w, KeyPressed(TypeUsername(username))) == w.(app := w.app.(screen := SignIn(username)))
    ensures w.app.answers == [Connected(Ok(()))] ==>
              var t := Step(w, AnswerTaken);
              && t.live == w.live
              && t.app == w.app.(client := true, screen := SignIn(""), pending := false, answers := [])
  {
  }

  /** The quitting key ends the loop and nothing else, and from then on no key or answer does anything. */
  lemma QuittingIsFinal(w: World, key: AppKey)
    requires !w.app.exit
    ensures var t := Step(w, KeyPressed(Quit));
            && t == w.(app := w.app.(exit := true))
            && Step(t, KeyPressed(key)) == t && Step(t, AnswerTaken) == t
    ensures key != Quit ==> !Step(w, KeyPressed(key)).app.exit
  {
    if key.InChat? && w.app.screen.Chatting? {
      var reacted := HandleKey(w.app.screen.chat, key.key, w.app.pending);
      hide HandleKey;
    }
  }

  /** A registration leads on to a login under the name on the form, and a login to a screen of that reader's own. */
  lemma RegisteringLogsIn(w: World)
    requires Inv(w) && w.app.answers == [Registered(Ok(()))] && w.app.screen.SignIn?
    ensures TakeAnswer(w).live == w.live + [Live(LogIn(w.app.screen.username), w.app.channel, None)]
  {
    HasClient(w);
    hide Inv;
  }

  lemma LoggingInShowsOwn(w: World, username: string, listed: Snapshot)
    requires w.app.answers == [LoggedIn(username, Ok(listed))]
    ensures var t := TakeAnswer(w);
            && t.app.screen.Chatting? && t.app.screen.chat.me == username
            && t.app.screen.chat.rooms == listed.Rooms() && t.app.screen.chat.selected == 0
  {
  }
}
