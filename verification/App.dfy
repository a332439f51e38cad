/**
 The terminal app: its screens, its streams, and calls of which at most one is ever unanswered.

 `App` is the app as a value, and every function answers with the call it started, if it started
 one. `TerminalApp` is the object that changes in place, proved to do what the functions say.
 */
module App {
  import opened Wire
  import NameTable
  import opened MessageTable
  import Store
  import opened Feed
  import opened Chat

  /** Why a call or a read failed. `Ended` stands for both errors that mean there is no session. */
  datatype Failure = Ended | Other(why: string)

  datatype Screen = Connection | SignIn(username: string) | Chatting(chat: Chat)

  /** A request the app has started and will be answered for. */
  datatype Call =
    | Connect
    | Register
    | LogIn(username: string)
    | OpenFeed(room: nat)
    | PostBody(room: nat, body: string)
    | MakeRoom(name: string)

  /** A list of rooms on the wire: the tables as they were read. */
  datatype Snapshot = Snapshot(rooms: seq<NameTable.Entry>, rows: seq<Row>) {
    function Rooms(): seq<Room> {
      Store.Listing(rooms, rows)
    }
  }

  /** The outcome of each kind of call. */
  datatype Answer =
    | Connected(result: Result<(), Failure>)
    | Registered(result: Result<(), Failure>)
    | LoggedIn(username: string, listed: Result<Snapshot, Failure>)
    | RoomOpened(feed: Result<Feed, Failure>)
    | MessageSent(body: string, result: Result<(), Failure>)
    | RoomCreated(result: Result<(), Failure>)

  /** The open feed, with the phase its pending `next` has reached and the reply on its way to it. */
  datatype Stream = Stream(feed: Feed, phase: Phase, reply: Option<seq<Message>>)

  /** The sidebar's stream, and the list the server has read for it. */
  datatype Sidebar = Sidebar(reply: Option<Snapshot>)

  /** `channel` names the pair of ends that answers travel between. A reset makes a new pair. */
  datatype App = App(
    screen: Screen,
    client: bool,
    messages: Option<Stream>,
    rooms: Option<Sidebar>,
    reopen: bool,
    pending: bool,
    channel: nat,
    answers: seq<Answer>,
    exit: bool)

  function NewApp(): App {
    App(Connection, false, None, None, false, false, 0, [], false)
  }

  // ---- Starting calls ----

  /** Starts a call, unless one is out already. */
  function Ask(a: App, call: Call): (App, Option<Call>) {
    if a.pending then (a, None) else (a.(pending := true), Some(call))
  }

  function AskLogIn(a: App, username: string): (App, Option<Call>) {
    if a.client then Ask(a, LogIn(username)) else (a, None)
  }

  /** The room the chat screen has open, when there is a client to ask for it. */
  function RoomToAsk(a: App): Option<nat> {
    if a.client && a.screen.Chatting? && OpenRoom(a.screen.chat).Some?
    then Some(OpenRoom(a.screen.chat).value.id) else None
  }

  /** Starts the call that opens the selected room. Only if it starts are the pane and stream emptied. */
  function AskOpen(a: App): (App, Option<Call>) {
    match RoomToAsk(a)
    case None => (a, None)
    case Some(room) =>
      var (asked, call) := Ask(a, OpenFeed(room));
      if call.None? then (asked, None)
      else (asked.(screen := Chatting(Clear(a.screen.chat)), messages := None), call)
  }

  function AskSend(a: App, body: string): (App, Option<Call>) {
    match RoomToAsk(a)
    case None => (a, None)
    case Some(room) => Ask(a, PostBody(room, body))
  }

  function AskCreate(a: App, name: string): (App, Option<Call>) {
    if a.client then Ask(a, MakeRoom(name)) else (a, None)
  }

  function AskFor(a: App, intent: Option<Intent>): (App, Option<Call>) {
    match intent
    case None => (a, None)
    case Some(Send(body)) => AskSend(a, body)
    case Some(Create(name)) => AskCreate(a, name)
    case Some(OpenSelected) => AskOpen(a)
  }

  // ---- Failing ----

  /** The app without its session, on a new channel, when this failure ends the session. */
  function SignedOut(a: App, f: Failure): Option<App> {
    if f == Ended && !a.screen.Connection?
    then Some(a.(screen := SignIn(""), messages := None, rooms := None, reopen := false,
                 pending := false, channel := a.channel + 1, answers := []))
    else None
  }

  /** The app after a stream's error. */
  function OnFailed(a: App, f: Failure): App {
    match SignedOut(a, f) case Some(out) => out case None => a
  }

  /** A failed call: it ends the session, or becomes a notice on the chat screen. */
  function OnRefused(a: App, f: Failure): App {
    match SignedOut(a, f)
    case Some(out) => out
    case None =>
      if a.screen.Chatting? && f.Other? then a.(screen := Chatting(Warn(a.screen.chat, f.why))) else a
  }

  // ---- What wakes the loop ----

  function ApplyRooms(a: App, list: Result<Snapshot, Failure>): (App, Option<Call>) {
    match list
    case Err(f) => (OnFailed(a, f), None)
    case Ok(snapshot) =>
      var shown := if a.screen.Chatting?
                   then a.(screen := Chatting(ShowRooms(a.screen.chat, snapshot.Rooms()))) else a;
      if a.reopen then AskOpen(shown) else (shown, None)
  }

  function ApplyMessages(a: App, batch: Result<seq<Message>, Failure>): App {
    match batch
    case Err(f) => OnFailed(a, f)
    case Ok(messages) =>
      if a.screen.Chatting? then a.(screen := Chatting(Append(a.screen.chat, messages))) else a
  }

  /** The app after an answer, and the call that leads to: a login after a registration, an open after a login. */
  function Act(before: App, answer: Answer): (App, Option<Call>) {
    var a := before.(pending := false);
    match answer
    case Connected(Ok(_)) => (a.(client := true, screen := SignIn("")), None)
    case Registered(Ok(_)) => if a.screen.SignIn? then AskLogIn(a, a.screen.username) else (a, None)
    case LoggedIn(username, Ok(listed)) =>
      AskOpen(a.(rooms := Some(Sidebar(None)), screen := Chatting(NewChat(listed.Rooms(), username))))
    case RoomOpened(Ok(feed)) =>
      (a.(reopen := false,
          screen := if a.screen.Chatting? then Chatting(Watching(a.screen.chat, feed.room)) else a.screen,
          messages := Some(Stream(feed, Idle, None))), None)
    case MessageSent(body, Err(f)) =>
      (OnRefused(if a.screen.Chatting? then a.(screen := Chatting(Restore(a.screen.chat, body))) else a, f), None)
    case RoomCreated(Ok(_)) => (a, None)
    case MessageSent(_, Ok(_)) => (a, None)
    case RoomOpened(Err(f)) => (OnRefused(a.(reopen := true), f), None)
    case Connected(Err(f)) => (OnRefused(a, f), None)
    case Registered(Err(f)) => (OnRefused(a, f), None)
    case LoggedIn(_, Err(f)) => (OnRefused(a, f), None)
    case RoomCreated(Err(f)) => (OnRefused(a, f), None)
  }

  datatype AppKey =
    | Quit
    | SubmitForm
    | PressRegister
    | PressLogIn
    | TypeUsername(username: string)
    | InChat(key: Key)

  /** The app after a key, and the call it starts. With a call unanswered, no key starts another. */
  function Press(a: App, key: AppKey): (App, Option<Call>) {
    if key.Quit? then (a.(exit := true), None)
    else
      match a.screen
      case Connection => if key.SubmitForm? && !a.pending then Ask(a, Connect) else (a, None)
      case SignIn(username) =>
        if key.TypeUsername? then (a.(screen := SignIn(key.username)), None)
        else if key.PressRegister? && !a.pending && a.client then Ask(a, Register)
        else if key.PressLogIn? && !a.pending then AskLogIn(a, username)
        else (a, None)
      case Chatting(chat) =>
        if !key.InChat? then (a, None)
        else
          var (after, intent) := HandleKey(chat, key.key, a.pending);
          AskFor(a.(screen := Chatting(after)), intent)
  }

  // ---- The app that changes in place ----

  class TerminalApp {
    var screen: Screen
    var client: bool
    var messages: Option<Stream>
    var rooms: Option<Sidebar>
    var reopen: bool
    var pending: bool
    var channel: nat
    var answers: seq<Answer>
    var exit: bool

    function Model(): App
      reads this
    {
      App(screen, client, messages, rooms, reopen, pending, channel, answers, exit)
    }

    constructor ()
      ensures Model() == NewApp()
    {
      screen, client := Connection, false;
      messages, rooms := None, None;
      reopen, pending, exit := false, false, false;
      channel, answers := 0, [];
    }

    method StartCall(call: Call) returns (started: Option<Call>)
      modifies this`pending
      ensures (Model(), started) == Ask(old(Model()), call)
    {
      if pending {
        return None;
      }
      pending := true;
      return Some(call);
    }

    method OpenSelectedRoom() returns (started: Option<Call>)
      modifies this`pending, this`screen, this`messages
      ensures (Model(), started) == AskOpen(old(Model()))
    {
      if !client || !screen.Chatting? {
        return None;
      }
      var open := OpenRoom(screen.chat);
      if open.None? {
        return None;
      }
      started := StartCall(OpenFeed(open.value.id));
      if started.None? {
        return;
      }
      screen := Chatting(Clear(screen.chat));
      messages := None;
    }

    method SignOutOn(f: Failure) returns (gone: bool)
      modifies this`screen, this`messages, this`rooms, this`reopen, this`pending, this`channel, this`answers
      ensures gone <==> SignedOut(old(Model()), f).Some?
      ensures Model() == if gone then SignedOut(old(Model()), f).value else old(Model())
    {
      if f != Ended || screen.Connection? {
        return false;
      }
      screen := SignIn("");
      messages, rooms, reopen := None, None, false;
      pending, channel, answers := false, channel + 1, [];
      return true;
    }

    method Refuse(f: Failure)
      modifies this`screen, this`messages, this`rooms, this`reopen, this`pending, this`channel, this`answers
      ensures Model() == OnRefused(old(Model()), f)
    {
      var gone := SignOutOn(f);
      if gone {
        return;
      }
      if screen.Chatting? && f.Other? {
        screen := Chatting(Warn(screen.chat, f.why));
      }
    }

    method TakeRooms(list: Result<Snapshot, Failure>) returns (started: Option<Call>)
      modifies this
      ensures (Model(), started) == ApplyRooms(old(Model()), list)
    {
      started := None;
      match list
      case Err(f) =>
        var _ := SignOutOn(f);
      case Ok(snapshot) =>
        if screen.Chatting? {
          screen := Chatting(ShowRooms(screen.chat, snapshot.Rooms()));
        }
        if reopen {
          started := OpenSelectedRoom();
        }
    }

    method TakeMessages(batch: Result<seq<Message>, Failure>)
      modifies this
      ensures Model() == ApplyMessages(old(Model()), batch)
    {
      match batch
      case Err(f) =>
        var _ := SignOutOn(f);
      case Ok(delivered) =>
        if screen.Chatting? {
          screen := Chatting(Append(screen.chat, delivered));
        }
    }

    method TakeAnswer(answer: Answer) returns (started: Option<Call>)
      modifies this
      ensures (Model(), started) == Act(old(Model()), answer)
    {
      pending := false;
      started := None;
      match answer
      case Connected(Ok(_)) =>
        client, screen := true, SignIn("");
      case Registered(Ok(_)) =>
        if screen.SignIn? && client {
          started := StartCall(LogIn(screen.username));
        }
      case LoggedIn(username, Ok(listed)) =>
        rooms := Some(Sidebar(None));
        screen := Chatting(NewChat(listed.Rooms(), username));
        started := OpenSelectedRoom();
      case RoomOpened(Ok(feed)) =>
        reopen := false;
        if screen.Chatting? {
          screen := Chatting(Watching(screen.chat, feed.room));
        }
        messages := Some(Stream(feed, Idle, None));
      case MessageSent(body, Err(f)) =>
        if screen.Chatting? {
          screen := Chatting(Restore(screen.chat, body));
        }
        Refuse(f);
      case RoomCreated(Ok(_)) =>
      case MessageSent(_, Ok(_)) =>
      case RoomOpened(Err(f)) =>
        reopen := true;
        Refuse(f);
      case Connected(Err(f)) => Refuse(f);
      case Registered(Err(f)) => Refuse(f);
      case LoggedIn(_, Err(f)) => Refuse(f);
      case RoomCreated(Err(f)) => Refuse(f);
    }

    method TakeKey(key: AppKey) returns (started: Option<Call>)
      modifies this
      ensures (Model(), started) == Press(old(Model()), key)
    {
      started := None;
      if key.Quit? {
        exit := true;
        return;
      }
      match screen
      case Connection =>
        if key.SubmitForm? && !pending {
          started := StartCall(Connect);
        }
      case SignIn(username) =>
        if key.TypeUsername? {
          screen := SignIn(key.username);
        } else if (key.PressRegister? || key.PressLogIn?) && !pending && client {
          started := StartCall(if key.PressRegister? then Register else LogIn(username));
        }
      case Chatting(chat) =>
        if !key.InChat? {
          return;
        }
        var (after, intent) := HandleKey(chat, key.key, pending);
        screen := Chatting(after);
        if intent.None? {
          return;
        }
        match intent.value
        case Send(body) =>
          var open := OpenRoom(after);
          if client && open.Some? {
            started := StartCall(PostBody(open.value.id, body));
          }
        case Create(name) =>
          if client {
            started := StartCall(MakeRoom(name));
          }
        case OpenSelected =>
          started := OpenSelectedRoom();
    }
  }
}
