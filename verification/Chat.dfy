/**
 The chat screen's state, and everything that can happen to it.

 `Chat` is the screen as a value, with one function for each thing that happens to it. `ChatScreen`
 is the object that changes in place, each method proved to do what its function says.
 */
module Chat {
  import opened Wire

  /** What a key asks of the app around the screen. */
  datatype Intent = Send(body: string) | Create(name: string) | OpenSelected

  /** How many cells a text takes up on the reader's screen. */
  type Measure = string -> nat

  /** Enter comes with the measure in force when it is pressed. */
  datatype Key = Enter(cells: Measure) | BackTab | Tab | Up | Down | PageUp | PageDown | Typed(input: string)

  datatype Rect = Rect(x: nat, y: nat, width: nat, height: nat)

  /** A line of the pane: a day, a message, or a notice that came from no server. */
  datatype Line = Separator(day: int) | Said(message: Message, mine: bool) | Notice(text: string)

  /** What a renderer returns: the cells, the last scroll offset and the rows that fit. */
  datatype Drawn = Drawn(cells: seq<string>, bottom: nat, fits: nat)

  /** Whatever turns a title and lines into cells, at a size and an offset. */
  type Renderer = (Option<string>, seq<Line>, Rect, Option<nat>) -> Drawn

  /** The day a timestamp falls on for the reader, if it can be represented. */
  type Calendar = nat -> Option<int>

  /** The kept drawing, with the three things a later draw compares before using it. */
  datatype Pane = Pane(area: Rect, scroll: Option<nat>, revision: nat, drawn: Drawn) {
    predicate StillStands(area: Rect, scroll: Option<nat>, revision: nat) {
      this.area == area && this.scroll == scroll && this.revision == revision
    }
  }

  datatype Chat = Chat(
    rooms: seq<Room>,
    selected: nat,
    messages: seq<Message>,
    notices: seq<string>,
    lastRead: map<nat, nat>,
    watched: Option<nat>,
    scroll: Option<nat>,
    bottom: nat,
    fits: nat,
    me: string,
    input: string,
    pane: Option<Pane>,
    revision: nat)

  // ---- Rooms ----

  /** Read positions that leave no listed room unread. */
  function ReadFrom(rooms: seq<Room>): (m: map<nat, nat>) {
    if rooms == [] then map[]
    else ReadFrom(rooms[..|rooms| - 1])[rooms[|rooms| - 1].id := rooms[|rooms| - 1].latestSeq]
  }

  function NewChat(rooms: seq<Room>, me: string): Chat {
    Chat(rooms, 0, [], [], ReadFrom(rooms), None, None, 0, 0, me, "", None, 0)
  }

  /** The room at the selected index, which an empty list has none at. */
  function OpenRoom(c: Chat): Option<Room> {
    if c.selected < |c.rooms| then Some(c.rooms[c.selected]) else None
  }

  /** Where a room sits in a list, if it does. */
  function Position(rooms: seq<Room>, id: nat): (p: Option<nat>)
    ensures p.Some? ==> p.value < |rooms| && rooms[p.value].id == id
    ensures p.Some? ==> forall i :: 0 <= i < p.value ==> rooms[i].id != id
    ensures p.None? ==> forall i :: 0 <= i < |rooms| ==> rooms[i].id != id
  {
    if rooms == [] then None
    else if rooms[0].id == id then Some(0)
    else match Position(rooms[1..], id) case None => None case Some(i) => Some(i + 1)
  }

  /** Where the open room is in a new list, or the top. */
  function Reselected(c: Chat, rooms: seq<Room>): nat {
    match OpenRoom(c)
    case None => 0
    case Some(room) => match Position(rooms, room.id) case None => 0 case Some(i) => i
  }

  function ShowRooms(c: Chat, rooms: seq<Room>): Chat {
    c.(selected := Reselected(c, rooms), rooms := rooms)
  }

  function LastRead(c: Chat, room: nat): nat {
    if room in c.lastRead then c.lastRead[room] else START
  }

  /** Whether a room is badged: it is not the watched one, and is listed past its read position. */
  predicate Unread(c: Chat, room: Room) {
    c.watched != Some(room.id) && room.latestSeq > LastRead(c, room.id)
  }

  // ---- The pane's contents ----

  function Append(c: Chat, batch: seq<Message>): Chat {
    c.(lastRead := if OpenRoom(c).Some? && batch != []
                   then c.lastRead[OpenRoom(c).value.id := batch[|batch| - 1].pos]
                   else c.lastRead,
       messages := c.messages + batch,
       revision := c.revision + 1)
  }

  function Clear(c: Chat): Chat {
    c.(messages := [], notices := [], watched := None, scroll := None, revision := c.revision + 1)
  }

  function Watching(c: Chat, room: nat): Chat {
    c.(watched := Some(room))
  }

  function Warn(c: Chat, text: string): Chat {
    c.(notices := [text], scroll := None, revision := c.revision + 1)
  }

  function Restore(c: Chat, body: string): Chat {
    c.(input := body)
  }

  // ---- Keys ----

  function ScrollBy(c: Chat, rows: int): Chat {
    var from := if c.scroll.Some? then c.scroll.value else c.bottom;
    var to := if from + rows < 0 then 0 else if from + rows > c.bottom then c.bottom else from + rows;
    c.(scroll := if to < c.bottom then Some(to) else None)
  }

  /** Moves the selection to `wanted`, or the end of the list, and asks to open what it lands on. */
  function Select(c: Chat, wanted: nat, pending: bool): (Chat, Option<Intent>) {
    var last := if |c.rooms| == 0 then 0 else |c.rooms| - 1;
    var index := if wanted < last then wanted else last;
    if index == c.selected || pending then (c, None)
    else (c.(selected := index, messages := [], revision := c.revision + 1), Some(OpenSelected))
  }

  const CREATE := "/room"
  const HELP := "/help"
  const ROOM_NAME_MAX: nat := 10

  /** Stands for the lines of the help table, whose text nothing reads. */
  const COMMANDS: seq<string> := ["heading", "command"]

  predicate IsSpace(c: char) {
    var u := c as int;
    || 0x09 <= u <= 0x0D || u == 0x20 || u == 0x85 || u == 0xA0 || u == 0x1680 || 0x2000 <= u <= 0x200A
    || u == 0x2028 || u == 0x2029 || u == 0x202F || u == 0x205F || u == 0x3000
  }

  function TrimStart(s: string): string {
    if s != "" && IsSpace(s[0]) then TrimStart(s[1..]) else s
  }

  function TrimEnd(s: string): string {
    if s != "" && IsSpace(s[|s| - 1]) then TrimEnd(s[..|s| - 1]) else s
  }

  function Trim(s: string): string {
    TrimEnd(TrimStart(s))
  }

  /** Where the first word ends. */
  function WordEnd(s: string): (k: nat)
    ensures k <= |s|
  {
    if s == "" || IsSpace(s[0]) then 0 else 1 + WordEnd(s[1..])
  }

  /** What a typed line means, before anything is done about it. */
  datatype Meaning = Blank | Help | Say(body: string) | BadName(why: string) | NewRoom(name: string)

  function Understand(input: string, cells: Measure): Meaning {
    var typed := Trim(input);
    if typed == "" then Blank
    else
      var k := WordEnd(typed);
      var first := typed[..k];
      var name := Trim(typed[k..]);
      if first == HELP then Help
      else if first != CREATE then Say(typed)
      else if name == "" || (exists i :: 0 <= i < |name| && IsSpace(name[i])) then BadName("a room name is one word")
      else if cells(name) > ROOM_NAME_MAX then BadName("room name is too long")
      else NewRoom(name)
  }

  lemma {:induction false} TrimmedStart(s: string)
    ensures TrimStart(s) == "" || !IsSpace(TrimStart(s)[0])
  {
    if s != "" && IsSpace(s[0]) {
      TrimmedStart(s[1..]);
    }
  }

  lemma {:induction false} TrimmedEnd(s: string)
    ensures TrimEnd(s) <= s
    ensures TrimEnd(s) == "" || !IsSpace(TrimEnd(s)[|TrimEnd(s)| - 1])
  {
    if s != "" && IsSpace(s[|s| - 1]) {
      TrimmedEnd(s[..|s| - 1]);
    }
  }

  /** What is sent is never blank and has no space at either end, and a room is named with one short word. */
  lemma WhatIsUnderstood(input: string, cells: Measure)
    ensures var body, meant := Trim(input), Understand(input, cells);
            && (meant == Blank <==> body == "")
            && (body != "" ==> !IsSpace(body[0]) && !IsSpace(body[|body| - 1]))
            && (meant.Say? ==> meant.body == body && body != HELP)
            && (meant.NewRoom? ==>
                  && meant.name != "" && cells(meant.name) <= ROOM_NAME_MAX
                  && forall i :: 0 <= i < |meant.name| ==> !IsSpace(meant.name[i]))
  {
    TrimmedStart(input);
    TrimmedEnd(TrimStart(input));
    if Trim(input) == HELP {
      assert WordEnd(HELP) == 5;
    }
  }

  /** What Enter does. With `pending`, lines that would start a call are left as they were typed. */
  function Submit(c: Chat, pending: bool, cells: Measure): (Chat, Option<Intent>) {
    match Understand(c.input, cells)
    case Blank => (c.(input := ""), None)
    case Help => (c.(input := "", notices := COMMANDS, scroll := None, revision := c.revision + 1), None)
    case Say(body) =>
      if pending then (c, None)
      else (c.(input := "", notices := [], revision := c.revision + 1), Some(Send(body)))
    case BadName(why) => (Warn(c.(input := ""), why), None)
    case NewRoom(name) =>
      if pending then (c, None)
      else (c.(input := "", notices := [], revision := c.revision + 1), Some(Create(name)))
  }

  function HandleKey(c: Chat, key: Key, pending: bool): (Chat, Option<Intent>) {
    match key
    case Enter(cells) => Submit(c, pending, cells)
    case BackTab => Select(c, if c.selected == 0 then 0 else c.selected - 1, pending)
    case Tab => Select(c, c.selected + 1, pending)
    case Up => (ScrollBy(c, -1), None)
    case Down => (ScrollBy(c, 1), None)
    case PageUp => (ScrollBy(c, -(c.fits as int)), None)
    case PageDown => (ScrollBy(c, c.fits), None)
    case Typed(input) => (c.(input := input), None)
  }

  // ---- Drawing ----

  /** The day of the newest of these messages that has one. */
  function DayBefore(messages: seq<Message>, dayOf: Calendar): Option<int> {
    if messages == [] then None
    else
      var last := dayOf(messages[|messages| - 1].postedAt);
      if last.Some? then last else DayBefore(messages[..|messages| - 1], dayOf)
  }

  /** A message, under a separator when its day is not that of the dated message before it. */
  function Entry(before: seq<Message>, message: Message, me: string, dayOf: Calendar): seq<Line> {
    var day := dayOf(message.postedAt);
    (if day.Some? && day != DayBefore(before, dayOf) then [Separator(day.value)] else [])
    + [Said(message, message.username == me)]
  }

  function MessageLines(messages: seq<Message>, me: string, dayOf: Calendar): seq<Line> {
    if messages == [] then []
    else
      var front := messages[..|messages| - 1];
      MessageLines(front, me, dayOf) + Entry(front, messages[|messages| - 1], me, dayOf)
  }

  function Notices(notices: seq<string>): seq<Line> {
    seq(|notices|, i requires 0 <= i < |notices| => Notice(notices[i]))
  }

  function Title(c: Chat): Option<string> {
    match OpenRoom(c) case None => None case Some(room) => Some(room.name)
  }

  /** What a draw with nothing kept would produce. */
  function Fresh(c: Chat, area: Rect, scroll: Option<nat>, render: Renderer, dayOf: Calendar): Drawn {
    render(Title(c), MessageLines(c.messages, c.me, dayOf) + Notices(c.notices), area, scroll)
  }

  function Draw(c: Chat, area: Rect, render: Renderer, dayOf: Calendar): Chat {
    if c.pane.Some? && c.pane.value.StillStands(area, c.scroll, c.revision)
    then c.(bottom := c.pane.value.drawn.bottom, fits := c.pane.value.drawn.fits)
    else
      var drawn := Fresh(c, area, c.scroll, render, dayOf);
      c.(pane := Some(Pane(area, c.scroll, c.revision, drawn)), bottom := drawn.bottom, fits := drawn.fits)
  }

  // ---- The screen that changes in place ----

  class ChatScreen {
    var rooms: seq<Room>
    var selected: nat
    var messages: seq<Message>
    var notices: seq<string>
    var lastRead: map<nat, nat>
    var watched: Option<nat>
    var scroll: Option<nat>
    var bottom: nat
    var fits: nat
    const me: string
    var input: string
    var pane: Option<Pane>
    var revision: nat

    function Model(): Chat
      reads this
    {
      Chat(rooms, selected, messages, notices, lastRead, watched, scroll, bottom, fits, me, input, pane, revision)
    }

    constructor (rooms: seq<Room>, me: string)
      ensures Model() == NewChat(rooms, me)
    {
      this.rooms, this.me := rooms, me;
      selected, messages, notices, input := 0, [], [], "";
      watched, scroll, pane := None, None, None;
      bottom, fits, revision := 0, 0, 0;
      lastRead := map[];
      new;
      var i := 0;
      while i < |rooms|
        invariant 0 <= i <= |rooms|
        invariant Model() == NewChat(rooms, me).(lastRead := ReadFrom(rooms[..i]))
      {
        lastRead := lastRead[rooms[i].id := rooms[i].latestSeq];
        assert rooms[..i + 1][..i] == rooms[..i];
        i := i + 1;
      }
      assert rooms[..i] == rooms;
    }

    method Show(list: seq<Room>)
      modifies this`rooms, this`selected
      ensures Model() == ShowRooms(old(Model()), list)
    {
      var open := OpenRoom(Model());
      rooms := list;
      var index := 0;
      if open.Some? {
        var at := Position(list, open.value.id);
        if at.Some? {
          index := at.value;
        }
      }
      selected := index;
    }

    method AppendBatch(batch: seq<Message>)
      modifies this`lastRead, this`messages, this`revision
      ensures Model() == Append(old(Model()), batch)
    {
      if selected < |rooms| && |batch| > 0 {
        lastRead := lastRead[rooms[selected].id := batch[|batch| - 1].pos];
      }
      messages := messages + batch;
      revision := revision + 1;
    }

    method Empty()
      modifies this`messages, this`notices, this`watched, this`scroll, this`revision
      ensures Model() == Clear(old(Model()))
    {
      messages, notices := [], [];
      watched, scroll := None, None;
      revision := revision + 1;
    }

    method Watch(room: nat)
      modifies this`watched
      ensures Model() == Watching(old(Model()), room)
    {
      watched := Some(room);
    }

    method Complain(text: string)
      modifies this`notices, this`scroll, this`revision
      ensures Model() == Warn(old(Model()), text)
    {
      notices, scroll := [text], None;
      revision := revision + 1;
    }

    method Scroll(rows: int)
      modifies this`scroll
      ensures Model() == ScrollBy(old(Model()), rows)
    {
      var from := if scroll.Some? then scroll.value else bottom;
      var to := from + rows;
      if to < 0 {
        to := 0;
      } else if to > bottom {
        to := bottom;
      }
      scroll := if to < bottom then Some(to) else None;
    }

    method OpenAt(wanted: nat, pending: bool) returns (intent: Option<Intent>)
      modifies this`selected, this`messages, this`revision
      ensures (Model(), intent) == Select(old(Model()), wanted, pending)
    {
      var index := wanted;
      if index >= |rooms| {
        index := if |rooms| == 0 then 0 else |rooms| - 1;
      }
      if index == selected || pending {
        return None;
      }
      selected, messages, revision := index, [], revision + 1;
      return Some(OpenSelected);
    }

    method TakeLine(pending: bool, cells: Measure) returns (intent: Option<Intent>)
      modifies this`input, this`notices, this`scroll, this`revision
      ensures (Model(), intent) == Submit(old(Model()), pending, cells)
    {
      var meaning := Understand(input, cells);
      intent := None;
      if (meaning.Say? || meaning.NewRoom?) && pending {
        return;
      }
      input := "";
      match meaning
      case Blank =>
      case Help =>
        notices, scroll, revision := COMMANDS, None, revision + 1;
      case BadName(why) =>
        Complain(why);
      case Say(body) =>
        notices, revision := [], revision + 1;
        intent := Some(Send(body));
      case NewRoom(name) =>
        notices, revision := [], revision + 1;
        intent := Some(Create(name));
    }

    method Press(key: Key, pending: bool) returns (intent: Option<Intent>)
      modifies this`selected, this`messages, this`revision, this`input, this`notices, this`scroll
      ensures (Model(), intent) == HandleKey(old(Model()), key, pending)
    {
      intent := None;
      match key
      case Enter(cells) => intent := TakeLine(pending, cells);
      case BackTab => intent := OpenAt(if selected == 0 then 0 else selected - 1, pending);
      case Tab => intent := OpenAt(selected + 1, pending);
      case Up => Scroll(-1);
      case Down => Scroll(1);
      case PageUp => Scroll(-(fits as int));
      case PageDown => Scroll(fits);
      case Typed(typed) => input := typed;
    }

    /** Merges the pane that was kept, or builds the lines and keeps what they draw to. */
    method DrawMessages(area: Rect, render: Renderer, dayOf: Calendar)
      modifies this`pane, this`bottom, this`fits
      ensures Model() == Draw(old(Model()), area, render, dayOf)
    {
      if pane.Some? && pane.value.StillStands(area, scroll, revision) {
        bottom, fits := pane.value.drawn.bottom, pane.value.drawn.fits;
        return;
      }

      var lines: seq<Line> := [];
      var day: Option<int> := None;
      var i := 0;
      while i < |messages|
        invariant 0 <= i <= |messages|
        invariant lines == MessageLines(messages[..i], me, dayOf)
        invariant day == DayBefore(messages[..i], dayOf)
      {
        var at := dayOf(messages[i].postedAt);
        if at.Some? && at != day {
          day := at;
          lines := lines + [Separator(at.value)];
        }
        lines := lines + [Said(messages[i], messages[i].username == me)];
        assert messages[..i + 1][..i] == messages[..i];
        i := i + 1;
      }
      assert messages[..i] == messages;
      for k := 0 to |notices|
        invariant lines == MessageLines(messages, me, dayOf) + Notices(notices)[..k]
      {
        lines := lines + [Notice(notices[k])];
      }
      assert Notices(notices)[..|notices|] == Notices(notices);

      var title := if selected < |rooms| then Some(rooms[selected].name) else None;
      var drawn := render(title, lines, area, scroll);
      pane := Some(Pane(area, scroll, revision, drawn));
      bottom, fits := drawn.bottom, drawn.fits;
    }
  }
}
