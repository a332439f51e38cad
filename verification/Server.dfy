/**
 The server over whole runs: any number of requests, each a sequence of steps that the steps of
 other requests run between. A step is one SQL statement, or one check that reads no table.

 Tokens are ideal: the server honours exactly the subjects it signed. Whether a password matches a
 hash is an oracle. The configuration is fixed, and the database is not rebuilt during a run.
 */
module Server {
  import opened Wire
  import opened Logs
  import opened Columns
  import opened MessageTable
  import NameTable
  import opened Store
  import opened Api

  datatype Config = Config(maxRooms: nat, maxAccounts: nat, maxBytes: nat)

  /** A login whose account was looked up, and a post whose token and body passed. */
  datatype Login = Login(username: string, known: bool)
  datatype Posting = Posting(username: string, room: nat, body: string)

  datatype Server = Server(
    config: Config,
    rooms: NameTable.State,
    users: NameTable.State,
    rows: seq<Row>,
    tokens: set<string>,
    logins: map<nat, Login>,
    posts: map<nat, Posting>)

  datatype Event =
    | OnRooms(rooms: NameTable.Event)
    | OnUsers(users: NameTable.Event)
    | LookUp(id: nat, username: string)
    | Issue(id: nat, verified: bool)
    | Authenticate(id: nat, token: string, room: nat, body: string)
    | InsertMessage(id: nat, now: nat, spare: int)

  /** 1 to 32 characters, none of them a control character. */
  predicate ValidUsername(raw: string) {
    1 <= |raw| <= 32 && forall c :: c in raw ==> !(c as int < 0x20 || 0x7F <= c as int <= 0x9F)
  }

  /** 1 to 64 printable ASCII characters. */
  predicate ValidRoomName(raw: string) {
    1 <= |raw| <= 64 && forall c :: c in raw ==> ' ' <= c <= '~'
  }

  /** A fresh database: no accounts, no messages, and the lobby. */
  function Boot(config: Config): Server {
    Server(config,
           NameTable.Start([NameTable.Entry(1, LOBBY, "")], config.maxRooms, true),
           NameTable.Start([], config.maxAccounts, false),
           [], {}, map[], map[])
  }

  function Step(s: Server, e: Event): Server {
    match e
    case OnRooms(r) =>
      if r.Ask? && !ValidRoomName(r.name) then s else s.(rooms := NameTable.Step(s.rooms, r))
    case OnUsers(u) =>
      if u.Ask? && !ValidUsername(u.name) then s else s.(users := NameTable.Step(s.users, u))
    case LookUp(id, username) =>
      if id in s.logins then s
      else s.(logins := s.logins[id := Login(username, NameTable.Find(s.users.table, username).Some?)])
    case Issue(id, verified) =>
      if id !in s.logins then s
      else
        var Login(username, known) := s.logins[id];
        s.(logins := s.logins - {id}, tokens := if verified && known then s.tokens + {username} else s.tokens)
    case Authenticate(id, token, room, body) =>
      if id in s.posts || token !in s.tokens || CheckBody(body, s.config.maxBytes).Some? then s
      else s.(posts := s.posts[id := Posting(token, room, body)])
    case InsertMessage(id, now, spare) =>
      if id !in s.posts then s
      else
        var Posting(username, room, body) := s.posts[id];
        s.(posts := s.posts - {id},
           rows := Post(s.rows, Ids(s.rooms.table), room, username, body, now, spare).0)
  }

  function Run(s: Server, events: seq<Event>): Server {
    if events == [] then s else Step(Run(s, events[..|events| - 1]), events[|events| - 1])
  }

  // ---- Every stored message is well formed ----

  ghost predicate Registered(users: seq<NameTable.Entry>, username: string) {
    exists e :: e in users && NameTable.SameButForCase(e.name, username)
  }

  /** The row lies in an existing room, holds a body the limits allow, and names an account. */
  ghost predicate WellFormed(config: Config, rooms: set<int>, users: seq<NameTable.Entry>, row: Row) {
    && row.room in rooms
    && 1 <= ByteLength(row.body) <= config.maxBytes
    && Registered(users, row.username)
  }

  ghost predicate Sound(s: Server) {
    && Keyed(s.rows)
    && (forall row :: row in s.rows ==> WellFormed(s.config, Ids(s.rooms.table), s.users.table, row))
    && (forall username :: username in s.tokens ==> Registered(s.users.table, username))
    && (forall id :: id in s.logins && s.logins[id].known ==> Registered(s.users.table, s.logins[id].username))
    && (forall id :: id in s.posts ==>
          && Registered(s.users.table, s.posts[id].username)
          && 1 <= ByteLength(s.posts[id].body) <= s.config.maxBytes)
  }

  /** A table only gains rows. */
  lemma TableGrows(s: NameTable.State, e: NameTable.Event)
    ensures s.table <= NameTable.Step(s, e).table
    ensures Ids(s.table) <= Ids(NameTable.Step(s, e).table)
  {
    forall id | id in Ids(s.table) ensures id in Ids(NameTable.Step(s, e).table) {
      var entry :| entry in s.table && entry.id as int == id;
      assert entry in NameTable.Step(s, e).table;
    }
  }

  lemma StaysRegistered(users: seq<NameTable.Entry>, more: seq<NameTable.Entry>)
    requires users <= more
    ensures forall username :: Registered(users, username) ==> Registered(more, username)
  {
    assert forall e :: e in users ==> e in more;
  }

  lemma {:induction false} PutHolds(rows: seq<Row>, row: Row, held: Row)
    requires held in Put(rows, row)
    ensures held in rows || held == row
  {
    if rows != [] && rows[|rows| - 1].pos >= row.pos && held != rows[|rows| - 1] {
      PutHolds(rows[..|rows| - 1], row, held);
    }
  }

  lemma InsertIsSound(s: Server, id: nat, now: nat, spare: int)
    requires Sound(s) && id in s.posts
    ensures Sound(Step(s, InsertMessage(id, now, spare)))
  {
    var t := Step(s, InsertMessage(id, now, spare));
    var Posting(username, room, body) := s.posts[id];
    PostKeepsKeyed(s.rows, Ids(s.rooms.table), room, username, body, now, spare);
    forall row | row in t.rows ensures WellFormed(s.config, Ids(s.rooms.table), s.users.table, row) {
      if row !in s.rows {
        PutHolds(s.rows, Row(Allocate(s.rows, spare).value, room, username, body, now), row);
      }
    }
  }

  /** More rooms and accounts leave every message, token and request as sound as it was. */
  lemma TablesGrowSound(s: Server, t: Server)
    requires Sound(s) && t == s.(rooms := t.rooms, users := t.users)
    requires Ids(s.rooms.table) <= Ids(t.rooms.table) && s.users.table <= t.users.table
    ensures Sound(t)
  {
    StaysRegistered(s.users.table, t.users.table);
    hide Registered, Keyed, ByteLength;
  }

  lemma StepIsSound(s: Server, e: Event)
    requires Sound(s)
    ensures Sound(Step(s, e))
  {
    match e
    case OnRooms(r) =>
      TableGrows(s.rooms, r);
      TablesGrowSound(s, Step(s, e));
      hide Sound, NameTable.Step;
    case OnUsers(u) =>
      TableGrows(s.users, u);
      TablesGrowSound(s, Step(s, e));
      hide Sound, NameTable.Step;
    case Authenticate(id, token, room, body) =>
      BodyAccepted(body, s.config.maxBytes);
      hide Registered, Keyed, ByteLength, CheckBody;
    case InsertMessage(id, now, spare) =>
      if id in s.posts {
        InsertIsSound(s, id, now, spare);
        hide Sound;
      }
    case _ => LoginIsSound(s, e);
  }

  /** A token is issued to a name that an account was found for. */
  lemma LoginIsSound(s: Server, e: Event)
    requires Sound(s) && (e.LookUp? || e.Issue?)
    ensures Sound(Step(s, e))
  {
    if e.LookUp? {
      NameTable.FindIsByCase(s.users.table, e.username);
    }
    hide Keyed, ByteLength, WellFormed, NameTable.SameButForCase;
  }

  /** In every run, every stored message is in an existing room, of an allowed size, by an account. */
  lemma {:induction false} EveryMessageIsWellFormed(config: Config, events: seq<Event>)
    ensures Sound(Run(Boot(config), events)) && Run(Boot(config), events).config == config
    ensures var s := Run(Boot(config), events);
            forall row :: row in s.rows ==> WellFormed(config, Ids(s.rooms.table), s.users.table, row)
  {
    if events != [] {
      EveryMessageIsWellFormed(config, events[..|events| - 1]);
      assert Run(Boot(config), events).config == Run(Boot(config), events[..|events| - 1]).config;
      StepIsSound(Run(Boot(config), events[..|events| - 1]), events[|events| - 1]);
    }
  }

  // ---- Creations inside the whole server are the ones the name tables describe ----

  function RoomEvents(events: seq<Event>): seq<NameTable.Event> {
    if events == [] then []
    else
      var rest, e := RoomEvents(events[..|events| - 1]), events[|events| - 1];
      if e.OnRooms? && !(e.rooms.Ask? && !ValidRoomName(e.rooms.name)) then rest + [e.rooms] else rest
  }

  function UserEvents(events: seq<Event>): seq<NameTable.Event> {
    if events == [] then []
    else
      var rest, e := UserEvents(events[..|events| - 1]), events[|events| - 1];
      if e.OnUsers? && !(e.users.Ask? && !ValidUsername(e.users.name)) then rest + [e.users] else rest
  }

  /** What one step does to the two name tables. */
  lemma StepRunsAlone(s: Server, e: Event)
    ensures Step(s, e).config == s.config
    ensures Step(s, e).rooms
         == if e.OnRooms? && !(e.rooms.Ask? && !ValidRoomName(e.rooms.name)) then NameTable.Step(s.rooms, e.rooms)
            else s.rooms
    ensures Step(s, e).users
         == if e.OnUsers? && !(e.users.Ask? && !ValidUsername(e.users.name)) then NameTable.Step(s.users, e.users)
            else s.users
  {
    hide NameTable.Step, Post, CheckBody;
  }

  lemma {:induction false} TablesRunAlone(config: Config, events: seq<Event>)
    ensures var s := Run(Boot(config), events);
            && s.config == config
            && s.rooms == NameTable.Run(Boot(config).rooms, RoomEvents(events))
            && s.users == NameTable.Run(Boot(config).users, UserEvents(events))
  {
    if events != [] {
      var front, e := events[..|events| - 1], events[|events| - 1];
      TablesRunAlone(config, front);
      StepRunsAlone(Run(Boot(config), front), e);
      hide Step, NameTable.Step, NameTable.Run, Boot, ValidRoomName, ValidUsername;
      if e.OnRooms? {
        NameTable.RunPush(Boot(config).rooms, RoomEvents(front), e.rooms);
      } else if e.OnUsers? {
        NameTable.RunPush(Boot(config).users, UserEvents(front), e.users);
      }
    }
  }

  /** From a fresh store the caps hold, the lobby stays first, and no name is held twice. */
  lemma CapsHold(config: Config, events: seq<Event>)
    ensures var s := Run(Boot(config), events);
            && |s.rooms.table| <= Max(config.maxRooms, 1)
            && |s.users.table| <= config.maxAccounts
            && NameTable.Distinct(s.rooms.table) && NameTable.Distinct(s.users.table)
            && |s.rooms.table| >= 1 && s.rooms.table[0] == NameTable.Entry(1, LOBBY, "")
  {
    TablesRunAlone(config, events);
    NameTable.NamesStayUnique([NameTable.Entry(1, LOBBY, "")], config.maxRooms, true, RoomEvents(events));
    NameTable.NamesStayUnique([], config.maxAccounts, false, UserEvents(events));
  }

  /** Tables a client may find: keyed rows, rooms under distinct names, and at least one of them. */
  ghost predicate Servable(rooms: seq<NameTable.Entry>, rows: seq<Row>) {
    Keyed(rows) && NameTable.Distinct(rooms) && rooms != []
  }

  /** Every run of the server leaves such tables, which is what the clients' runs start from. */
  lemma EveryServerIsServable(config: Config, events: seq<Event>)
    ensures var s := Run(Boot(config), events); Servable(s.rooms.table, s.rows)
  {
    CapsHold(config, events);
    EveryMessageIsWellFormed(config, events);
  }

  // ---- One order for the whole server ----

  lemma StepKeepsKeys(s: Server, e: Event)
    requires Keyed(s.rows)
    ensures Keyed(Step(s, e).rows) && TopKey(s.rows) <= TopKey(Step(s, e).rows)
    ensures TopKey(s.rows) < MAX_COLUMN ==>
              Step(s, e).rows == s.rows
              || exists row: Row :: row.pos == TopKey(s.rows) + 1 && Step(s, e).rows == s.rows + [row]
  {
    if e.InsertMessage? && e.id in s.posts {
      var Posting(username, room, body) := s.posts[e.id];
      PostKeepsKeyed(s.rows, Ids(s.rooms.table), room, username, body, e.now, e.spare);
      PostLandsLast(s.rows, Ids(s.rooms.table), room, username, body, e.now, e.spare);
      if Allocate(s.rows, e.spare).Ok? {
        var key := Allocate(s.rows, e.spare).value;
        forall i | 0 <= i < |s.rows| ensures s.rows[i].pos != key {
          assert s.rows[i].pos <= TopKey(s.rows);
        }
        if Fits(e.now) {
          PutKeepsKeyed(s.rows, Row(key, room, username, body, e.now));
        }
      }
    }
  }

  /** Keys count commits. */
  ghost predicate Consecutive(rows: seq<Row>) {
    forall i :: 0 <= i < |rows| ==> rows[i].pos == i + 1
  }

  lemma ConsecutivePush(rows: seq<Row>, row: Row)
    requires Consecutive(rows) && row.pos == TopKey(rows) + 1
    ensures Consecutive(rows + [row])
  {
  }

  /** Until the sequence is exhausted the table only grows at its end, in commit order. */
  lemma {:induction false} TableIsAppended(s: Server, events: seq<Event>)
    requires Keyed(s.rows) && TopKey(Run(s, events).rows) < MAX_COLUMN
    ensures s.rows <= Run(s, events).rows && Keyed(Run(s, events).rows)
    ensures TopKey(s.rows) < MAX_COLUMN
    ensures Consecutive(s.rows) ==> Consecutive(Run(s, events).rows)
  {
    if events != [] {
      var front, e := events[..|events| - 1], events[|events| - 1];
      var before := Run(s, front);
      assert Run(s, events) == Step(before, e);
      RunKeepsKeys(s, front);
      StepKeepsKeys(before, e);
      hide Keyed, Step, Run, TopKey, Consecutive;
      TableIsAppended(s, front);
      if Step(before, e).rows != before.rows && Consecutive(before.rows) {
        var row: Row :| row.pos == TopKey(before.rows) + 1 && Step(before, e).rows == before.rows + [row];
        ConsecutivePush(before.rows, row);
      }
    }
  }

  lemma {:induction false} RunKeepsKeys(s: Server, events: seq<Event>)
    requires Keyed(s.rows)
    ensures Keyed(Run(s, events).rows) && TopKey(s.rows) <= TopKey(Run(s, events).rows)
  {
    if events != [] {
      RunKeepsKeys(s, events[..|events| - 1]);
      StepKeepsKeys(Run(s, events[..|events| - 1]), events[|events| - 1]);
    }
  }

  lemma {:induction false} RunJoins(s: Server, first: seq<Event>, next: seq<Event>)
    ensures Run(s, first + next) == Run(Run(s, first), next)
  {
    if next == [] {
      assert first + next == first;
    } else {
      var front := next[..|next| - 1];
      assert (first + next)[..|first + next| - 1] == first + front;
      RunJoins(s, first, front);
    }
  }

  /** Appending rows appends to each room's log, past everything it held. */
  lemma {:induction false} LogIsAppended(rows: seq<Row>, more: seq<Row>, room: int)
    requires Keyed(rows + more)
    ensures Keyed(rows)
    ensures Log(rows, room) <= Log(rows + more, room)
    ensures forall i :: |Log(rows, room)| <= i < |Log(rows + more, room)| ==>
              Log(rows + more, room)[i].pos > TopKey(rows)
  {
    KeyedFronts(rows, more);
    hide Log, Keyed;
    if more == [] {
      assert rows + more == rows;
    } else {
      var front, last := more[..|more| - 1], more[|more| - 1];
      assert rows + front + [last] == rows + more;
      LogPush(rows + front, last, room);
      LogIsAppended(rows, front, room);
    }
  }

  lemma KeyedFronts(rows: seq<Row>, more: seq<Row>)
    requires Keyed(rows + more)
    ensures Keyed(rows)
    ensures more != [] ==> TopKey(rows) < more[|more| - 1].pos && Decode(more[|more| - 1]).Ok?
  {
    var grown := rows + more;
    assert forall i :: 0 <= i < |rows| ==> rows[i] == grown[i];
    if more != [] {
      assert grown[|grown| - 1] == more[|more| - 1];
      assert rows != [] ==> grown[|rows| - 1] == rows[|rows| - 1];
    }
  }

  /**
   Commit order is log order. While the sequence lasts, keys count commits from 1, and
   whatever runs next only adds to the end of every room's log, above everything read before.
   */
  lemma ServerWideOrder(config: Config, first: seq<Event>, next: seq<Event>, room: int)
    requires TopKey(Run(Boot(config), first + next).rows) < MAX_COLUMN
    ensures var s, t := Run(Boot(config), first), Run(Boot(config), first + next);
            && Consecutive(t.rows)
            && s.rows <= t.rows
            && ReadsOn(s.rows, t.rows, room)
  {
    var s, t := Run(Boot(config), first), Run(Boot(config), first + next);
    assert Keyed(Boot(config).rows) && Consecutive(Boot(config).rows);
    hide Boot, Run, Keyed, Consecutive, ReadsOn;
    RunJoins(Boot(config), first, next);
    RunKeepsKeys(Boot(config), first);
    TableIsAppended(Boot(config), first + next);
    TableIsAppended(s, next);
    LaterReadsMore(s.rows, t.rows, room);
  }

  /** A log read later is the log read earlier, with messages above the whole table of that time. */
  ghost predicate ReadsOn(older: seq<Row>, rows: seq<Row>, room: int) {
    var before, after := Log(older, room), Log(rows, room);
    && Ascending(after) && before <= after && Newest(before) <= TopKey(older)
    && forall i :: |before| <= i < |after| ==> after[i].pos > TopKey(older)
  }

  lemma LaterReadsMore(older: seq<Row>, rows: seq<Row>, room: int)
    requires Keyed(rows) && older <= rows
    ensures Keyed(older) && ReadsOn(older, rows, room)
  {
    assert older + rows[|older|..] == rows;
    LogIsAppended(older, rows[|older|..], room);
    LogAscends(older, room);
    LogAscends(rows, room);
    hide Log, Keyed, Ascending;
  }
}
