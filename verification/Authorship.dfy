/**
 Whose messages the table holds. A token is issued for the right password to an account that exists,
 and a row names the token its request carried, in every run from a fresh database.
 */
module Authorship {
  import opened Wire
  import opened Columns
  import opened MessageTable
  import NameTable
  import Store
  import opened Api
  import opened Server

  // ---- Tokens ----

  /** A look-up that starts a login. */
  ghost predicate LooksUp(s: Server, e: Event, id: nat, login: Login) {
    && e == LookUp(id, login.username) && id !in s.logins
    && (login.known <==> Registered(s.users.table, login.username))
  }

  /** The right password, for a login whose account was found. */
  predicate Issues(s: Server, e: Event, username: string) {
    e.Issue? && e.verified && e.id in s.logins && s.logins[e.id] == Login(username, true)
  }

  ghost predicate LookedUp(config: Config, events: seq<Event>, id: nat, login: Login) {
    exists i :: 0 <= i < |events| && LooksUp(Run(Boot(config), events[..i]), events[i], id, login)
  }

  ghost predicate Issued(config: Config, events: seq<Event>, username: string) {
    exists j :: 0 <= j < |events| && Issues(Run(Boot(config), events[..j]), events[j], username)
  }

  lemma Fronts(events: seq<Event>)
    requires events != []
    ensures forall i :: 0 <= i < |events| - 1 ==>
              events[..|events| - 1][..i] == events[..i] && events[..|events| - 1][i] == events[i]
  {
  }

  lemma LookedUpPush(config: Config, events: seq<Event>, id: nat, login: Login)
    requires events != []
    ensures var front := events[..|events| - 1];
            LookedUp(config, front, id, login) || LooksUp(Run(Boot(config), front), events[|events| - 1], id, login) ==>
              LookedUp(config, events, id, login)
  {
    hide Run, LooksUp;
    Fronts(events);
    var front := events[..|events| - 1];
    if i :| 0 <= i < |front| && LooksUp(Run(Boot(config), front[..i]), front[i], id, login) {
      assert LooksUp(Run(Boot(config), events[..i]), events[i], id, login);
    }
  }

  lemma IssuedPush(config: Config, events: seq<Event>, username: string)
    requires events != []
    ensures var front := events[..|events| - 1];
            Issued(config, events, username)
            <==> Issued(config, front, username) || Issues(Run(Boot(config), front), events[|events| - 1], username)
  {
    hide Run, Issues;
    Fronts(events);
    var front := events[..|events| - 1];
    if j :| 0 <= j < |front| && Issues(Run(Boot(config), front[..j]), front[j], username) {
      assert Issues(Run(Boot(config), events[..j]), events[j], username);
    }
    if j :| 0 <= j < |events| && Issues(Run(Boot(config), events[..j]), events[j], username) {
      assert j < |front| ==> Issues(Run(Boot(config), front[..j]), front[j], username);
    }
  }

  /** Tokens change by being issued, and in no other way. */
  lemma StepIssues(s: Server, e: Event, username: string)
    ensures username in Step(s, e).tokens <==> username in s.tokens || Issues(s, e, username)
  {
    hide Post, NameTable.Step, CheckBody;
  }

  /** A name has a token exactly when the right password was once given for a login that had found its account. */
  lemma {:induction false} TokensAreIssued(config: Config, events: seq<Event>, username: string)
    ensures username in Run(Boot(config), events).tokens <==> Issued(config, events, username)
  {
    if events != [] {
      hide Step, Issued, Issues;
      TokensAreIssued(config, events[..|events| - 1], username);
      IssuedPush(config, events, username);
      StepIssues(Run(Boot(config), events[..|events| - 1]), events[|events| - 1], username);
    }
  }

  lemma StepLooksUp(s: Server, e: Event, id: nat)
    requires id in Step(s, e).logins
    ensures (id in s.logins && Step(s, e).logins[id] == s.logins[id]) || LooksUp(s, e, id, Step(s, e).logins[id])
  {
    if e.LookUp? {
      NameTable.FindIsByCase(s.users.table, e.username);
    }
    hide Post, NameTable.Step, CheckBody, NameTable.SameButForCase, NameTable.Find;
  }

  /** A login that is part-way was started by a look-up of its name, which found what it remembers. */
  lemma {:induction false} LoginsWereLookedUp(config: Config, events: seq<Event>, id: nat)
    requires id in Run(Boot(config), events).logins
    ensures LookedUp(config, events, id, Run(Boot(config), events).logins[id])
  {
    if events != [] {
      hide Step, LookedUp, LooksUp;
      var front, e := events[..|events| - 1], events[|events| - 1];
      var s := Run(Boot(config), front);
      StepLooksUp(s, e, id);
      LookedUpPush(config, events, id, Step(s, e).logins[id]);
      if id in s.logins {
        LoginsWereLookedUp(config, front, id);
      }
    }
  }

  lemma FrontOfFront(events: seq<Event>, i: nat, j: nat)
    requires i < j <= |events|
    ensures events[..j][..i] == events[..i] && events[..j][i] == events[i]
  {
  }

  /** Every token goes back to one login: its name looked up, its account found, then its password verified. */
  lemma {:induction false} EveryTokenIsEarned(config: Config, events: seq<Event>, username: string)
    returns (i: nat, j: nat, id: nat)
    requires username in Run(Boot(config), events).tokens
    ensures i < j < |events| && events[j] == Issue(id, true)
    ensures LooksUp(Run(Boot(config), events[..i]), events[i], id, Login(username, true))
  {
    hide Run, LooksUp;
    TokensAreIssued(config, events, username);
    j :| 0 <= j < |events| && Issues(Run(Boot(config), events[..j]), events[j], username);
    id := events[j].id;
    LoginsWereLookedUp(config, events[..j], id);
    i :| 0 <= i < j && LooksUp(Run(Boot(config), events[..j][..i]), events[..j][i], id, Login(username, true));
    FrontOfFront(events, i, j);
  }

  // ---- Rows ----

  /** A request whose token is honoured and whose body the limits allow. */
  predicate Sends(s: Server, e: Event, id: nat, posting: Posting) {
    && e == Authenticate(id, posting.username, posting.room, posting.body) && id !in s.posts
    && posting.username in s.tokens
    && 1 <= ByteLength(posting.body) <= s.config.maxBytes
  }

  ghost predicate Sent(config: Config, events: seq<Event>, id: nat, posting: Posting) {
    exists i :: 0 <= i < |events| && Sends(Run(Boot(config), events[..i]), events[i], id, posting)
  }

  /** The row's own request was accepted and then inserted. */
  ghost predicate Wrote(config: Config, events: seq<Event>, row: Row) {
    exists j, id, posting :: 0 <= j < |events| && Writes(events[j], id, posting, row)
                             && Sent(config, events[..j], id, posting)
  }

  predicate Writes(e: Event, id: nat, posting: Posting, row: Row) {
    && e.InsertMessage? && e.id == id
    && row.username == posting.username && row.room == posting.room && row.body == posting.body
    && row.postedAt == e.now
  }

  lemma SentPush(config: Config, events: seq<Event>, id: nat, posting: Posting)
    requires events != []
    ensures var front := events[..|events| - 1];
            Sent(config, front, id, posting) || Sends(Run(Boot(config), front), events[|events| - 1], id, posting) ==>
              Sent(config, events, id, posting)
  {
    hide Run, Sends;
    Fronts(events);
    var front := events[..|events| - 1];
    if i :| 0 <= i < |front| && Sends(Run(Boot(config), front[..i]), front[i], id, posting) {
      assert Sends(Run(Boot(config), events[..i]), events[i], id, posting);
    }
  }

  lemma WrotePush(config: Config, events: seq<Event>, row: Row)
    requires events != [] && Wrote(config, events[..|events| - 1], row)
    ensures Wrote(config, events, row)
  {
    hide Sent, Writes;
    Fronts(events);
    var front := events[..|events| - 1];
    var j, id, posting :| 0 <= j < |front| && Writes(front[j], id, posting, row)
                          && Sent(config, front[..j], id, posting);
    assert Writes(events[j], id, posting, row) && Sent(config, events[..j], id, posting);
  }

  lemma StepSends(s: Server, e: Event, id: nat)
    requires id in Step(s, e).posts
    ensures (id in s.posts && Step(s, e).posts[id] == s.posts[id]) || Sends(s, e, id, Step(s, e).posts[id])
  {
    if e.Authenticate? {
      BodyAccepted(e.body, s.config.maxBytes);
    }
    hide Post, NameTable.Step, CheckBody, ByteLength;
  }

  /** A post that is part-way came in under a token that was honoured, and is what came in. */
  lemma {:induction false} PostsWereSent(config: Config, events: seq<Event>, id: nat)
    requires id in Run(Boot(config), events).posts
    ensures Sent(config, events, id, Run(Boot(config), events).posts[id])
  {
    if events != [] {
      hide Step, Sent, Sends;
      var front, e := events[..|events| - 1], events[|events| - 1];
      var s := Run(Boot(config), front);
      StepSends(s, e, id);
      SentPush(config, events, id, Step(s, e).posts[id]);
      if id in s.posts {
        PostsWereSent(config, front, id);
      }
    }
  }

  lemma StepWrites(s: Server, e: Event, row: Row)
    requires row in Step(s, e).rows && row !in s.rows
    ensures e.InsertMessage? && e.id in s.posts && Writes(e, e.id, s.posts[e.id], row)
  {
    var Posting(username, room, body) := s.posts[e.id];
    PutHolds(s.rows, Row(Allocate(s.rows, e.spare).value, room, username, body, e.now), row);
    hide NameTable.Step, CheckBody, Put, Allocate;
  }

  /**
   Every stored message is what one request sent: its author is the name on that request's token, which
   was issued, its room and body are the request's, and its time is that of the insert.
   */
  lemma {:induction false} EveryMessageWasSent(config: Config, events: seq<Event>, row: Row)
    requires row in Run(Boot(config), events).rows
    ensures Wrote(config, events, row)
  {
    hide Step, Writes, Sent;
    var front, e := events[..|events| - 1], events[|events| - 1];
    var s := Run(Boot(config), front);
    if row in s.rows {
      EveryMessageWasSent(config, front, row);
      WrotePush(config, events, row);
    } else {
      StepWrites(s, e, row);
      PostsWereSent(config, front, e.id);
      assert Writes(events[|front|], e.id, s.posts[e.id], row) && events[..|front|] == front;
    }
  }

  /** And a request that is accepted is stored as sent, if its room exists, time fits and the sequence lasts. */
  lemma AcceptedIsStored(s: Server, id: nat, token: string, room: nat, body: string, now: nat, spare: int)
    requires Sends(s, Authenticate(id, token, room, body), id, Posting(token, room, body))
    requires Keyed(s.rows) && TopKey(s.rows) < MAX_COLUMN
    requires room as int in Store.Ids(s.rooms.table) && Fits(room) && Fits(now)
    ensures Step(Step(s, Authenticate(id, token, room, body)), InsertMessage(id, now, spare)).rows
         == s.rows + [Row(TopKey(s.rows) + 1, room, token, body, now)]
  {
    BodyAccepted(body, s.config.maxBytes);
    PostLandsLast(s.rows, Store.Ids(s.rooms.table), room, token, body, now, spare);
    hide Post, CheckBody, ByteLength;
  }

  // ---- Names ----

  /** What the server takes for a username and for a room's name, a character at a time. */
  predicate FitForAccount(name: string) {
    1 <= |name| <= 32 && forall i :: 0 <= i < |name| ==> 0x20 <= name[i] as int < 0x7F || name[i] as int > 0x9F
  }

  predicate FitForRoom(name: string) {
    1 <= |name| <= 64 && forall i :: 0 <= i < |name| ==> 0x20 <= name[i] as int < 0x7F
  }

  lemma ValidIffFit(name: string)
    ensures ValidUsername(name) <==> FitForAccount(name)
    ensures ValidRoomName(name) <==> FitForRoom(name)
  {
    assert forall i :: 0 <= i < |name| ==> name[i] in name;
  }

  lemma {:induction false} AskedNamesAreFit(events: seq<Event>)
    ensures forall i :: 0 <= i < |UserEvents(events)| && UserEvents(events)[i].Ask? ==>
              FitForAccount(UserEvents(events)[i].name)
    ensures forall i :: 0 <= i < |RoomEvents(events)| && RoomEvents(events)[i].Ask? ==>
              FitForRoom(RoomEvents(events)[i].name)
  {
    if events != [] {
      AskedNamesAreFit(events[..|events| - 1]);
      var e := events[|events| - 1];
      if e.OnUsers? && e.users.Ask? {
        ValidIffFit(e.users.name);
      } else if e.OnRooms? && e.rooms.Ask? {
        ValidIffFit(e.rooms.name);
      }
    }
  }

  /** Every account and every room goes by a name that the limits allow. */
  lemma {:induction false} NamesAreFit(config: Config, events: seq<Event>, entry: NameTable.Entry)
    ensures entry in Run(Boot(config), events).users.table ==> FitForAccount(entry.name)
    ensures entry in Run(Boot(config), events).rooms.table ==> FitForRoom(entry.name) || entry.name == Store.LOBBY
  {
    TablesRunAlone(config, events);
    AskedNamesAreFit(events);
    hide Run, FitForAccount, FitForRoom, UserEvents, RoomEvents;
    var lobby := NameTable.Entry(1, Store.LOBBY, "");
    if entry in Run(Boot(config), events).users.table {
      NameTable.EveryRowWasAsked([], config.maxAccounts, false, UserEvents(events), entry);
    }
    if entry in Run(Boot(config), events).rooms.table {
      NameTable.EveryRowWasAsked([lobby], config.maxRooms, true, RoomEvents(events), entry);
    }
  }
}
