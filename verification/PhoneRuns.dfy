/**
 Either phone app over whole runs, with the server it reads.

 Any number of reads may be out at once, each served at one time and landing at another: after the
 reader has moved rooms, signed out or signed in again, out of order, or more than once.
 */
module PhoneRuns {
  import opened Wire
  import opened Logs
  import opened Columns
  import opened MessageTable
  import NameTable
  import Store
  import Server
  import Api
  import opened Merge
  import opened Unread
  import Chat
  import opened App
  import Terminal
  import TerminalRuns
  import opened Phone

  datatype Platform = Android | Ios

  /** The page size both apps ask for. */
  const PAGE: nat := 50

  /** A page the server has read for a room. */
  datatype Reply = Reply(room: nat, page: seq<Message>)

  /** `shown` is what the list on the screen was read from and `logins` counts sessions. Neither is read. */
  datatype World = World(
    platform: Platform,
    maxRooms: nat,
    roomTable: seq<NameTable.Entry>,
    rows: seq<Row>,
    view: View,
    replies: seq<Reply>,
    lists: seq<Snapshot>,
    shown: Snapshot,
    logins: nat)

  datatype Event =
    | PostTo(room: nat, username: string, body: string, now: nat)
    | AddRoom(name: string)
    | ServePage(room: nat, after: Option<nat>)
    | ServeList
    | LogInLands(i: nat)
    | ListLands(i: nat)
    | BatchLands(i: nat)
    | RoomPicked(room: nat)
    | SessionEnds

  function LogIn(p: Platform, v: View, rooms: seq<Room>): View {
    if p.Android? then AndroidLogIn(v, rooms) else IosLogIn(v, rooms)
  }

  function OpenRoom(p: Platform, v: View, room: nat): View {
    if p.Android? then AndroidOpen(v, room) else IosOpen(v, room)
  }

  function TakeList(p: Platform, v: View, rooms: seq<Room>): View {
    if p.Android? then AndroidList(v, rooms) else IosList(v, rooms)
  }

  function TakeBatch(p: Platform, v: View, room: nat, batch: seq<Message>): View {
    if p.Android? then AndroidBatch(v, room, batch) else IosBatch(v, room, batch)
  }

  function Step(w: World, e: Event): World {
    match e
    case PostTo(room, username, body, now) =>
      if TopKey(w.rows) < MAX_COLUMN then w.(rows := Post(w.rows, {room}, room, username, body, now, 0).0) else w
    case AddRoom(name) => w.(roomTable := NameTable.TryInsert(w.roomTable, w.maxRooms, name, "").0)
    case ServePage(room, after) =>
      w.(replies := w.replies + [Reply(room, Api.PageOf(Log(w.rows, room), Api.Limit(Some(PAGE)), after, None))])
    case ServeList => w.(lists := w.lists + [Snapshot(w.roomTable, w.rows)])
    case LogInLands(i) =>
      if i < |w.lists|
      then w.(view := LogIn(w.platform, w.view, w.lists[i].Rooms()), shown := w.lists[i], logins := w.logins + 1)
      else w
    case ListLands(i) =>
      if i < |w.lists| then w.(view := TakeList(w.platform, w.view, w.lists[i].Rooms()), shown := w.lists[i]) else w
    case BatchLands(i) =>
      if i < |w.replies| then w.(view := TakeBatch(w.platform, w.view, w.replies[i].room, w.replies[i].page)) else w
    case RoomPicked(room) => w.(view := OpenRoom(w.platform, w.view, room))
    case SessionEnds => w.(view := Phone.SignedOut(w.view))
  }

  function Run(w: World, events: seq<Event>): World {
    if events == [] then w else Step(Run(w, events[..|events| - 1]), events[|events| - 1])
  }

  function Boot(platform: Platform, maxRooms: nat, roomTable: seq<NameTable.Entry>, rows: seq<Row>): World {
    World(platform, maxRooms, roomTable, rows, NewView(), [], [], Snapshot(roomTable, rows), 0)
  }

  // ---- What every reachable state keeps ----

  /** The held messages are in order, each once, and every one is the open room's. */
  ghost predicate Held(v: View, rows: seq<Row>) {
    && StrictlySorted(v.messages)
    && (v.open.None? ==> v.messages == [])
    && (v.open.Some? ==> From(Log(rows, v.open.value), v.messages))
  }

  /** A reply is a page of its room, in order. */
  ghost predicate IsPage(rows: seq<Row>, reply: Reply) {
    StrictlySorted(reply.page) && From(Log(rows, reply.room), reply.page)
  }

  ghost predicate SeenBound(seen: map<nat, nat>, rows: seq<Row>) {
    forall room: nat :: Seen(seen, room) <= Newest(Log(rows, room))
  }

  /** The badges are what they are defined to be. */
  ghost predicate Exact(v: View) {
    v.unread == UnreadOf(v.rooms, v.open, v.seen)
  }

  ghost predicate Keeps(w: World) {
    && Server.Servable(w.roomTable, w.rows)
    && (forall i :: 0 <= i < |w.replies| ==> IsPage(w.rows, w.replies[i]))
    && (forall i :: 0 <= i < |w.lists| ==> Terminal.WasRead(w.roomTable, w.rows, w.lists[i]))
    && Held(w.view, w.rows)
    && SeenBound(w.view.seen, w.rows)
    && (w.view.inChat ==> Terminal.WasRead(w.roomTable, w.rows, w.shown) && w.view.rooms == w.shown.Rooms())
    && (w.platform.Android? && w.view.inChat ==> Exact(w.view))
  }

  lemma LogIsSorted(rows: seq<Row>, room: int)
    requires Keyed(rows)
    ensures StrictlySorted(Log(rows, room)) && Ascending(Log(rows, room))
  {
    LogAscends(rows, room);
  }

  lemma FromGrows(older: seq<Row>, rows: seq<Row>, room: int, s: seq<Message>)
    requires older <= rows && Keyed(rows) && From(Log(older, room), s)
    ensures From(Log(rows, room), s)
  {
    TerminalRuns.OlderReadsLess(older, rows, room);
    assert Log(older, room) == Log(rows, room)[..|Log(older, room)|];
  }

  lemma SeenGrows(seen: map<nat, nat>, older: seq<Row>, rows: seq<Row>)
    requires SeenBound(seen, older) && older <= rows && Keyed(rows)
    ensures SeenBound(seen, rows)
  {
    forall room: nat ensures Seen(seen, room) <= Newest(Log(rows, room)) {
      TerminalRuns.OlderReadsLess(older, rows, room);
    }
  }

  lemma PostKeeps(w: World, room: nat, username: string, body: string, now: nat)
    requires Keeps(w) && TopKey(w.rows) < MAX_COLUMN
    ensures Keeps(Step(w, PostTo(room, username, body, now)))
  {
    TerminalRuns.PostGrowsRows(w.rows, room, username, body, now);
    hide Post;
    MoreRowsKeep(w, Post(w.rows, {room}, room, username, body, now, 0).0);
    hide Keeps;
  }

  lemma MoreRowsKeep(w: World, rows: seq<Row>)
    requires Keeps(w) && w.rows <= rows && Keyed(rows)
    ensures Keeps(w.(rows := rows))
  {
    hide IsPage, Terminal.WasRead, Held, SeenBound, Exact, Snapshot.Rooms, Keyed, NameTable.Distinct;
    PagesKeep(w.rows, rows, w.replies);
    ReadsKeep(w.roomTable, w.rows, rows, w.lists);
    ReadsKeep(w.roomTable, w.rows, rows, [w.shown]);
    assert [w.shown][0] == w.shown;
    HeldKeeps(w.view, w.rows, rows);
    SeenGrows(w.view.seen, w.rows, rows);
  }

  lemma HeldKeeps(v: View, older: seq<Row>, rows: seq<Row>)
    requires Held(v, older) && older <= rows && Keyed(rows)
    ensures Held(v, rows)
  {
    hide Log, From, StrictlySorted, Keyed;
    if v.open.Some? {
      FromGrows(older, rows, v.open.value, v.messages);
    }
  }

  lemma PagesKeep(older: seq<Row>, rows: seq<Row>, replies: seq<Reply>)
    requires older <= rows && Keyed(rows)
    requires forall i :: 0 <= i < |replies| ==> IsPage(older, replies[i])
    ensures forall i :: 0 <= i < |replies| ==> IsPage(rows, replies[i])
  {
    hide Log, Keyed, StrictlySorted, From;
    forall i | 0 <= i < |replies| ensures IsPage(rows, replies[i]) {
      assert IsPage(older, replies[i]);
      FromGrows(older, rows, replies[i].room, replies[i].page);
    }
  }

  lemma ReadsKeep(roomTable: seq<NameTable.Entry>, older: seq<Row>, rows: seq<Row>, lists: seq<Snapshot>)
    requires older <= rows
    ensures forall i :: 0 <= i < |lists| && Terminal.WasRead(roomTable, older, lists[i]) ==>
              Terminal.WasRead(roomTable, rows, lists[i])
  {
  }

  lemma RunIsOfLog(log: seq<Message>, a: nat, b: nat)
    requires Ascending(log) && a <= b <= |log|
    ensures StrictlySorted(log[a..b]) && From(log, log[a..b])
  {
  }

  /** A page of a log is in order and of that log. */
  lemma PageIsOfLog(log: seq<Message>, limit: nat, after: Option<nat>)
    requires Ascending(log)
    ensures var page := Api.PageOf(log, limit, after, None); StrictlySorted(page) && From(log, page)
  {
    match after
    case None =>
      var page := LastN(log, limit);
      RunIsOfLog(log, |log| - |page|, |log|);
      hide Ascending, StrictlySorted, From;
      assert page == log[|log| - |page|..|log|];
    case Some(c) =>
      AboveIsSlice(log, c);
      var page, r := FirstN(Above(log, c), limit), Rank(log, c);
      RunIsOfLog(log, r, r + |page|);
      hide Ascending, StrictlySorted, From, Above, Rank;
      assert page == log[r..r + |page|];
  }

  lemma ServeKeeps(w: World, room: nat, after: Option<nat>)
    requires Keeps(w)
    ensures Keeps(Step(w, ServePage(room, after)))
  {
    LogIsSorted(w.rows, room);
    PageIsOfLog(Log(w.rows, room), Api.Limit(Some(PAGE)), after);
    var t := Step(w, ServePage(room, after));
    forall i | 0 <= i < |t.replies| ensures IsPage(t.rows, t.replies[i]) {
      if i < |w.replies| {
        assert IsPage(w.rows, w.replies[i]);
      }
    }
  }

  /** What a batch leaves of its own room's messages is that room's log, restricted to more of it. */
  lemma BatchHolds(w: World, reply: Reply)
    requires Keyed(w.rows) && Held(w.view, w.rows) && IsPage(w.rows, reply)
    ensures var t := TakeBatch(w.platform, w.view, reply.room, reply.page);
            && Held(t, w.rows)
            && t.open == w.view.open && t.rooms == w.view.rooms
            && (w.view.open == Some(reply.room) ==>
                  t.messages == Pick(Log(w.rows, reply.room), Seqs(w.view.messages) + Seqs(reply.page)))
            && (w.view.open != Some(reply.room) ==> t == w.view)
  {
    if w.view.open == Some(reply.room) {
      var log := Log(w.rows, reply.room);
      LogIsSorted(w.rows, reply.room);
      MergePicks(log, w.view.messages, reply.page);
      FormsAgreeIff(w.view.messages, reply.page);
      PickPicks(log, Seqs(w.view.messages) + Seqs(reply.page));
      if w.platform.Ios? && reply.page == [] {
        MergingNothing(w.view.messages);
      }
    }
  }

  lemma MergingNothing(held: seq<Message>)
    requires StrictlySorted(held)
    ensures MergeDistinct(held, []) == held
  {
    HeldIsNotReplaced(held, []);
    SortedIsItsSet(MergeDistinct(held, []), held);
  }

  lemma {:induction false} MaxSeqIsListed(log: seq<Message>, batch: seq<Message>)
    requires Ascending(log) && From(log, batch)
    ensures MaxSeq(batch) <= Newest(log)
    ensures forall m :: m in batch ==> m.pos <= MaxSeq(batch)
  {
    if batch != [] {
      var front, last := batch[..|batch| - 1], batch[|batch| - 1];
      assert batch == front + [last];
      assert last in log;
      MaxSeqIsListed(log, front);
    }
  }

  lemma AdvancingKeepsBound(seen: map<nat, nat>, rows: seq<Row>, room: nat, pos: nat)
    requires SeenBound(seen, rows) && pos <= Newest(Log(rows, room))
    ensures SeenBound(Advanced(seen, room, pos), rows)
  {
    hide Log;
    forall other: nat ensures Seen(Advanced(seen, room, pos), other) <= Newest(Log(rows, other)) {
      assert Seen(seen, other) <= Newest(Log(rows, other));
    }
  }

  lemma BatchKeepsSeen(w: World, reply: Reply)
    requires Keyed(w.rows) && IsPage(w.rows, reply) && SeenBound(w.view.seen, w.rows)
    ensures SeenBound(TakeBatch(w.platform, w.view, reply.room, reply.page).seen, w.rows)
  {
    LogIsSorted(w.rows, reply.room);
    MaxSeqIsListed(Log(w.rows, reply.room), reply.page);
    AdvancingKeepsBound(w.view.seen, w.rows, reply.room, MaxSeq(reply.page));
    hide SeenBound, Advanced, UnreadOf, MergeDistinct, MergeUnknown, MaxSeq, Log, Ascending, IsPage;
  }

  lemma BatchKeeps(w: World, i: nat)
    requires Keeps(w)
    ensures Keeps(Step(w, BatchLands(i)))
  {
    if i < |w.replies| {
      BatchHolds(w, w.replies[i]);
      BatchKeepsSeen(w, w.replies[i]);
    }
  }

  lemma SeedBound(seen: map<nat, nat>, listed: Snapshot, roomTable: seq<NameTable.Entry>, rows: seq<Row>)
    requires Keyed(rows) && Terminal.WasRead(roomTable, rows, listed) && seen == Chat.ReadFrom(listed.Rooms())
    ensures SeenBound(seen, rows)
  {
    assert rows == listed.rows + rows[|listed.rows|..];
    Server.LogIsAppended(listed.rows, rows[|listed.rows|..], 0);
    TerminalRuns.ReadFromListing(listed.rooms, listed.rows, |listed.rooms|);
    assert listed.Rooms()[..|listed.rooms|] == listed.Rooms();
    forall room: nat ensures Seen(seen, room) <= Newest(Log(rows, room)) {
      TerminalRuns.OlderReadsLess(listed.rows, rows, room);
    }
  }

  lemma LogInKeeps(w: World, i: nat)
    requires Keeps(w)
    ensures Keeps(Step(w, LogInLands(i)))
  {
    if i < |w.lists| {
      SeedBound(Chat.ReadFrom(w.lists[i].Rooms()), w.lists[i], w.roomTable, w.rows);
    }
  }

  lemma AddRoomKeeps(w: World, name: string)
    requires Keeps(w)
    ensures Keeps(Step(w, AddRoom(name)))
  {
    NameTable.InsertKeepsDistinct(w.roomTable, w.maxRooms, name, "");
  }

  lemma StepKeeps(w: World, e: Event)
    requires Keeps(w)
    ensures Keeps(Step(w, e)) && Step(w, e).platform == w.platform
  {
    match e
    case PostTo(room, username, body, now) =>
      if TopKey(w.rows) < MAX_COLUMN {
        PostKeeps(w, room, username, body, now);
      }
    case AddRoom(name) => AddRoomKeeps(w, name);
    case ServePage(room, after) => ServeKeeps(w, room, after);
    case LogInLands(i) => LogInKeeps(w, i);
    case BatchLands(i) => BatchKeeps(w, i);
    case _ => QuietStepKeeps(w, e);
  }

  lemma QuietStepKeeps(w: World, e: Event)
    requires Keeps(w) && (e.ServeList? || e.ListLands? || e.RoomPicked? || e.SessionEnds?)
    ensures Keeps(Step(w, e))
  {
    hide IsPage, UnreadOf;
  }

  lemma {:induction false} RunKeeps(w: World, events: seq<Event>)
    requires Keeps(w)
    ensures Keeps(Run(w, events)) && Run(w, events).platform == w.platform
  {
    hide Keeps;
    if events != [] {
      RunKeeps(w, events[..|events| - 1]);
      StepKeeps(Run(w, events[..|events| - 1]), events[|events| - 1]);
    }
  }

  // ---- What a reader can rely on ----

  /**
   On either app, however rooms are switched while reads are out and whatever order they land in: the
   held messages are sorted by seq with none twice, and every one was posted to the open room.
   */
  lemma {:induction false} HeldIsTheOpenRooms(platform: Platform, maxRooms: nat, roomTable: seq<NameTable.Entry>,
                                              rows: seq<Row>, events: seq<Event>)
    requires Server.Servable(roomTable, rows)
    ensures var w := Run(Boot(platform, maxRooms, roomTable, rows), events);
            && Keeps(w)
            && StrictlySorted(w.view.messages)
            && (w.view.open.None? ==> w.view.messages == [])
            && (w.view.open.Some? ==>
                  w.view.messages == Pick(Log(w.rows, w.view.open.value), Seqs(w.view.messages)))
  {
    var w := Run(Boot(platform, maxRooms, roomTable, rows), events);
    BootKeeps(platform, maxRooms, roomTable, rows);
    RunKeeps(Boot(platform, maxRooms, roomTable, rows), events);
    if w.view.open.Some? {
      HeldIsPicked(w.rows, w.view.open.value, w.view.messages);
    }
  }

  lemma BootKeeps(platform: Platform, maxRooms: nat, roomTable: seq<NameTable.Entry>, rows: seq<Row>)
    requires Server.Servable(roomTable, rows)
    ensures Keeps(Boot(platform, maxRooms, roomTable, rows))
  {
  }

  lemma HeldIsPicked(rows: seq<Row>, room: nat, held: seq<Message>)
    requires Keyed(rows) && StrictlySorted(held) && From(Log(rows, room), held)
    ensures held == Pick(Log(rows, room), Seqs(held))
  {
    var log := Log(rows, room);
    LogIsSorted(rows, room);
    PickPicks(log, Seqs(held));
    forall m ensures m in held <==> m in Pick(log, Seqs(held)) {
      if m in log && m.pos in Seqs(held) {
        var x :| x in held && x.pos == m.pos;
        SeqNamesMessage(log, x, m);
      }
    }
    SortedIsItsSet(held, Pick(log, Seqs(held)));
  }

  /**
   On Android, whenever the chat screen shows, a listed room is badged exactly when it is not the open
   one and its log, as it was listed, holds a message past what was seen.
   */
  lemma AndroidBadgesAreExact(maxRooms: nat, roomTable: seq<NameTable.Entry>, rows: seq<Row>, events: seq<Event>,
                              k: nat)
    requires Server.Servable(roomTable, rows)
    ensures var w := Run(Boot(Android, maxRooms, roomTable, rows), events);
            w.view.inChat ==>
              && w.view.unread == UnreadOf(w.view.rooms, w.view.open, w.view.seen)
              && (k < |w.view.rooms| ==>
                    var room := w.view.rooms[k];
                    var log := Log(w.shown.rows, room.id);
                    room.id in w.view.unread <==>
                      w.view.open != Some(room.id)
                      && exists i :: 0 <= i < |log| && log[i].pos > Seen(w.view.seen, room.id))
  {
    var w := Run(Boot(Android, maxRooms, roomTable, rows), events);
    BootKeeps(Android, maxRooms, roomTable, rows);
    RunKeeps(Boot(Android, maxRooms, roomTable, rows), events);
    if w.view.inChat && k < |w.view.rooms| {
      ListedRoom(w, k);
    }
  }

  lemma ListedRoom(w: World, k: nat)
    requires Keeps(w) && w.view.inChat && Exact(w.view) && k < |w.view.rooms|
    ensures var room := w.view.rooms[k];
            var log := Log(w.shown.rows, room.id);
            room.id in w.view.unread <==>
              w.view.open != Some(room.id) && exists i :: 0 <= i < |log| && log[i].pos > Seen(w.view.seen, room.id)
  {
    var room := w.view.rooms[k];
    var log := Log(w.shown.rows, room.id);
    assert room == Store.AsRoom(w.shown.rooms[k], w.shown.rows);
    Server.LaterReadsMore(w.shown.rows, w.rows, room.id);
    LogAscends(w.shown.rows, room.id);
    NewestIsPast(log, Seen(w.view.seen, room.id));
    ListedOnce(w.roomTable, w.shown);
    hide Keeps, Log, Ascending;
    BadgeOfOne(w.view.rooms, w.view.open, w.view.seen, k);
  }

  /** Where no room is listed twice, a room's badge is decided by its own entry. */
  lemma BadgeOfOne(rooms: seq<Room>, open: Option<nat>, seen: map<nat, nat>, k: nat)
    requires k < |rooms| && forall i, j :: 0 <= i < j < |rooms| ==> rooms[i].id != rooms[j].id
    ensures rooms[k].id in UnreadOf(rooms, open, seen)
            <==> open != Some(rooms[k].id) && rooms[k].latestSeq > Seen(seen, rooms[k].id)
  {
    forall other | other in rooms && other.id == rooms[k].id ensures other == rooms[k] {
    }
  }

  /** No room is listed twice. */
  lemma ListedOnce(roomTable: seq<NameTable.Entry>, s: Snapshot)
    requires NameTable.Distinct(roomTable) && s.rooms <= roomTable
    ensures forall i, j :: 0 <= i < j < |s.Rooms()| ==> s.Rooms()[i].id != s.Rooms()[j].id
  {
  }

  lemma StepSeesOn(w: World, e: Event, room: nat)
    ensures w.logins <= Step(w, e).logins
    ensures Step(w, e).logins == w.logins ==> Seen(w.view.seen, room) <= Seen(Step(w, e).view.seen, room)
  {
    hide UnreadOf, MergeDistinct, MergeUnknown, Post;
  }

  // ---- What each change does ----

  /** A room that is picked is the open one, with nothing in the pane unless it was open already. */
  lemma PickedIsOpen(p: Platform, v: View, room: nat)
    ensures var t := OpenRoom(p, v, room);
            && t.open == Some(room)
            && (v.open != Some(room) ==> t.messages == [])
            && t.rooms == v.rooms && t.seen == v.seen && t.inChat == v.inChat
  {
  }

  /** A login shows its list, opens its first room with an empty pane, and counts all that is listed as seen. */
  lemma LoginShowsList(p: Platform, v: View, rooms: seq<Room>)
    requires forall i, j :: 0 <= i < j < |rooms| ==> rooms[i].id != rooms[j].id
    ensures var t := LogIn(p, v, rooms);
            && t.inChat && t.rooms == rooms && t.messages == []
            && t.open == (if rooms == [] then None else Some(rooms[0].id))
            && forall i :: 0 <= i < |rooms| ==> Seen(t.seen, rooms[i].id) == rooms[i].latestSeq
  {
    SeedingIsQuiet(rooms, None);
  }

  /** A list is shown and badged, and leaves the open room and what is held of it. */
  lemma ListLeavesRoom(p: Platform, v: View, rooms: seq<Room>)
    ensures var t := TakeList(p, v, rooms);
            && t.rooms == rooms && t.unread == UnreadOf(rooms, v.open, v.seen)
            && t.open == v.open && t.messages == v.messages && t.seen == v.seen && t.inChat == v.inChat
  {
  }

  lemma {:induction false} MaxSeqIsMax(batch: seq<Message>)
    ensures forall m :: m in batch ==> m.pos <= MaxSeq(batch)
    ensures batch != [] && MaxSeq(batch) != START ==> exists m :: m in batch && m.pos == MaxSeq(batch)
  {
    if batch != [] {
      var front, last := batch[..|batch| - 1], batch[|batch| - 1];
      MaxSeqIsMax(front);
      assert MaxSeq(batch) == Max(MaxSeq(front), last.pos);
      hide MaxSeq;
      assert batch == front + [last];
    } else {
      assert MaxSeq(batch) == START;
    }
  }

  /** A batch of the open room is seen to its newest message, and nothing else is. */
  lemma BatchIsSeen(p: Platform, v: View, room: nat, batch: seq<Message>)
    requires v.open == Some(room)
    ensures var t := TakeBatch(p, v, room, batch);
            && Seen(t.seen, room) == Max(Seen(v.seen, room), MaxSeq(batch))
            && (forall other: nat :: other != room ==> Seen(t.seen, other) == Seen(v.seen, other))
            && (forall m :: m in batch ==> m.pos <= Seen(t.seen, room))
            && (batch != [] ==> t.unread == UnreadOf(v.rooms, v.open, t.seen))
  {
    MaxSeqIsMax(batch);
    AdvancingTwiceIsOnce(v.seen, room, MaxSeq(batch));
    hide UnreadOf, MergeDistinct, MergeUnknown, Advanced;
  }

  /** An ended session leaves the sign-in screen, with no messages and no badges. */
  lemma EndedShowsNothing(v: View)
    ensures var t := Phone.SignedOut(v); !t.inChat && t.messages == [] && t.unread == {}
  {
  }

  /** Neither a pick nor a login. */
  predicate KeepsOpen(e: Event) {
    !e.RoomPicked? && !e.LogInLands?
  }

  lemma StepKeepsOpen(w: World, e: Event)
    ensures KeepsOpen(e) ==> Step(w, e).view.open == w.view.open
    ensures Step(w, e).platform == w.platform && w.lists <= Step(w, e).lists
    ensures e.RoomPicked? ==> Step(w, e).view.open == Some(e.room)
    ensures e.LogInLands? && e.i < |w.lists| ==> Step(w, e).view.open == First(w.lists[e.i].Rooms())
  {
    hide UnreadOf, MergeDistinct, MergeUnknown, Post, Snapshot.Rooms;
  }

  /**
   Over any run on either app, the room that is open is the one the reader picked last, whatever lists
   and batches have landed since; after a login it is the first one listed until one is picked.
   */
  lemma {:induction false} OpenIsLastPicked(w: World, events: seq<Event>, k: nat)
    requires k < |events| && forall i :: k < i < |events| ==> KeepsOpen(events[i])
    ensures events[k].RoomPicked? ==> Run(w, events).view.open == Some(events[k].room)
    ensures var before := Run(w, events[..k]);
            events[k].LogInLands? && events[k].i < |before.lists| ==>
              Run(w, events).view.open == First(before.lists[events[k].i].Rooms())
  {
    hide Step, KeepsOpen, First;
    var front := events[..|events| - 1];
    StepKeepsOpen(Run(w, front), events[|events| - 1]);
    if k < |front| {
      assert front[..k] == events[..k] && front[k] == events[k];
      assert forall i :: k < i < |front| ==> front[i] == events[i];
      OpenIsLastPicked(w, front, k);
    } else {
      assert front == events[..k];
    }
  }

  /** What was seen only grows between logins, on either app. */
  lemma {:induction false} SeenNeverGoesBack(w: World, events: seq<Event>, room: nat)
    ensures w.logins <= Run(w, events).logins
    ensures Run(w, events).logins == w.logins ==> Seen(w.view.seen, room) <= Seen(Run(w, events).view.seen, room)
  {
    hide Step, Seen;
    if events != [] {
      SeenNeverGoesBack(w, events[..|events| - 1], room);
      StepSeesOn(Run(w, events[..|events| - 1]), events[|events| - 1], room);
    }
  }

  /** Running an update twice on the same state does what running it once does, on either app. */
  lemma UpdatesRunTwice(p: Platform, v: View, rooms: seq<Room>, room: nat, batch: seq<Message>)
    requires StrictlySorted(v.messages) && StrictlySorted(batch)
    ensures var once := TakeBatch(p, v, room, batch); TakeBatch(p, v.(seen := once.seen), room, batch) == once
    ensures TakeBatch(p, TakeBatch(p, v, room, batch), room, batch) == TakeBatch(p, v, room, batch)
    ensures TakeList(p, TakeList(p, v, rooms), rooms) == TakeList(p, v, rooms)
    ensures OpenRoom(p, OpenRoom(p, v, room), room) == OpenRoom(p, v, room)
  {
    AdvancingTwiceIsOnce(v.seen, room, MaxSeq(batch));
    MergedAgain(v.messages, batch);
    hide UnreadOf, MergeDistinct, MergeUnknown, Advanced, MaxSeq, StrictlySorted;
  }

  /**
   Android's update of the state is retried when the state has changed under it, and by then the
   first try has advanced what was seen. The retry does what it should exactly when the room is still
   open, or there was nothing in the batch to advance to.
   */
  lemma RetryIsOneBatchIff(v: View, changed: View, room: nat, batch: seq<Message>)
    requires changed.seen == v.seen
    ensures var tried := AndroidBatch(v, room, batch);
            AndroidBatch(changed.(seen := tried.seen), room, batch) == AndroidBatch(changed, room, batch)
            <==> || changed.open == Some(room) || v.open != Some(room)
                 || batch == [] || MaxSeq(batch) <= Seen(v.seen, room)
  {
    AdvancingTwiceIsOnce(v.seen, room, MaxSeq(batch));
    hide UnreadOf, MergeDistinct, MaxSeq;
    if changed.open != Some(room) && v.open == Some(room) && batch != [] && MaxSeq(batch) > Seen(v.seen, room) {
      assert Seen(AndroidBatch(v, room, batch).seen, room) != Seen(v.seen, room);
    }
  }

  /** A reader who moves on between the tries keeps a badge for messages that now count as seen. */
  lemma RetryLeavesBadge()
    ensures var rooms, batch := [Room(1, "lobby", 5), Room(2, "ops", 0)], [Message(5, "bob", "hi", 0)];
            var v := View(true, rooms, Some(1), [], {}, map[]);
            var moved := AndroidOpen(v, 2);
            var retried := AndroidBatch(moved.(seen := AndroidBatch(v, 1, batch).seen), 1, batch);
            Exact(moved) && !Exact(retried)
  {
    var rooms, batch := [Room(1, "lobby", 5), Room(2, "ops", 0)], [Message(5, "bob", "hi", 0)];
    assert batch[..0] == [];
    assert MaxSeq([]) == START;
    assert MaxSeq(batch) == 5;
    assert Room(1, "lobby", 5) == rooms[0];
    assert 1 in UnreadOf(rooms, Some(2), map[]);
    assert 1 !in UnreadOf(rooms, Some(2), map[1 := 5]);
  }

  lemma MergedAgain(held: seq<Message>, batch: seq<Message>)
    requires StrictlySorted(held) && StrictlySorted(batch)
    ensures MergeDistinct(MergeDistinct(held, batch), batch) == MergeDistinct(held, batch)
    ensures MergeUnknown(MergeUnknown(held, batch), batch) == MergeUnknown(held, batch)
  {
    var merged := MergeDistinct(held, batch);
    HeldIsNotReplaced(held, batch);
    HeldIsNotReplaced(merged, batch);
    forall m | m in batch ensures m.pos in Seqs(merged) {
      assert m.pos in Seqs(batch);
    }
    SortedIsItsSet(MergeDistinct(merged, batch), merged);
    FormsAgreeIff(held, batch);
    FormsAgreeIff(merged, batch);
  }

  // ---- Where the iOS badges can be stale ----

  /** What works the badges out again: a list, a batch of the open room that holds something, another room. */
  predicate Refreshes(w: World, e: Event) {
    || (e.ListLands? && e.i < |w.lists|)
    || (e.BatchLands? && e.i < |w.replies| && w.replies[e.i].page != [] && w.view.open == Some(w.replies[e.i].room))
    || (e.RoomPicked? && w.view.open != Some(e.room))
  }

  lemma IosStepIsExactIff(w: World, e: Event)
    requires w.platform.Ios? && !e.LogInLands? && !e.SessionEnds?
    ensures Exact(Step(w, e).view) <==> Exact(w.view) || Refreshes(w, e)
    ensures Step(w, e).platform.Ios?
  {
    hide UnreadOf, MergeUnknown, Post;
  }

  /** Something in a run refreshes the badges. */
  ghost predicate Refreshed(w: World, events: seq<Event>) {
    exists k :: 0 <= k < |events| && Refreshes(Run(w, events[..k]), events[k])
  }

  lemma RefreshedPush(w: World, events: seq<Event>)
    requires events != []
    ensures var front := events[..|events| - 1];
            Refreshed(w, events) <==> Refreshed(w, front) || Refreshes(Run(w, front), events[|events| - 1])
  {
    hide Refreshes, Run;
    var front := events[..|events| - 1];
    assert forall k :: 0 <= k < |front| ==> front[..k] == events[..k] && front[k] == events[k];
    if k :| 0 <= k < |events| && Refreshes(Run(w, events[..k]), events[k]) {
      assert k < |front| ==> Refreshes(Run(w, front[..k]), front[k]);
    }
    if k :| 0 <= k < |front| && Refreshes(Run(w, front[..k]), front[k]) {
      assert Refreshes(Run(w, events[..k]), events[k]);
    }
  }

  /** Within one session the iOS badges are exact at the end of a run if they were at its start, or were refreshed. */
  lemma {:induction false} IosSessionIsExactIff(w: World, events: seq<Event>)
    requires w.platform.Ios?
    requires forall k :: 0 <= k < |events| ==> !events[k].LogInLands? && !events[k].SessionEnds?
    ensures Exact(Run(w, events).view) <==> Exact(w.view) || Refreshed(w, events)
    ensures Run(w, events).platform.Ios?
  {
    hide Exact, Step, Refreshes;
    if events != [] {
      hide Refreshed;
      var front := events[..|events| - 1];
      IosSessionIsExactIff(w, front);
      IosStepIsExactIff(Run(w, front), events[|events| - 1]);
      RefreshedPush(w, events);
    }
  }

  /**
   A login seeds what was seen but leaves the badges, so right after it they are exact just when none
   were left from before. A read that lands after the session ended leaves some.
   */
  lemma IosLoginIsExactIff(w: World, i: nat)
    requires Keeps(w) && w.platform.Ios? && i < |w.lists|
    ensures Exact(Step(w, LogInLands(i)).view) <==> w.view.unread == {}
    ensures Step(w, LogInLands(i)).platform.Ios?
  {
    ListedOnce(w.roomTable, w.lists[i]);
    SeedingIsQuiet(w.lists[i].Rooms(), First(w.lists[i].Rooms()));
  }

  /** From a login to the end of its session: exact if no badge was left from before, or once refreshed. */
  lemma {:induction false} IosBadgesAreExactIff(w: World, i: nat, events: seq<Event>)
    requires Keeps(w) && w.platform.Ios? && i < |w.lists|
    requires forall k :: 0 <= k < |events| ==> !events[k].LogInLands? && !events[k].SessionEnds?
    ensures var first := Step(w, LogInLands(i));
            Exact(Run(first, events).view) <==> w.view.unread == {} || Refreshed(first, events)
  {
    IosLoginIsExactIff(w, i);
    hide Keeps, Step, Exact, Refreshed;
    IosSessionIsExactIff(Step(w, LogInLands(i)), events);
  }

  /** Two rooms, before and after one message is posted to the second. */
  function Example(posted: bool): Snapshot {
    Snapshot([NameTable.Entry(1, "lobby", ""), NameTable.Entry(2, "ops", "")],
             if posted then [Row(1, 2, "bob", "hi", 0)] else [])
  }

  lemma OneRowLog(row: Row, room: int)
    requires row.pos > 0 && Fits(row.pos) && Fits(row.postedAt)
    ensures Newest(Log([row], room)) == if row.room == room then row.pos else 0
  {
    hide Log;
    EmptyLog(room);
    assert [] + [row] == [row];
    LogPush([], row, room);
  }

  lemma ExampleLogs()
    ensures Log([], 1) == [] && Log([], 2) == []
    ensures Newest(Log(Example(true).rows, 1)) == 0 && Newest(Log(Example(true).rows, 2)) == 1
  {
    EmptyLog(1);
    EmptyLog(2);
    hide Log;
    OneRowLog(Row(1, 2, "bob", "hi", 0), 1);
    OneRowLog(Row(1, 2, "bob", "hi", 0), 2);
  }

  lemma ExampleListings()
    ensures Example(false).Rooms() == [Room(1, "lobby", 0), Room(2, "ops", 0)]
    ensures Example(true).Rooms() == [Room(1, "lobby", 0), Room(2, "ops", 1)]
  {
    ExampleLogs();
    hide Log;
  }

  lemma ExamplePost()
    ensures Post([], {2}, 2, "bob", "hi", 0, 0).0 == Example(true).rows
  {
    PostLandsLast([], {2}, 2, "bob", "hi", 0, 0);
  }

  /** After a first login, a list that lands once the session has ended leaves a badge for the next login. */
  lemma ExampleBadges(v: View, older: seq<Room>, newer: seq<Room>)
    requires older == [Room(1, "lobby", 0), Room(2, "ops", 0)] && newer == [Room(1, "lobby", 0), Room(2, "ops", 1)]
    ensures var stale := IosList(Phone.SignedOut(IosLogIn(v, older)), newer);
            var again := IosLogIn(stale, newer);
            again.unread == {2} && UnreadOf(again.rooms, again.open, again.seen) == {}
  {
    SeedingIsQuiet(older, None);
    SeedingIsQuiet(newer, Some(1));
    assert older[0] in older && older[1] in older;
    var seen := Chat.ReadFrom(older);
    assert Seen(seen, 1) == 0 && Seen(seen, 2) == 0;
    assert newer == [newer[0]] + [newer[1]];
    UnreadPush([newer[0]], newer[1], Some(1), seen);
    assert UnreadOf([newer[0]], Some(1), seen) == {};
  }

  /** The run that shows it. */
  lemma StaleBadgeSurvivesLogin()
    ensures var first := Step(Step(Boot(Ios, 8, Example(false).rooms, []), ServeList), LogInLands(0));
            var posted := Step(Step(first, PostTo(2, "bob", "hi", 0)), ServeList);
            var ended := Step(Step(posted, SessionEnds), ListLands(1));
            var again := Step(ended, LogInLands(1)).view;
            again.inChat && again.unread == {2} && UnreadOf(again.rooms, again.open, again.seen) == {}
  {
    hide Post, UnreadOf;
    ExampleListings();
    ExamplePost();
    ExampleBadges(NewView(), Example(false).Rooms(), Example(true).Rooms());
    var first := Step(Step(Boot(Ios, 8, Example(false).rooms, []), ServeList), LogInLands(0));
    assert first.lists == [Example(false)];
    var posted := Step(Step(first, PostTo(2, "bob", "hi", 0)), ServeList);
    assert posted.lists == [Example(false), Example(true)];
  }
}
