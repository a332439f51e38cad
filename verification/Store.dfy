/** The SQLite store: three tables, and the statements that read and change them. */
module Store {
  import opened Wire
  import opened Logs
  import opened Columns
  import opened MessageTable
  import opened NameTable

  /** The name of the room every store is opened with. */
  const LOBBY := "lobby"

  const U32_MAX: nat := 0xFFFF_FFFF

  datatype RoomCreation = CreatedRoom(room: Room) | ExistingRoom(room: Room)

  datatype Registration = Registered | UsernameTaken

  /** The ids a foreign key may name. */
  function Ids(rooms: seq<Entry>): set<int> {
    set e | e in rooms :: e.id as int
  }

  /** MAX(seq) over a room's rows, and 0 where there are none. */
  function MaxKey(rows: seq<Row>, room: int): int {
    if rows == [] then 0
    else
      var rest, last := MaxKey(rows[..|rows| - 1], room), rows[|rows| - 1];
      if last.room == room && last.pos > rest then last.pos else rest
  }

  /** The rooms in key order, each with the end of its own log. */
  function Listing(rooms: seq<Entry>, rows: seq<Row>): (l: seq<Room>)
    ensures |l| == |rooms|
  {
    seq(|rooms|, i requires 0 <= i < |rooms| => AsRoom(rooms[i], rows))
  }

  function AsRoom(entry: Entry, rows: seq<Row>): Room {
    Room(entry.id, entry.name, Newest(Log(rows, entry.id)))
  }

  lemma {:induction false} MaxKeyIsNewest(rows: seq<Row>, room: int)
    requires Keyed(rows)
    ensures MaxKey(rows, room) == Newest(Log(rows, room))
  {
    if rows != [] {
      var front, last := rows[..|rows| - 1], rows[|rows| - 1];
      assert rows == front + [last];
      MaxKeyIsNewest(front, room);
      LogPush(front, last, room);
      LogAscends(front, room);
      assert TopKey(front) < last.pos;
    }
  }

  /** The listing keeps the table's order, ids and names, and says how far each room's log goes. */
  lemma ListingIsTable(rooms: seq<Entry>, rows: seq<Row>, i: nat)
    requires i < |rooms| && Keyed(rows)
    ensures var listed, log := Listing(rooms, rows)[i], Log(rows, rooms[i].id);
            && listed.id == rooms[i].id && listed.name == rooms[i].name
            && (log == [] ==> listed.latestSeq == START)
            && (log != [] ==> exists k :: 0 <= k < |log| && log[k].pos == listed.latestSeq)
            && forall k :: 0 <= k < |log| ==> log[k].pos <= listed.latestSeq
  {
    LogAscends(rows, rooms[i].id);
    hide Log, Keyed;
  }

  lemma {:induction false} SelectPrefix(rows: seq<Row>, i: nat, query: Query)
    requires i <= |rows|
    ensures Select(rows[..i], query) <= Select(rows, query)
    ensures i == |rows| ==> Select(rows[..i], query) == Select(rows, query)
  {
    if i < |rows| {
      SelectPrefix(rows[..|rows| - 1], i, query);
      assert rows[..|rows| - 1][..i] == rows[..i];
    } else {
      assert rows[..i] == rows;
    }
  }

  /** Decoding newest first and turning round is decoding oldest first. */
  lemma {:induction false} DecodesBackwards(rows: seq<Row>)
    requires forall i :: 0 <= i < |rows| ==> Decode(rows[i]).Ok?
    ensures Collect(rows).Ok? && Collect(Reversed(rows)).Ok?
    ensures Reversed(Collect(Reversed(rows)).value) == Collect(rows).value
  {
    CollectIsPointwise(rows);
    CollectIsPointwise(Reversed(rows));
    hide Collect, Decode;
    var back := Collect(Reversed(rows)).value;
    forall k | 0 <= k < |rows| ensures Reversed(back)[k] == Collect(rows).value[k] {
      assert Reversed(rows)[|rows| - 1 - k] == rows[k];
    }
  }

  /** And so it is for the last `limit` rows alone. */
  lemma {:induction false} DecodesReversed(rows: seq<Row>, limit: nat)
    requires forall i :: 0 <= i < |rows| ==> Decode(rows[i]).Ok?
    ensures Collect(rows).Ok?
    ensures var back := Collect(Reversed(LastN(rows, limit)));
            back.Ok? && Reversed(back.value) == LastN(Collect(rows).value, limit)
  {
    hide Collect, Decode, Reversed;
    var n := |LastN(rows, limit)|;
    LastIsSlice(rows, limit);
    CollectOfSlice(rows, |rows| - n, |rows|);
    DecodesBackwards(LastN(rows, limit)) by {
      LastAreRows(rows, limit);
    }
    LastIsSlice(Collect(rows).value, limit);
    hide LastN;
  }

  lemma LastIsSlice<T>(s: seq<T>, limit: nat)
    ensures LastN(s, limit) == s[|s| - |LastN(s, limit)|..|s|]
    ensures |LastN(s, limit)| == Min(limit, |s|)
  {
  }

  lemma LastAreRows(rows: seq<Row>, limit: nat)
    requires forall i :: 0 <= i < |rows| ==> Decode(rows[i]).Ok?
    ensures forall i :: 0 <= i < |LastN(rows, limit)| ==> Decode(LastN(rows, limit)[i]).Ok?
  {
    hide Decode;
  }

  /** Reverses a vector where it stands. */
  method ReverseInPlace<T>(v: array<T>)
    modifies v
    ensures v[..] == Reversed(old(v[..]))
  {
    var i, n := 0, v.Length;
    while i < n / 2
      invariant 0 <= i <= n / 2
      invariant forall k :: 0 <= k < i ==> v[k] == old(v[n - 1 - k]) && v[n - 1 - k] == old(v[k])
      invariant forall k :: i <= k < n - i ==> v[k] == old(v[k])
    {
      v[i], v[n - 1 - i] := v[n - 1 - i], v[i];
      i := i + 1;
    }
  }

  class SqliteStore {
    var rooms: seq<Entry>
    var users: seq<Entry>
    var messages: seq<Row>
    const maxRooms: nat
    const maxAccounts: nat

    ghost predicate Valid()
      reads this
    {
      Distinct(rooms) && Distinct(users) && Keyed(messages) && Find(rooms, LOBBY).Some?
    }

    /** Opens over the tables a database already holds, and seeds the lobby past any cap. */
    constructor (rooms: seq<Entry>, users: seq<Entry>, messages: seq<Row>, maxRooms: nat, maxAccounts: nat)
      requires Distinct(rooms) && Distinct(users) && Keyed(messages)
      requires Find(rooms, LOBBY).Some? || |rooms| < U32_MAX
      ensures Valid()
      ensures this.users == users && this.messages == messages
      ensures this.maxRooms == maxRooms && this.maxAccounts == maxAccounts
      ensures this.rooms == if Find(rooms, LOBBY).Some? then rooms
                            else rooms + [Entry(|rooms| + 1, LOBBY, "")]
    {
      this.rooms := TryInsert(rooms, U32_MAX, LOBBY, "").0;
      this.users, this.messages := users, messages;
      this.maxRooms, this.maxAccounts := maxRooms, maxAccounts;
      InsertSettles(rooms, U32_MAX, LOBBY, "");
    }

    /** Opens a store, unless the lobby is missing and there is no room left even for it. */
    static method Open(rooms: seq<Entry>, users: seq<Entry>, messages: seq<Row>, maxRooms: nat, maxAccounts: nat)
      returns (r: Result<SqliteStore, StoreError>)
      requires Distinct(rooms) && Distinct(users) && Keyed(messages)
      ensures r.Err? <==> Find(rooms, LOBBY).None? && |rooms| >= U32_MAX
      ensures r.Err? ==> r == Err(StoreError.CapExceeded)
      ensures r.Ok? ==> fresh(r.value) && r.value.Valid() && rooms <= r.value.rooms
                        && r.value.users == users && r.value.messages == messages
      ensures r.Ok? ==> r.value.rooms == CreateAtOnce(rooms, U32_MAX, LOBBY, "").0
    {
      if Find(rooms, LOBBY).None? && |rooms| >= U32_MAX {
        return Err(StoreError.CapExceeded);
      }
      var store := new SqliteStore(rooms, users, messages, maxRooms, maxAccounts);
      return Ok(store);
    }

    // ---- Rooms ----

    method InsertRoom(name: string) returns (inserted: bool)
      modifies this`rooms
      ensures (rooms, inserted) == TryInsert(old(rooms), maxRooms, name, "")
    {
      inserted := false;
      if |rooms| < maxRooms && Find(rooms, name).None? {
        rooms := rooms + [Entry(NextId(rooms), name, "")];
        inserted := true;
      }
    }

    /** The room holding a name, joined with the newest of its messages. */
    method ReadRoom(name: string) returns (found: Result<Option<Room>, StoreError>)
      requires Valid()
      ensures found == Ok(match Find(rooms, name)
                          case None => None
                          case Some(entry) => Some(AsRoom(entry, messages)))
      ensures found.value.Some? <==> exists e :: e in rooms && SameButForCase(e.name, name)
      ensures found.value.Some? ==> SameButForCase(found.value.value.name, name)
    {
      FindIsByCase(rooms, name);
      match Find(rooms, name)
      case None => return Ok(None);
      case Some(entry) =>
        MaxKeyIsNewest(messages, entry.id);
        match FromColumn(MaxKey(messages, entry.id))
        case Err(e) => return Err(e);
        case Ok(latest) => return Ok(Some(Room(entry.id, entry.name, latest)));
    }

    method CreateRoom(name: string) returns (r: Result<RoomCreation, StoreError>)
      requires Valid()
      modifies this`rooms
      ensures Valid()
      ensures rooms == CreateAtOnce(old(rooms), maxRooms, name, "").0
      ensures r == match CreateAtOnce(old(rooms), maxRooms, name, "").1
                   case Created(entry) => Ok(CreatedRoom(AsRoom(entry, messages)))
                   case Existing(entry) => Ok(ExistingRoom(AsRoom(entry, messages)))
                   case CapExceeded => Err(StoreError.CapExceeded)
      ensures r.Err? <==> Find(old(rooms), name).None? && |old(rooms)| >= maxRooms
    {
      InsertSettles(rooms, maxRooms, name, "");
      if Find(rooms, LOBBY).Some? {
        FindKeeps(rooms, [Entry(NextId(rooms), name, "")], LOBBY);
      }
      var inserted := InsertRoom(name);
      var found := ReadRoom(name);
      match found
      case Err(e) => return Err(e);
      case Ok(None) => return Err(StoreError.CapExceeded);
      case Ok(Some(room)) => return Ok(if inserted then CreatedRoom(room) else ExistingRoom(room));
    }

    /** Every room, or the first that will not convert. */
    method ListRooms() returns (r: Result<seq<Room>, StoreError>)
      requires Valid()
      ensures r == Ok(Listing(rooms, messages))
    {
      var listed: seq<Room> := [];
      for i := 0 to |rooms|
        invariant listed == Listing(rooms, messages)[..i]
      {
        MaxKeyIsNewest(messages, rooms[i].id);
        match FromColumn(MaxKey(messages, rooms[i].id)) {
          case Err(e) => return Err(e);
          case Ok(latest) => listed := listed + [Room(rooms[i].id, rooms[i].name, latest)];
        }
      }
      assert Listing(rooms, messages)[..|rooms|] == Listing(rooms, messages);
      return Ok(listed);
    }

    method RoomExists(room: nat) returns (r: Result<bool, StoreError>)
      ensures r == if Fits(room) then Ok(room as int in Ids(rooms)) else Err(OutOfRange(room))
    {
      match ToColumn(room)
      case Err(e) => return Err(e);
      case Ok(id) => return Ok(id in Ids(rooms));
    }

    // ---- Accounts ----

    method InsertUser(username: string, hash: string) returns (r: Result<Registration, StoreError>)
      requires Valid()
      modifies this`users
      ensures Valid()
      ensures users == CreateAtOnce(old(users), maxAccounts, username, hash).0
      ensures r == match CreateAtOnce(old(users), maxAccounts, username, hash).1
                   case Created(_) => Ok(Registered)
                   case Existing(_) => Ok(UsernameTaken)
                   case CapExceeded => Err(StoreError.CapExceeded)
    {
      InsertSettles(users, maxAccounts, username, hash);
      if |users| < maxAccounts && Find(users, username).None? {
        users := users + [Entry(NextId(users), username, hash)];
        return Ok(Registered);
      }
      return if Find(users, username).Some? then Ok(UsernameTaken) else Err(StoreError.CapExceeded);
    }

    /** Looks an account's hash up by name, in any casing. */
    method PasswordHash(username: string) returns (hash: Option<string>)
      requires Valid()
      ensures hash.Some? <==> exists e :: e in users && SameButForCase(e.name, username)
      ensures forall e :: e in users && SameButForCase(e.name, username) ==> hash == Some(e.hash)
    {
      FindIsByCase(users, username);
      OneRowByCase(users, username);
      match Find(users, username)
      case None => return None;
      case Some(entry) => return Some(entry.hash);
    }

    // ---- Messages ----

    method PostMessage(room: nat, username: string, body: string, now: nat, spare: int)
      returns (r: Result<Posted, StoreError>)
      requires Valid()
      modifies this`messages
      ensures Valid()
      ensures (messages, r) == Post(old(messages), Ids(rooms), room, username, body, now, spare)
    {
      PostKeepsKeyed(messages, Ids(rooms), room, username, body, now, spare);
      match ToColumn(room)
      case Err(e) => return Err(e);
      case Ok(id) =>
        match ToColumn(now)
        case Err(e) => return Err(e);
        case Ok(at) =>
          if id !in Ids(rooms) {
            return Err(NotFound(room));
          }
          match Allocate(messages, spare)
          case Err(e) => return Err(e);
          case Ok(key) =>
            messages := Put(messages, Row(key, id, username, body, at));
            return Ok(Posted(key, at));
    }

    /** WHERE, ORDER BY seq DESC, LIMIT: a scan back from the newest row. */
    method ScanBack(query: Query, limit: nat) returns (picked: seq<Row>)
      ensures picked == Reversed(LastN(Select(messages, query), limit))
    {
      picked := [];
      var i := |messages|;
      assert messages[..i] == messages;
      while i > 0 && |picked| < limit
        invariant 0 <= i <= |messages| && |picked| <= limit
        invariant Select(messages, query) == Select(messages[..i], query) + Reversed(picked)
      {
        i := i - 1;
        assert messages[..i + 1][..i] == messages[..i];
        if query.Matches(messages[i]) {
          assert Reversed(picked + [messages[i]]) == [messages[i]] + Reversed(picked);
          picked := picked + [messages[i]];
        }
      }
      assert LastN(Select(messages, query), limit) == Reversed(picked);
    }

    /** WHERE, ORDER BY seq ASC, LIMIT: a scan up from the oldest row. */
    method ScanUp(query: Query, limit: nat) returns (picked: seq<Row>)
      ensures picked == FirstN(Select(messages, query), limit)
    {
      picked := [];
      var i := 0;
      while i < |messages| && |picked| < limit
        invariant 0 <= i <= |messages| && |picked| <= limit
        invariant picked == Select(messages[..i], query)
      {
        assert messages[..i + 1][..i] == messages[..i];
        if query.Matches(messages[i]) {
          picked := picked + [messages[i]];
        }
        i := i + 1;
      }
      SelectPrefix(messages, i, query);
    }

    /** Scans back for a page of the room's newest rows, and turns it round. */
    method MessagesNewest(room: nat, limit: nat) returns (r: Result<seq<Message>, StoreError>)
      requires Valid()
      ensures r == if Fits(room) then Ok(LastN(Log(messages, room), limit)) else Err(OutOfRange(room))
    {
      match ToColumn(room)
      case Err(e) => return Err(e);
      case Ok(id) =>
        var query := Query(id, None, None);
        var picked := ScanBack(query, limit);
        QueryReadsWindow(messages, id, START);
        r := DecodeReversed(picked, query, limit);
    }

    /** Scans up for a page of the room's rows past `after`. */
    method MessagesAfter(room: nat, after: nat, limit: nat) returns (r: Result<seq<Message>, StoreError>)
      requires Valid()
      ensures r == if !Fits(room) then Err(OutOfRange(room))
                   else if !Fits(after) then Err(OutOfRange(after))
                   else Ok(FirstN(Above(Log(messages, room), after), limit))
    {
      match ToColumn(room)
      case Err(e) => return Err(e);
      case Ok(id) =>
        match ToColumn(after)
        case Err(e) => return Err(e);
        case Ok(c) =>
          var query := Query(id, Some(c), None);
          var picked := ScanUp(query, limit);
          QueryReadsWindow(messages, id, c);
          var all := Select(messages, query);
          SelectedRowsDecode(messages, query);
          CollectOfSlice(all, 0, |picked|);
          assert picked == all[0..|picked|];
          return Collect(picked);
    }

    /** Scans back for a page of the room's rows before `before`, and turns it round. */
    method MessagesBefore(room: nat, before: nat, limit: nat) returns (r: Result<seq<Message>, StoreError>)
      requires Valid()
      ensures r == if !Fits(room) then Err(OutOfRange(room))
                   else if !Fits(before) then Err(OutOfRange(before))
                   else Ok(LastN(Below(Log(messages, room), before), limit))
    {
      match ToColumn(room)
      case Err(e) => return Err(e);
      case Ok(id) =>
        match ToColumn(before)
        case Err(e) => return Err(e);
        case Ok(c) =>
          var query := Query(id, None, Some(c));
          var picked := ScanBack(query, limit);
          QueryReadsWindow(messages, id, c);
          r := DecodeReversed(picked, query, limit);
    }

    /** Decodes rows picked newest first, then turns the vector round. */
    method DecodeReversed(picked: seq<Row>, ghost query: Query, ghost limit: nat)
      returns (r: Result<seq<Message>, StoreError>)
      requires Valid()
      requires picked == Reversed(LastN(Select(messages, query), limit))
      ensures var all := Collect(Select(messages, query)); all.Ok? && r == Ok(LastN(all.value, limit))
    {
      SelectedRowsDecode(messages, query);
      DecodesReversed(Select(messages, query), limit);
      match Collect(picked)
      case Err(e) => return Err(e);
      case Ok(decoded) =>
        var v := new Message[|decoded|](i requires 0 <= i < |decoded| => decoded[i]);
        assert v[..] == decoded;
        ReverseInPlace(v);
        return Ok(v[..]);
    }
  }
}
