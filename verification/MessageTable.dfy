/**
 The messages table: one sequence for the whole server, appended to by `Post` and read a page at a
 time.

 A table is its rows in primary-key order. The statements are written as the scans they are, and
 proved to read windows of a room's log.
 */
module MessageTable {
  import opened Wire
  import opened Logs
  import opened Columns

  /** A row as it is stored: every number a signed column. */
  datatype Row = Row(pos: int, room: int, username: string, body: string, postedAt: int)

  /** What a post is told about where its message landed. */
  datatype Posted = Posted(pos: nat, postedAt: nat)

  /** The table as the primary key keeps it, every column in range. */
  ghost predicate Keyed(rows: seq<Row>) {
    && (forall i :: 0 <= i < |rows| ==> 0 < rows[i].pos && Fits(rows[i].pos) && Fits(rows[i].postedAt))
    && forall i, j :: 0 <= i < j < |rows| ==> rows[i].pos < rows[j].pos
  }

  /** The largest key, or 0 in an empty table. */
  function TopKey(rows: seq<Row>): int {
    if rows == [] then 0 else rows[|rows| - 1].pos
  }

  /** What the rows of a query have in common. */
  datatype Query = Query(room: int, above: Option<int>, below: Option<int>) {
    predicate Matches(row: Row) {
      && row.room == room
      && (above.Some? ==> row.pos > above.value)
      && (below.Some? ==> row.pos < below.value)
    }
  }

  function Select(rows: seq<Row>, query: Query): seq<Row> {
    if rows == [] then []
    else
      var rest := Select(rows[..|rows| - 1], query);
      if query.Matches(rows[|rows| - 1]) then rest + [rows[|rows| - 1]] else rest
  }

  function Decode(row: Row): Result<Message, StoreError> {
    match FromColumn(row.pos)
    case Err(e) => Err(e)
    case Ok(pos) =>
      match FromColumn(row.postedAt)
      case Err(e) => Err(e)
      case Ok(at) => Ok(Message(pos, row.username, row.body, at))
  }

  /** Decodes every row, or reports the first that will not decode. */
  function Collect(rows: seq<Row>): Result<seq<Message>, StoreError> {
    if rows == [] then Ok([])
    else
      match Collect(rows[..|rows| - 1])
      case Err(e) => Err(e)
      case Ok(messages) =>
        match Decode(rows[|rows| - 1])
        case Err(e) => Err(e)
        case Ok(message) => Ok(messages + [message])
  }

  /** A room's log: every message posted to it, in sequence. */
  function Log(rows: seq<Row>, room: int): seq<Message> {
    match Collect(Select(rows, Query(room, None, None)))
    case Ok(messages) => messages
    case Err(_) => []
  }

  // ---- Reading ----

  lemma {:induction false} CollectIsPointwise(rows: seq<Row>)
    requires forall i :: 0 <= i < |rows| ==> Decode(rows[i]).Ok?
    ensures Collect(rows).Ok? && |Collect(rows).value| == |rows|
    ensures forall i :: 0 <= i < |rows| ==> Decode(rows[i]) == Ok(Collect(rows).value[i])
  {
    if rows != [] {
      CollectIsPointwise(rows[..|rows| - 1]);
    }
  }

  /** Collecting commutes with taking a run of rows, which is what LIMIT does. */
  lemma CollectOfSlice(rows: seq<Row>, i: nat, j: nat)
    requires forall k :: 0 <= k < |rows| ==> Decode(rows[k]).Ok?
    requires i <= j <= |rows|
    ensures Collect(rows).Ok? && |Collect(rows).value| == |rows|
    ensures Collect(rows[i..j]) == Ok(Collect(rows).value[i..j])
  {
    CollectIsPointwise(rows);
    CollectIsPointwise(rows[i..j]);
    var all, part := Collect(rows).value, Collect(rows[i..j]).value;
    forall k | 0 <= k < j - i ensures part[k] == all[i..j][k] {
      assert rows[i..j][k] == rows[i + k];
    }
    assert part == all[i..j];
  }

  lemma {:induction false} SelectedRowsDecode(rows: seq<Row>, query: Query)
    requires Keyed(rows)
    ensures forall i :: 0 <= i < |Select(rows, query)| ==> Decode(Select(rows, query)[i]).Ok?
  {
    if rows != [] {
      SelectedRowsDecode(rows[..|rows| - 1], query);
    }
  }

  /** In a keyed table every query decodes. */
  lemma ReadingNeverFails(rows: seq<Row>, query: Query)
    requires Keyed(rows)
    ensures Collect(Select(rows, query)).Ok?
  {
    SelectedRowsDecode(rows, query);
    CollectIsPointwise(Select(rows, query));
  }

  lemma SelectGrows(rows: seq<Row>, row: Row, query: Query)
    ensures Select(rows + [row], query)
         == if query.Matches(row) then Select(rows, query) + [row] else Select(rows, query)
  {
    assert (rows + [row])[..|rows|] == rows;
  }

  lemma CollectGrows(rows: seq<Row>, row: Row)
    requires Collect(rows).Ok? && Decode(row).Ok?
    ensures Collect(rows + [row]) == Ok(Collect(rows).value + [Decode(row).value])
  {
    assert (rows + [row])[..|rows|] == rows;
  }

  lemma KeyedFront(rows: seq<Row>, row: Row)
    requires Keyed(rows + [row])
    ensures Keyed(rows) && Decode(row).Ok? && TopKey(rows) < row.pos
  {
    var grown := rows + [row];
    assert grown[|rows|] == row && forall i :: 0 <= i < |rows| ==> grown[i] == rows[i];
  }

  /** What one more row does to a query's messages. */
  lemma SelectPush(rows: seq<Row>, row: Row, query: Query)
    requires Keyed(rows + [row])
    ensures Keyed(rows) && Decode(row).Ok? && Collect(Select(rows, query)).Ok?
    ensures Collect(Select(rows + [row], query))
         == if query.Matches(row) then Ok(Collect(Select(rows, query)).value + [Decode(row).value])
            else Collect(Select(rows, query))
  {
    hide Select, Collect, Keyed;
    KeyedFront(rows, row);
    ReadingNeverFails(rows, query);
    SelectGrows(rows, row, query);
    CollectGrows(Select(rows, query), row);
  }

  /** What one more row does to a room's log. */
  lemma LogPush(rows: seq<Row>, row: Row, room: int)
    requires Keyed(rows + [row])
    ensures Keyed(rows)
    ensures Decode(row).Ok?
    ensures Log(rows + [row], room)
         == if row.room == room then Log(rows, room) + [Decode(row).value] else Log(rows, room)
  {
    hide Select, Collect, Keyed, Decode;
    SelectPush(rows, row, Query(room, None, None));
  }

  lemma EmptyLog(room: int)
    ensures Log([], room) == []
  {
  }

  lemma {:induction false} LogAscends(rows: seq<Row>, room: int)
    requires Keyed(rows)
    ensures Ascending(Log(rows, room))
    ensures Newest(Log(rows, room)) <= TopKey(rows)
  {
    EmptyLog(room);
    hide Log, Keyed, Ascending;
    if rows == [] {
      NothingAscends();
    } else {
      var front, last := rows[..|rows| - 1], rows[|rows| - 1];
      assert rows == front + [last];
      KeyedFront(front, last);
      LogPush(front, last, room);
      LogAscends(front, room);
      if last.room == room {
        AscendingPush(Log(front, room), Decode(last).value);
      }
    }
  }

  lemma NothingAscends()
    ensures Ascending([])
  {
  }

  /** The WHERE clause on `seq` cuts the same window out of the log that it cuts out of the table. */
  lemma {:induction false} QueryReadsWindow(rows: seq<Row>, room: int, c: nat)
    requires Keyed(rows)
    ensures Collect(Select(rows, Query(room, Some(c), None))) == Ok(Above(Log(rows, room), c))
    ensures Collect(Select(rows, Query(room, None, Some(c)))) == Ok(Below(Log(rows, room), c))
    ensures Collect(Select(rows, Query(room, None, None))) == Ok(Log(rows, room))
  {
    ReadingNeverFails(rows, Query(room, None, None));
    if rows == [] {
      EmptyLog(room);
    } else {
      hide Select, Collect, Keyed, Above, Below;
      var front, last := rows[..|rows| - 1], rows[|rows| - 1];
      assert rows == front + [last];
      LogPush(front, last, room);
      SelectPush(front, last, Query(room, Some(c), None));
      SelectPush(front, last, Query(room, None, Some(c)));
      QueryReadsWindow(front, room, c);
      AbovePush(Log(front, room), Decode(last).value, c);
      BelowPush(Log(front, room), Decode(last).value, c);
    }
  }

  // ---- Writing ----

  /**
   The key an insert is given: one past the largest, until that is the largest a column holds. From
   then on SQLite picks any unused key, here `spare`.
   */
  function Allocate(rows: seq<Row>, spare: int): Result<int, StoreError> {
    if TopKey(rows) < MAX_COLUMN then Ok(TopKey(rows) + 1)
    else if 0 < spare <= MAX_COLUMN && forall i :: 0 <= i < |rows| ==> rows[i].pos != spare then Ok(spare)
    else Err(Full)
  }

  /** Stores a row where its key belongs. */
  function Put(rows: seq<Row>, row: Row): seq<Row> {
    if rows == [] || rows[|rows| - 1].pos < row.pos then rows + [row]
    else Put(rows[..|rows| - 1], row) + [rows[|rows| - 1]]
  }

  /** The insert: the key is allocated and the foreign key checked in one statement. */
  function Post(rows: seq<Row>, rooms: set<int>, room: nat, username: string, body: string, now: nat, spare: int)
    : (seq<Row>, Result<Posted, StoreError>)
  {
    match ToColumn(room)
    case Err(e) => (rows, Err(e))
    case Ok(id) =>
      match ToColumn(now)
      case Err(e) => (rows, Err(e))
      case Ok(at) =>
        if id !in rooms then (rows, Err(NotFound(room)))
        else
          match Allocate(rows, spare)
          case Err(e) => (rows, Err(e))
          case Ok(key) =>
            match FromColumn(key)
            case Err(e) => (rows, Err(e))
            case Ok(pos) => (Put(rows, Row(key, id, username, body, at)), Ok(Posted(pos, at)))
  }

  lemma {:induction false} PutKeepsKeyed(rows: seq<Row>, row: Row)
    requires Keyed(rows)
    requires 0 < row.pos && Fits(row.pos) && Fits(row.postedAt)
    requires forall i :: 0 <= i < |rows| ==> rows[i].pos != row.pos
    ensures Keyed(Put(rows, row))
    ensures TopKey(Put(rows, row)) == if TopKey(rows) < row.pos then row.pos else TopKey(rows)
  {
    if rows != [] && rows[|rows| - 1].pos > row.pos {
      var front, last := rows[..|rows| - 1], rows[|rows| - 1];
      PutKeepsKeyed(front, row);
      KeyedPush(Put(front, row), last);
    } else {
      KeyedPush(rows, row);
    }
  }

  /** A row past the largest key goes on the end. */
  lemma KeyedPush(rows: seq<Row>, row: Row)
    requires Keyed(rows) && TopKey(rows) < row.pos && 0 < row.pos && Fits(row.pos) && Fits(row.postedAt)
    ensures Keyed(rows + [row])
  {
    forall i | 0 <= i < |rows| ensures rows[i].pos < row.pos {
      assert rows[i].pos <= TopKey(rows);
    }
  }

  /** Every post keeps the table keyed, whatever spare key SQLite falls back on. */
  lemma PostKeepsKeyed(rows: seq<Row>, rooms: set<int>, room: nat, username: string, body: string, now: nat,
                       spare: int)
    requires Keyed(rows)
    ensures Keyed(Post(rows, rooms, room, username, body, now, spare).0)
  {
    var (after, posted) := Post(rows, rooms, room, username, body, now, spare);
    if posted.Ok? {
      var key := Allocate(rows, spare).value;
      forall i | 0 <= i < |rows| ensures rows[i].pos != key {
        assert rows[i].pos <= TopKey(rows);
      }
      PutKeepsKeyed(rows, Row(key, room, username, body, now));
    }
  }

  /**
   A post lands after everything already in the table exactly when the sequence is not exhausted.
   While it is not, the table grows at its end and numbering is consecutive from 1.
   */
  lemma PostLandsLast(rows: seq<Row>, rooms: set<int>, room: nat, username: string, body: string, now: nat,
                      spare: int)
    requires Keyed(rows)
    ensures var (after, posted) := Post(rows, rooms, room, username, body, now, spare);
            && (posted.Ok? ==>
                 ((forall i :: 0 <= i < |rows| ==> rows[i].pos < posted.value.pos) <==> TopKey(rows) < MAX_COLUMN))
            && (TopKey(rows) < MAX_COLUMN ==>
                 (posted.Ok? <==> Fits(room) && Fits(now) && room in rooms))
            && (TopKey(rows) < MAX_COLUMN && posted.Ok? ==>
                 && posted.value == Posted(TopKey(rows) + 1, now)
                 && after == rows + [Row(TopKey(rows) + 1, room, username, body, now)])
            && (!posted.Ok? ==> after == rows)
  {
    var (after, posted) := Post(rows, rooms, room, username, body, now, spare);
    if TopKey(rows) < MAX_COLUMN {
      forall i | 0 <= i < |rows| ensures rows[i].pos < TopKey(rows) + 1 {
        assert rows[i].pos <= TopKey(rows);
      }
    } else if posted.Ok? {
      assert rows[|rows| - 1].pos >= posted.value.pos;
    }
  }

  /** A message that was posted is read back as it was posted, last in its room and in no other. */
  lemma PostedIsRead(rows: seq<Row>, rooms: set<int>, room: nat, username: string, body: string, now: nat, spare: int,
                     other: int)
    requires Keyed(rows) && TopKey(rows) < MAX_COLUMN
    requires Post(rows, rooms, room, username, body, now, spare).1.Ok?
    ensures var (after, posted) := Post(rows, rooms, room, username, body, now, spare);
            Log(after, other) == if other == room
                                 then Log(rows, other) + [Message(posted.value.pos, username, body, now)]
                                 else Log(rows, other)
  {
    hide Post, Log, Keyed;
    var row := Row(TopKey(rows) + 1, room, username, body, now);
    PostLandsLast(rows, rooms, room, username, body, now, spare);
    PostKeepsKeyed(rows, rooms, room, username, body, now, spare);
    hide TopKey;
    LogPush(rows, row, other);
  }

  lemma PutBefore(row: Row, last: Row)
    requires row.pos < last.pos
    ensures Put([last], row) == [row, last]
  {
    assert [last][..0] == [];
    assert Put([], row) == [row];
  }

  lemma NewestOfTwo(first: Row, last: Row)
    requires Keyed([first, last])
    ensures Newest(Log([first, last], last.room)) == last.pos
  {
    assert [first, last] == [first] + [last];
    assert [first, last][1] == last;
    LogPush([first], last, last.room);
    hide Log, Keyed;
  }

  /** Past the end of the sequence a new message can land below one already read. */
  lemma ExhaustedSequenceRegresses()
    ensures var rows := [Row(MAX_COLUMN, 1, "alice", "last", 0)];
            && Keyed(rows)
            && Post(rows, {1}, 1, "bob", "late", 0, 7).1 == Ok(Posted(7, 0))
            && Newest(Log(Post(rows, {1}, 1, "bob", "late", 0, 7).0, 1)) == MAX_COLUMN
  {
    var last, late := Row(MAX_COLUMN, 1, "alice", "last", 0), Row(7, 1, "bob", "late", 0);
    assert Keyed([last]) && Keyed([late, last]);
    hide Put, Keyed, Log, Newest;
    PutBefore(late, last);
    NewestOfTwo(late, last);
    assert Allocate([last], 7) == Ok(7);
  }
}
