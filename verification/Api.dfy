/** The two message endpoints: reading a page, and posting. */
module Api {
  import opened Wire
  import opened Logs
  import opened Columns
  import opened MessageTable
  import opened Store

  /** The limit of a request that names none, and the largest limit served. */
  const DEFAULT_LIMIT: nat := 50
  const MAX_LIMIT: nat := 200

  datatype ApiError = RoomNotFound | BothCursors | BodyTooLarge | BodyEmpty | Internal(error: StoreError)

  /** The limit a request is served with: the one it names, brought between 1 and MAX_LIMIT. */
  function Limit(asked: Option<nat>): nat {
    match asked
    case None => DEFAULT_LIMIT
    case Some(n) => if n < 1 then 1 else if n > MAX_LIMIT then MAX_LIMIT else n
  }

  /** A limit that is allowed is served as it is, and any other by the nearest that is. */
  lemma LimitIsNearest(asked: nat, allowed: nat)
    requires 1 <= allowed <= MAX_LIMIT
    ensures 1 <= Limit(Some(asked)) <= MAX_LIMIT && 1 <= Limit(None) <= MAX_LIMIT
    ensures 1 <= asked <= MAX_LIMIT ==> Limit(Some(asked)) == asked
    ensures asked <= Limit(Some(asked)) <= allowed || allowed <= Limit(Some(asked)) <= asked
            || 1 <= asked <= MAX_LIMIT
  {
  }

  /** How many bytes a character takes in UTF-8. */
  function Utf8Width(c: char): nat {
    if c as int < 0x80 then 1 else if c as int < 0x800 then 2 else if c as int < 0x1_0000 then 3 else 4
  }

  function ByteLength(s: string): nat {
    if s == "" then 0 else Utf8Width(s[0]) + ByteLength(s[1..])
  }

  /** A character's bytes, as section 3 of RFC 3629 lays them out. */
  function Utf8(c: char): seq<int> {
    var u := c as int;
    var six := u / 0x40;
    var twelve := six / 0x40;
    if u < 0x80 then [u]
    else if u < 0x800 then [0xC0 + six, 0x80 + u % 0x40]
    else if u < 0x1_0000 then [0xE0 + twelve, 0x80 + six % 0x40, 0x80 + u % 0x40]
    else [0xF0 + twelve / 0x40, 0x80 + twelve % 0x40, 0x80 + six % 0x40, 0x80 + u % 0x40]
  }

  function Utf8All(s: string): seq<int> {
    if s == "" then [] else Utf8(s[0]) + Utf8All(s[1..])
  }

  /** How many bytes a lead byte says its character has. */
  function LeadWidth(lead: int): nat {
    if lead < 0x80 then 1 else if lead < 0xE0 then 2 else if lead < 0xF0 then 3 else 4
  }

  /** The value that a lead byte and the bytes after it spell, six bits to a byte. */
  function Spelled(b: seq<int>): int
    requires 1 <= |b| <= 4
  {
    if |b| == 1 then b[0]
    else if |b| == 2 then 0x40 * (b[0] - 0xC0) + b[1] - 0x80
    else if |b| == 3 then 0x1000 * (b[0] - 0xE0) + 0x40 * (b[1] - 0x80) + b[2] - 0x80
    else 0x4_0000 * (b[0] - 0xF0) + 0x1000 * (b[1] - 0x80) + 0x40 * (b[2] - 0x80) + b[3] - 0x80
  }

  /** What `n - 1` bytes can spell, or 0: a character below it needs no `n`th. */
  function Shorter(n: nat): int {
    if n <= 1 then 0 else if n == 2 then 0x80 else if n == 3 then 0x800 else 0x1_0000
  }

  /**
   The first byte says how many there are, together they spell the character, and fewer would not do.
   */
  lemma Utf8Spells(c: char)
    ensures |Utf8(c)| == Utf8Width(c) == LeadWidth(Utf8(c)[0])
    ensures Spelled(Utf8(c)) == c as int >= Shorter(|Utf8(c)|)
    ensures forall i :: 1 <= i < |Utf8(c)| ==> 0x80 <= Utf8(c)[i] < 0xC0
  {
    var u := c as int;
    var six := u / 0x40;
    var twelve := six / 0x40;
    assert u == 0x40 * six + u % 0x40 && six == 0x40 * twelve + six % 0x40;
    assert twelve == 0x40 * (twelve / 0x40) + twelve % 0x40;
  }

  /** What is counted is the bytes of the encoding. */
  lemma {:induction false} ByteLengthCounts(s: string)
    ensures ByteLength(s) == |Utf8All(s)|
  {
    if s != "" {
      Utf8Spells(s[0]);
      hide Utf8, Utf8Width;
      ByteLengthCounts(s[1..]);
    }
  }

  /** What a post is refused for before it reaches the store. */
  function CheckBody(body: string, maxBytes: nat): Option<ApiError> {
    if ByteLength(body) > maxBytes then Some(BodyTooLarge)
    else if body == "" then Some(BodyEmpty)
    else None
  }

  lemma {:induction false} BytesOfNonEmpty(body: string)
    ensures ByteLength(body) == 0 <==> body == ""
  {
  }

  /** A body passes exactly when it holds between 1 and `maxBytes` bytes. */
  lemma BodyAccepted(body: string, maxBytes: nat)
    ensures CheckBody(body, maxBytes).None? <==> 1 <= ByteLength(body) <= maxBytes
    ensures CheckBody(body, maxBytes) == Some(BodyTooLarge) <==> ByteLength(body) > maxBytes
    ensures CheckBody(body, maxBytes) == Some(BodyEmpty) <==> body == ""
  {
    BytesOfNonEmpty(body);
  }

  /** The page a request describes, cut out of the room's log. */
  function PageOf(log: seq<Message>, limit: nat, after: Option<nat>, before: Option<nat>): seq<Message>
    requires after.None? || before.None?
  {
    match after
    case Some(c) => FirstN(Above(log, c), limit)
    case None =>
      match before
      case Some(c) => LastN(Below(log, c), limit)
      case None => LastN(log, limit)
  }

  /** Reads a page. The room is looked for first, so a missing one hides a bad pair of cursors. */
  method List(store: SqliteStore, room: nat, asked: Option<nat>, after: Option<nat>, before: Option<nat>)
    returns (r: Result<seq<Message>, ApiError>)
    requires store.Valid()
    ensures r.Ok? <==> room as int in Ids(store.rooms) && Fits(room) && (after.None? || before.None?)
                       && (after.Some? ==> Fits(after.value)) && (before.Some? ==> Fits(before.value))
    ensures r.Ok? ==> r.value == PageOf(Log(store.messages, room), Limit(asked), after, before)
    ensures Fits(room) && room as int !in Ids(store.rooms) ==> r == Err(RoomNotFound)
    ensures Fits(room) && room as int in Ids(store.rooms) && after.Some? && before.Some? ==> r == Err(BothCursors)
  {
    var known := store.RoomExists(room);
    match known {
      case Err(e) => return Err(Internal(e));
      case Ok(found) => if !found { return Err(RoomNotFound); }
    }

    var limit := Limit(asked);
    var read: Result<seq<Message>, StoreError>;
    match (after, before) {
      case (Some(_), Some(_)) => return Err(BothCursors);
      case (Some(c), None) => read := store.MessagesAfter(room, c, limit);
      case (None, Some(c)) => read := store.MessagesBefore(room, c, limit);
      case (None, None) => read := store.MessagesNewest(room, limit);
    }
    match read
    case Err(e) => return Err(Internal(e));
    case Ok(messages) => return Ok(messages);
  }

  /** A post: the size checks first, and then the store's insert under `username`. */
  method PostTo(store: SqliteStore, room: nat, username: string, body: string, maxBytes: nat, now: nat, spare: int)
    returns (r: Result<Posted, ApiError>)
    requires store.Valid()
    modifies store`messages
    ensures store.Valid()
    ensures CheckBody(body, maxBytes).Some? ==>
              r == Err(CheckBody(body, maxBytes).value) && store.messages == old(store.messages)
    ensures CheckBody(body, maxBytes).None? ==>
              var (rows, posted) := Post(old(store.messages), Ids(store.rooms), room, username, body, now, spare);
              && store.messages == rows
              && r == match posted
                      case Ok(p) => Ok(p)
                      case Err(NotFound(_)) => Err(RoomNotFound)
                      case Err(e) => Err(Internal(e))
  {
    if ByteLength(body) > maxBytes {
      return Err(BodyTooLarge);
    }
    if |body| == 0 {
      return Err(BodyEmpty);
    }
    var posted := store.PostMessage(room, username, body, now, spare);
    match posted
    case Ok(p) => return Ok(p);
    case Err(NotFound(_)) => return Err(RoomNotFound);
    case Err(e) => return Err(Internal(e));
  }

  /** Where a page begins and ends in its log: right after a cursor, right before one, or at the end. */
  ghost predicate IsPage(log: seq<Message>, limit: nat, after: Option<nat>, before: Option<nat>, a: nat, b: nat) {
    && a <= b <= |log| && b - a <= limit
    && (after.Some? ==>
          && (forall i :: 0 <= i < a ==> log[i].pos <= after.value)
          && (forall i :: a <= i < |log| ==> log[i].pos > after.value)
          && b - a == Min(limit, |log| - a))
    && (after.None? ==> b - a == Min(limit, b))
    && (before.Some? ==>
          && (forall i :: 0 <= i < b ==> log[i].pos < before.value)
          && (forall i :: b <= i < |log| ==> log[i].pos >= before.value))
    && (after.None? && before.None? ==> b == |log|)
  }

  lemma {:induction false} PageAfterIsRun(log: seq<Message>, limit: nat, c: nat) returns (a: nat, b: nat)
    requires Ascending(log)
    ensures IsPage(log, limit, Some(c), None, a, b) && PageOf(log, limit, Some(c), None) == log[a..b]
  {
    hide Above, Ascending;
    a := AboveCut(log, c);
    FirstIsSlice(log, a, limit);
    hide FirstN;
    b := a + Min(limit, |log| - a);
  }

  lemma {:induction false} PageBeforeIsRun(log: seq<Message>, limit: nat, c: nat) returns (a: nat, b: nat)
    requires Ascending(log)
    ensures IsPage(log, limit, None, Some(c), a, b) && PageOf(log, limit, None, Some(c)) == log[a..b]
  {
    hide Below, Ascending;
    b := BelowCut(log, c);
    LastIsRun(log, b, limit);
    hide LastN;
    a := b - Min(limit, b);
  }

  lemma {:induction false} PageNewestIsRun(log: seq<Message>, limit: nat) returns (a: nat, b: nat)
    ensures IsPage(log, limit, None, None, a, b) && PageOf(log, limit, None, None) == log[a..b]
  {
    b := |log|;
    assert log[..b] == log;
    LastIsRun(log, b, limit);
    a := b - Min(limit, b);
  }

  /** Every page is one run of its log, with as many messages as the limit and the log allow. */
  lemma {:induction false} PageIsRun(log: seq<Message>, limit: nat, after: Option<nat>, before: Option<nat>)
    returns (a: nat, b: nat)
    requires Ascending(log) && (after.None? || before.None?)
    ensures IsPage(log, limit, after, before, a, b)
    ensures PageOf(log, limit, after, before) == log[a..b]
  {
    hide PageOf, IsPage, Ascending;
    if after.Some? {
      a, b := PageAfterIsRun(log, limit, after.value);
    } else if before.Some? {
      a, b := PageBeforeIsRun(log, limit, before.value);
    } else {
      a, b := PageNewestIsRun(log, limit);
    }
  }

  lemma LastIsRun(log: seq<Message>, b: nat, limit: nat)
    requires b <= |log|
    ensures LastN(log[..b], limit) == log[b - Min(limit, b)..b]
  {
  }

  lemma {:induction false} AboveCut(log: seq<Message>, c: nat) returns (a: nat)
    requires Ascending(log)
    ensures a <= |log| && Above(log, c) == log[a..]
    ensures forall i :: 0 <= i < |log| ==> (i < a <==> log[i].pos <= c)
  {
    AboveIsSlice(log, c);
    RankCuts(log, c);
    a := Rank(log, c);
  }

  lemma FirstIsSlice(log: seq<Message>, r: nat, limit: nat)
    requires r <= |log|
    ensures FirstN(log[r..], limit) == log[r..r + |FirstN(log[r..], limit)|]
    ensures |FirstN(log[r..], limit)| == Min(limit, |log| - r)
  {
  }

  lemma {:induction false} BelowCut(log: seq<Message>, c: nat) returns (b: nat)
    requires Ascending(log)
    ensures b <= |log| && Below(log, c) == log[..b]
    ensures forall i :: 0 <= i < |log| ==> (i < b <==> log[i].pos < c)
  {
    if c == 0 {
      BelowOfStart(log);
      b := 0;
    } else {
      BelowIsSlice(log, c);
      RankCuts(log, c - 1);
      b := Rank(log, c - 1);
    }
  }

  // ---- Walking a whole log a page at a time ----

  /** What is left above a page is what was above the cursor, less the page. */
  lemma {:induction false} PageAdvances(log: seq<Message>, c: nat, limit: nat)
    requires Ascending(log) && limit > 0
    ensures var page := FirstN(Above(log, c), limit);
            Above(log, if page == [] then c else Newest(page)) == Above(log, c)[|page|..]
  {
    var page := FirstN(Above(log, c), limit);
    AboveIsSlice(log, c);
    if page != [] {
      var e := Rank(log, c) + |page| - 1;
      assert page == log[Rank(log, c)..e + 1];
      RankAt(log, e);
      AboveIsSlice(log, log[e].pos);
    }
  }

  /** Asks for what follows each page until one comes back short. */
  function WalkUp(log: seq<Message>, c: nat, limit: nat): seq<Message>
    requires Ascending(log) && limit > 0
    decreases |Above(log, c)|
  {
    var page := PageOf(log, limit, Some(c), None);
    if |page| < limit then page
    else
      PageAdvances(log, c, limit);
      page + WalkUp(log, Newest(page), limit)
  }

  /** Puts what came before the held messages in front of them until a page comes back short. */
  function WalkDown(log: seq<Message>, held: seq<Message>, limit: nat): seq<Message>
    requires Ascending(log) && limit > 0
    decreases if held == [] then 0 else |Below(log, held[0].pos)|
  {
    if held == [] then []
    else
      var page := PageOf(log, limit, None, Some(held[0].pos));
      if |page| < limit then page + held
      else
        PageBelowShrinks(log, held[0].pos, limit);
        WalkDown(log, page + held, limit)
  }

  lemma {:induction false} PageBelowShrinks(log: seq<Message>, c: nat, limit: nat)
    requires Ascending(log) && limit > 0
    ensures var page := LastN(Below(log, c), limit);
            |page| == limit ==> && Below(log, page[0].pos) == Below(log, c)[..|Below(log, c)| - limit]
                                && |Below(log, page[0].pos)| == |Below(log, c)| - limit
  {
    var below := Below(log, c);
    var page := LastN(below, limit);
    if |page| == limit {
      BelowOfStart(log);
      BelowIsSlice(log, c);
      var s := |below| - limit;
      assert page[0] == log[s];
      RankAt(log, s);
      BelowIsSlice(log, log[s].pos);
    }
  }

  /** Nothing is below START. */
  lemma {:induction false} BelowOfStart(log: seq<Message>)
    ensures Below(log, START) == []
  {
    if log != [] {
      BelowOfStart(log[..|log| - 1]);
    }
  }

  lemma {:induction false} WalkUpReadsAbove(log: seq<Message>, c: nat, limit: nat)
    requires Ascending(log) && limit > 0
    ensures WalkUp(log, c, limit) == Above(log, c)
    decreases |Above(log, c)|
  {
    var page := PageOf(log, limit, Some(c), None);
    if |page| == limit {
      PageAdvances(log, c, limit);
      WalkUpReadsAbove(log, Newest(page), limit);
    }
  }

  /** Walking up from START rebuilds the log, whatever limit the requests name. */
  lemma WalkUpRebuilds(rows: seq<Row>, room: int, asked: Option<nat>)
    requires Keyed(rows)
    ensures Ascending(Log(rows, room))
    ensures WalkUp(Log(rows, room), START, Limit(asked)) == Log(rows, room)
  {
    LogAscends(rows, room);
    var log := Log(rows, room);
    WalkUpReadsAbove(log, START, Limit(asked));
    AboveIsSlice(log, START);
    RankCuts(log, START);
    assert log[Rank(log, START)..] == log by {
      if log != [] {
        assert log[0].pos > START;
      }
    }
  }

  /** The page before a message is the run of the log that ends just before it. */
  lemma {:induction false} PageBefore(log: seq<Message>, s: nat, limit: nat)
    requires Ascending(log) && limit > 0 && s < |log|
    ensures PageOf(log, limit, None, Some(log[s].pos)) == log[if s < limit then 0 else s - limit..s]
  {
    RankAt(log, s);
    BelowIsSlice(log, log[s].pos);
    hide Below, Rank, Ascending;
    var below := log[..s];
    assert s > limit ==> below[s - limit..] == log[s - limit..s];
  }

  lemma {:induction false} WalkDownReadsRest(log: seq<Message>, s: nat, limit: nat)
    requires Ascending(log) && limit > 0 && s < |log|
    ensures WalkDown(log, log[s..], limit) == log
    decreases s
  {
    hide Below, Ascending, Rank;
    PageBefore(log, s, limit);
    var held := log[s..];
    assert held[0] == log[s];
    if s < limit {
      assert log[0..s] + held == log;
    } else {
      assert log[s - limit..s] + held == log[s - limit..];
      WalkDownReadsRest(log, s - limit, limit);
    }
  }

  /** Reading back from the newest page rebuilds the same log. */
  lemma WalkDownRebuilds(rows: seq<Row>, room: int, asked: Option<nat>)
    requires Keyed(rows)
    ensures Ascending(Log(rows, room))
    ensures var log, limit := Log(rows, room), Limit(asked); WalkDown(log, PageOf(log, limit, None, None), limit) == log
  {
    LogAscends(rows, room);
    var log, limit := Log(rows, room), Limit(asked);
    var s := |log| - |LastN(log, limit)|;
    assert LastN(log, limit) == log[s..];
    if log != [] {
      WalkDownReadsRest(log, s, limit);
    }
  }
}
