/** What the chat screen's keys, lines and lists mean for its reader. */
module ChatPromises {
  import opened Wire
  import opened Chat
  import PaneCache

  // ---- Typed lines ----

  ghost predicate Spaces(s: string) {
    forall i :: 0 <= i < |s| ==> IsSpace(s[i])
  }

  /** One word: something, without a space in it. */
  ghost predicate Word(s: string) {
    s != "" && forall i :: 0 <= i < |s| ==> !IsSpace(s[i])
  }

  /** A text with no space at either end. */
  ghost predicate Trimmed(s: string) {
    s != "" && !IsSpace(s[0]) && !IsSpace(s[|s| - 1])
  }

  lemma {:induction false} TrimsStart(pad: string, s: string)
    requires Spaces(pad) && s != "" && !IsSpace(s[0])
    ensures TrimStart(pad + s) == s
  {
    if pad == "" {
      assert pad + s == s;
    } else {
      assert (pad + s)[1..] == pad[1..] + s;
      TrimsStart(pad[1..], s);
    }
  }

  lemma {:induction false} TrimsEnd(s: string, pad: string)
    requires Spaces(pad) && s != "" && !IsSpace(s[|s| - 1])
    ensures TrimEnd(s + pad) == s
  {
    if pad == "" {
      assert s + pad == s;
    } else {
      assert (s + pad)[..|s + pad| - 1] == s + pad[..|pad| - 1];
      TrimsEnd(s, pad[..|pad| - 1]);
    }
  }

  /** Trimming takes the spaces from both ends and nothing else. */
  lemma {:induction false} TrimsBoth(before: string, s: string, after: string)
    requires Spaces(before) && Spaces(after) && Trimmed(s)
    ensures Trim(before + s + after) == s
  {
    hide IsSpace;
    assert before + s + after == before + (s + after);
    TrimsStart(before, s + after);
    TrimsEnd(s, after);
  }

  lemma {:induction false} TrimsAll(s: string)
    requires Spaces(s)
    ensures Trim(s) == ""
  {
    if s != "" {
      TrimsAll(s[1..]);
    }
  }

  lemma {:induction false} FirstWord(word: string, rest: string)
    requires (forall i :: 0 <= i < |word| ==> !IsSpace(word[i])) && (rest == "" || IsSpace(rest[0]))
    ensures WordEnd(word + rest) == |word|
  {
    if word == "" {
      assert word + rest == rest;
    } else {
      assert (word + rest)[1..] == word[1..] + rest;
      FirstWord(word[1..], rest);
    }
  }

  /** What a line means that trims to a word and what follows it. */
  lemma {:induction false} WordThenRest(before: string, word: string, rest: string, after: string, cells: Measure)
    requires Spaces(before) && Spaces(after) && Word(word) && (rest == "" || IsSpace(rest[0]))
    requires Trimmed(word + rest)
    ensures Understand(before + (word + rest) + after, cells)
         == if word == HELP then Help
            else if word != CREATE then Say(word + rest)
            else if Trim(rest) == "" || (exists i :: 0 <= i < |Trim(rest)| && IsSpace(Trim(rest)[i]))
            then BadName("a room name is one word")
            else if cells(Trim(rest)) > ROOM_NAME_MAX then BadName("room name is too long")
            else NewRoom(Trim(rest))
  {
    hide IsSpace, Trim;
    TrimsBoth(before, word + rest, after);
    FirstWord(word, rest);
    assert (word + rest)[..|word|] == word && (word + rest)[|word|..] == rest;
  }

  lemma CommandsAreWords()
    ensures Word(HELP) && Word(CREATE) && HELP != CREATE
  {
    assert HELP[0] != CREATE[1];
    assert HELP[1] == 'h' && CREATE[1] == 'r';
  }

  /** `/room name`, however it is spaced, asks for a room of that name if it takes up at most ten cells. */
  lemma {:induction false} RoomIsAskedFor(before: string, gap: string, name: string, after: string, cells: Measure)
    requires Spaces(before) && Spaces(gap) && gap != "" && Word(name) && Spaces(after)
    ensures Understand(before + (CREATE + (gap + name)) + after, cells)
         == if cells(name) > ROOM_NAME_MAX then BadName("room name is too long") else NewRoom(name)
  {
    CommandsAreWords();
    hide IsSpace;
    assert (CREATE + (gap + name))[0] == CREATE[0];
    assert gap + name + "" == gap + name;
    TrimsBoth(gap, name, "");
    hide Trim;
    WordThenRest(before, CREATE, gap + name, after, cells);
  }

  /** Two words, or none, are no name. */
  lemma {:induction false} OneWordIsNeeded(before: string, gap: string, name: string, after: string, cells: Measure)
    requires Spaces(before) && Spaces(gap) && gap != "" && Trimmed(name) && !Word(name) && Spaces(after)
    ensures Understand(before + (CREATE + (gap + name)) + after, cells) == BadName("a room name is one word")
    ensures Understand(before + CREATE + after, cells) == BadName("a room name is one word")
  {
    CommandsAreWords();
    TrimsAll("");
    hide IsSpace;
    assert (CREATE + (gap + name))[0] == CREATE[0];
    assert gap + name + "" == gap + name;
    TrimsBoth(gap, name, "");
    hide Trim;
    WordThenRest(before, CREATE, gap + name, after, cells);
    assert CREATE + "" == CREATE;
    WordThenRest(before, CREATE, "", after, cells);
  }

  /** Any other line is said as it stands, without the spaces around it, and one of spaces alone is nothing. */
  lemma {:induction false} OtherLinesAreSaid(before: string, word: string, rest: string, after: string, cells: Measure)
    requires Spaces(before) && Spaces(after) && Word(word) && (rest == "" || IsSpace(rest[0]))
    requires Trimmed(word + rest) && word != HELP && word != CREATE
    ensures Understand(before + (word + rest) + after, cells) == Say(word + rest)
    ensures Understand(before, cells) == Blank
  {
    TrimsAll(before);
    hide IsSpace, Trim;
    WordThenRest(before, word, rest, after, cells);
  }

  /** What a line does to the screen. Text is only ever kept because a call it would start has to wait. */
  lemma EnterShows(c: Chat, cells: Measure, pending: bool)
    ensures var (after, intent) := HandleKey(c, Enter(cells), pending);
            match Understand(c.input, cells)
            case Blank => after == c.(input := "") && intent.None?
            case Help => after.input == "" && after.notices == COMMANDS && after.scroll.None? && intent.None?
            case BadName(why) => after.input == "" && after.notices == [why] && after.scroll.None? && intent.None?
            case Say(body) =>
              if pending then after == c && intent.None?
              else after.input == "" && after.notices == [] && after.scroll == c.scroll && intent == Some(Send(body))
            case NewRoom(name) =>
              if pending then after == c && intent.None?
              else after.input == "" && after.notices == [] && after.scroll == c.scroll && intent == Some(Create(name))
  {
    hide Understand;
  }

  /** Enter reads the line as it was typed last, and typing touches nothing but the line. */
  lemma TypedIsRead(c: Chat, line: string, cells: Measure, body: string, typing: bool)
    requires Understand(line, cells) == Say(body)
    ensures var (typed, asked) := HandleKey(c, Typed(line), typing);
            && asked.None? && typed == c.(input := typed.input)
            && HandleKey(typed, Enter(cells), true).0.input == line
            && HandleKey(typed, Enter(cells), false).1 == Some(Send(body))
  {
    hide Understand;
  }

  // ---- Scrolling ----

  /** The first row in view: where the reader scrolled to, or as far down as there is. */
  function Offset(c: Chat): nat {
    if c.scroll.Some? then c.scroll.value else c.bottom
  }

  /** How far a key moves the view. */
  function Rows(c: Chat, key: Key): int {
    match key
    case Up => -1
    case Down => 1
    case PageUp => -(c.fits as int)
    case PageDown => c.fits
    case _ => 0
  }

  /** A scrolling key moves the view by its rows and no further than the ends, and at the lower end it follows again. */
  lemma KeysScroll(c: Chat, key: Key, pending: bool)
    requires key.Up? || key.Down? || key.PageUp? || key.PageDown?
    ensures var (after, intent) := HandleKey(c, key, pending);
            && intent.None? && after == c.(scroll := after.scroll)
            && (0 <= Offset(c) + Rows(c, key) <= c.bottom ==> Offset(after) == Offset(c) + Rows(c, key))
            && (Offset(c) + Rows(c, key) < 0 ==> Offset(after) == 0)
            && (Offset(c) + Rows(c, key) > c.bottom ==> Offset(after) == c.bottom)
            && (after.scroll.None? <==> Offset(after) == c.bottom)
  {
  }

  // ---- Lists and logins ----

  /** A new list keeps the open room selected wherever it has moved to, and otherwise selects the top. */
  lemma SelectionFollows(c: Chat, list: seq<Room>)
    ensures var after := ShowRooms(c, list);
            && after.rooms == list && after == c.(rooms := list, selected := after.selected)
            && (OpenRoom(c).Some? && (exists i :: 0 <= i < |list| && list[i].id == OpenRoom(c).value.id) ==>
                  OpenRoom(after).Some? && OpenRoom(after).value.id == OpenRoom(c).value.id)
            && (OpenRoom(c).None? || (forall i :: 0 <= i < |list| ==> list[i].id != OpenRoom(c).value.id) ==>
                  after.selected == 0)
  {
  }

  lemma {:induction false} ReadFromListed(rooms: seq<Room>)
    requires forall i, j :: 0 <= i < j < |rooms| ==> rooms[i].id != rooms[j].id
    ensures forall i :: 0 <= i < |rooms| ==>
              rooms[i].id in ReadFrom(rooms) && ReadFrom(rooms)[rooms[i].id] == rooms[i].latestSeq
  {
    if rooms != [] {
      ReadFromListed(rooms[..|rooms| - 1]);
    }
  }

  /** A new screen opens quiet, at the top of the list, as its own reader's. */
  lemma NewScreenIsQuiet(rooms: seq<Room>, me: string)
    requires forall i, j :: 0 <= i < j < |rooms| ==> rooms[i].id != rooms[j].id
    ensures var c := NewChat(rooms, me);
            && c.rooms == rooms && c.selected == 0 && c.me == me && c.messages == [] && c.input == ""
            && forall i :: 0 <= i < |rooms| ==> !Unread(c, rooms[i])
  {
    ReadFromListed(rooms);
  }

  // ---- The pane's lines ----

  /** The messages of some lines, and which of them are the reader's own. */
  function SaidIn(lines: seq<Line>): seq<(Message, bool)> {
    if lines == [] then []
    else
      var rest, last := SaidIn(lines[..|lines| - 1]), lines[|lines| - 1];
      if last.Said? then rest + [(last.message, last.mine)] else rest
  }

  lemma SaidInPush(lines: seq<Line>, line: Line)
    ensures SaidIn(lines + [line])
         == if line.Said? then SaidIn(lines) + [(line.message, line.mine)] else SaidIn(lines)
  {
    assert (lines + [line])[..|lines|] == lines;
  }

  lemma SaidInEntry(lines: seq<Line>, before: seq<Message>, m: Message, me: string, dayOf: Calendar)
    ensures SaidIn(lines + Entry(before, m, me, dayOf)) == SaidIn(lines) + [(m, m.username == me)]
  {
    var said := Said(m, m.username == me);
    hide SaidIn, DayBefore;
    var entry := Entry(before, m, me, dayOf);
    if |entry| == 2 {
      SaidInPush(lines, entry[0]);
      SaidInPush(lines + [entry[0]], said);
      assert lines + entry == lines + [entry[0]] + [said];
    } else {
      SaidInPush(lines, said);
      assert entry == [said];
    }
  }

  /** The lines say every message once and in order, and mark the reader's own. */
  lemma {:induction false} LinesSayMessages(messages: seq<Message>, me: string, dayOf: Calendar)
    ensures var said := SaidIn(MessageLines(messages, me, dayOf));
            && |said| == |messages|
            && forall i :: 0 <= i < |messages| ==> said[i] == (messages[i], messages[i].username == me)
  {
    hide SaidIn, Entry;
    if messages == [] {
      NothingIsSaid();
    } else {
      var front, last := messages[..|messages| - 1], messages[|messages| - 1];
      assert MessageLines(messages, me, dayOf) == MessageLines(front, me, dayOf) + Entry(front, last, me, dayOf);
      hide MessageLines;
      LinesSayMessages(front, me, dayOf);
      SaidInEntry(MessageLines(front, me, dayOf), front, last, me, dayOf);
    }
  }

  lemma NothingIsSaid()
    ensures SaidIn([]) == []
  {
  }

  /** `j` is the newest message before `i` that falls on a day. */
  ghost predicate LastDated(messages: seq<Message>, dayOf: Calendar, i: nat, j: nat) {
    && j < i <= |messages| && dayOf(messages[j].postedAt).Some?
    && forall k :: j < k < i ==> dayOf(messages[k].postedAt).None?
  }

  lemma {:induction false} DayBeforeIsLast(messages: seq<Message>, dayOf: Calendar, i: nat)
    requires i <= |messages|
    ensures DayBefore(messages[..i], dayOf).Some? ==>
              exists j: nat :: LastDated(messages, dayOf, i, j)
                               && dayOf(messages[j].postedAt) == DayBefore(messages[..i], dayOf)
    ensures DayBefore(messages[..i], dayOf).None? ==> forall j :: 0 <= j < i ==> dayOf(messages[j].postedAt).None?
    decreases i
  {
    if i > 0 {
      assert messages[..i][..i - 1] == messages[..i - 1];
      if dayOf(messages[i - 1].postedAt).Some? {
        assert LastDated(messages, dayOf, i, i - 1);
      } else {
        DayBeforeIsLast(messages, dayOf, i - 1);
        if j: nat :| LastDated(messages, dayOf, i - 1, j)
                     && dayOf(messages[j].postedAt) == DayBefore(messages[..i - 1], dayOf) {
          assert LastDated(messages, dayOf, i, j);
        }
      }
    }
  }

  /** A day's line stands over a message exactly when it falls on a day, and not on that of the dated one before it. */
  lemma {:induction false} DayLineIff(messages: seq<Message>, me: string, dayOf: Calendar, i: nat)
    requires i < |messages|
    ensures var lines, upTo := MessageLines(messages[..i], me, dayOf), MessageLines(messages[..i + 1], me, dayOf);
            var day := dayOf(messages[i].postedAt);
            && lines <= upTo
            && upTo[|upTo| - 1] == Said(messages[i], messages[i].username == me)
            && if day.Some? && (forall j: nat | LastDated(messages, dayOf, i, j) :: dayOf(messages[j].postedAt) != day)
               then |upTo| == |lines| + 2 && upTo[|lines|] == Separator(day.value) else |upTo| == |lines| + 1
  {
    assert messages[..i + 1][..i] == messages[..i];
    if dayOf(messages[i].postedAt).Some? {
      NewDayIff(messages, dayOf, i, dayOf(messages[i].postedAt));
    }
    hide DayBefore, LastDated;
  }

  lemma NewDayIff(messages: seq<Message>, dayOf: Calendar, i: nat, day: Option<int>)
    requires i <= |messages| && day.Some?
    ensures day != DayBefore(messages[..i], dayOf)
            <==> forall j: nat | LastDated(messages, dayOf, i, j) :: dayOf(messages[j].postedAt) != day
  {
    DayBeforeIsLast(messages, dayOf, i);
    hide DayBefore;
    LastDatedIsOne(messages, dayOf, i);
  }

  lemma LastDatedIsOne(messages: seq<Message>, dayOf: Calendar, i: nat)
    ensures forall j: nat, k: nat :: LastDated(messages, dayOf, i, j) && LastDated(messages, dayOf, i, k) ==> j == k
  {
    forall j: nat, k: nat | LastDated(messages, dayOf, i, j) && LastDated(messages, dayOf, i, k) ensures j == k {
      assert !(j < k) && !(k < j);
    }
  }

  /**
   A draw shows the open room's name, then the messages' lines, then each notice on its own, and reports
   what that measures, whether or not the kept pane was used.
   */
  lemma DrawShows(c: Chat, area: Rect, render: Renderer, dayOf: Calendar)
    returns (title: Option<string>, lines: seq<Line>)
    requires PaneCache.Coherent(c, render, dayOf)
    ensures title == if c.selected < |c.rooms| then Some(c.rooms[c.selected].name) else None
    ensures |lines| == |MessageLines(c.messages, c.me, dayOf)| + |c.notices|
    ensures MessageLines(c.messages, c.me, dayOf) <= lines
    ensures forall i :: 0 <= i < |c.notices| ==>
              lines[|MessageLines(c.messages, c.me, dayOf)| + i] == Notice(c.notices[i])
    ensures var d, shown := Draw(c, area, render, dayOf), render(title, lines, area, c.scroll);
            && d.pane.Some? && d.pane.value.drawn == shown && d.bottom == shown.bottom && d.fits == shown.fits
            && d == c.(pane := d.pane, bottom := d.bottom, fits := d.fits)
  {
    title := Title(c);
    lines := MessageLines(c.messages, c.me, dayOf) + Notices(c.notices);
    hide MessageLines;
  }
}
