/**
 The rows a phone app draws: one for each message, saying whether it opens or closes a group, and one
 for each day.
 */
module ChatRows {
  import opened Wire

  /** The clock and the calendar, which may be any. */
  datatype Clocks = Clocks(clock: nat -> string, dayOf: nat -> int, caption: nat -> string)

  datatype ChatRow =
    | Day(on: int, caption: string)
    | Said(message: Message, clock: string, mine: bool, opensGroup: bool, closesGroup: bool, nameFollows: bool)

  // ---- What each message's row should be ----

  /** The day a message was said on. */
  function On(messages: seq<Message>, clocks: Clocks, i: nat): int
    requires i < |messages|
  {
    clocks.dayOf(messages[i].postedAt)
  }

  /** Whether a message is the first of its day. */
  predicate NewDay(messages: seq<Message>, clocks: Clocks, i: nat)
    requires i < |messages|
  {
    i == 0 || On(messages, clocks, i) != On(messages, clocks, i - 1)
  }

  /** Two messages that belong to the same run: one author on one day. */
  predicate SameRun(messages: seq<Message>, clocks: Clocks, i: nat, j: nat)
    requires i < |messages| && j < |messages|
  {
    messages[i].username == messages[j].username && On(messages, clocks, i) == On(messages, clocks, j)
  }

  predicate Opens(messages: seq<Message>, clocks: Clocks, i: nat)
    requires i < |messages|
  {
    i == 0 || !SameRun(messages, clocks, i - 1, i)
  }

  predicate Closes(messages: seq<Message>, clocks: Clocks, i: nat)
    requires i < |messages|
  {
    i + 1 == |messages| || !SameRun(messages, clocks, i, i + 1)
  }

  predicate Mine(message: Message, me: Option<string>) {
    me == Some(message.username)
  }

  function SaidAt(messages: seq<Message>, me: Option<string>, clocks: Clocks, i: nat): ChatRow
    requires i < |messages|
  {
    Said(messages[i], clocks.clock(messages[i].postedAt), Mine(messages[i], me),
         Opens(messages, clocks, i), Closes(messages, clocks, i),
         && i + 1 < |messages|
         && On(messages, clocks, i) == On(messages, clocks, i + 1)
         && messages[i].username != messages[i + 1].username
         && !Mine(messages[i + 1], me))
  }

  /** A message's own row, under its day's if it is the first of it. */
  function RowsFor(messages: seq<Message>, me: Option<string>, clocks: Clocks, i: nat): seq<ChatRow>
    requires i < |messages|
  {
    (if NewDay(messages, clocks, i)
     then [Day(On(messages, clocks, i), clocks.caption(messages[i].postedAt))] else [])
    + [SaidAt(messages, me, clocks, i)]
  }

  /** The rows of the first `n` messages. */
  function RowsOf(messages: seq<Message>, me: Option<string>, clocks: Clocks, n: nat): seq<ChatRow>
    requires n <= |messages|
  {
    if n == 0 then [] else RowsOf(messages, me, clocks, n - 1) + RowsFor(messages, me, clocks, n - 1)
  }

  // ---- The pass ----

  /** One pass, carrying the last day written and looking at both neighbours. */
  method Rows(messages: seq<Message>, me: Option<string>, clocks: Clocks) returns (rows: seq<ChatRow>)
    ensures rows == RowsOf(messages, me, clocks, |messages|)
  {
    rows := [];
    var day: Option<int> := None;
    var index := 0;
    while index < |messages|
      invariant 0 <= index <= |messages|
      invariant rows == RowsOf(messages, me, clocks, index)
      invariant day == if index == 0 then None else Some(On(messages, clocks, index - 1))
    {
      var message := messages[index];
      var on := clocks.dayOf(message.postedAt);
      var newDay := day != Some(on);
      if newDay {
        day := Some(on);
        rows := rows + [Day(on, clocks.caption(message.postedAt))];
      }

      var before := if index > 0 then Some(messages[index - 1]) else None;
      var after := if index + 1 < |messages| then Some(messages[index + 1]) else None;
      var opens := newDay || before.None? || before.value.username != message.username;
      var closes := after.None? || after.value.username != message.username
                    || clocks.dayOf(after.value.postedAt) != on;
      var nameFollows := closes && after.Some? && me != Some(after.value.username)
                         && clocks.dayOf(after.value.postedAt) == on;

      rows := rows + [Said(message, clocks.clock(message.postedAt), me == Some(message.username),
                           opens, closes, nameFollows)];
      index := index + 1;
    }
  }

  // ---- Where each message's row is ----

  /** The index of a message's own row. */
  function At(messages: seq<Message>, me: Option<string>, clocks: Clocks, i: nat): int
    requires i < |messages|
  {
    |RowsOf(messages, me, clocks, i + 1)| - 1
  }

  lemma {:induction false} RowsGrow(messages: seq<Message>, me: Option<string>, clocks: Clocks, m: nat, n: nat)
    requires m <= n <= |messages|
    ensures RowsOf(messages, me, clocks, m) <= RowsOf(messages, me, clocks, n)
    decreases n
  {
    if m < n {
      RowsGrow(messages, me, clocks, m, n - 1);
    }
  }

  /** A message's row, the day row above it if it has one, and the row after. */
  lemma MessageRow(messages: seq<Message>, me: Option<string>, clocks: Clocks, i: nat)
    requires i < |messages|
    ensures var rows, k := RowsOf(messages, me, clocks, |messages|), At(messages, me, clocks, i);
            && 0 <= k < |rows|
            && rows[k] == SaidAt(messages, me, clocks, i)
            && (NewDay(messages, clocks, i) ==> k > 0 && rows[k - 1].Day? && rows[k - 1].on == On(messages, clocks, i))
            && (!NewDay(messages, clocks, i) ==> k > 0 && rows[k - 1] == SaidAt(messages, me, clocks, i - 1))
            && (i + 1 == |messages| ==> k + 1 == |rows|)
            && (i + 1 < |messages| ==>
                  && k + 1 < |rows|
                  && (NewDay(messages, clocks, i + 1) ==> rows[k + 1].Day?)
                  && (!NewDay(messages, clocks, i + 1) ==> rows[k + 1] == SaidAt(messages, me, clocks, i + 1)))
  {
    hide SaidAt, NewDay, On;
    RowsGrow(messages, me, clocks, i + 1, |messages|);
    if i > 0 {
      LastRow(messages, me, clocks, i - 1);
    }
    LastRow(messages, me, clocks, i);
    FirstIsNewDay(messages, clocks);
    if i + 1 < |messages| {
      RowsGrow(messages, me, clocks, i + 2, |messages|);
      LastRow(messages, me, clocks, i + 1);
    }
  }

  lemma FirstIsNewDay(messages: seq<Message>, clocks: Clocks)
    ensures messages != [] ==> NewDay(messages, clocks, 0)
  {
  }

  /** The rows a message adds: its own last, after its day's if it is the first of it. */
  lemma LastRow(messages: seq<Message>, me: Option<string>, clocks: Clocks, i: nat)
    requires i < |messages|
    ensures var before, after := RowsOf(messages, me, clocks, i), RowsOf(messages, me, clocks, i + 1);
            && before <= after
            && |after| == |before| + (if NewDay(messages, clocks, i) then 2 else 1)
            && after[|after| - 1] == SaidAt(messages, me, clocks, i)
            && (NewDay(messages, clocks, i) ==>
                  after[|before|] == Day(On(messages, clocks, i), clocks.caption(messages[i].postedAt)))
  {
    hide SaidAt, NewDay, On;
  }

  /** Every row is some message's own, or the day row above it. */
  lemma {:induction false} EveryRow(messages: seq<Message>, me: Option<string>, clocks: Clocks, n: nat, k: nat)
    returns (i: nat)
    requires n <= |messages| && k < |RowsOf(messages, me, clocks, n)|
    ensures i < n
    ensures var at, row := At(messages, me, clocks, i), RowsOf(messages, me, clocks, n)[k];
            || (k == at && row == SaidAt(messages, me, clocks, i))
            || (k == at - 1 && NewDay(messages, clocks, i)
                && row == Day(On(messages, clocks, i), clocks.caption(messages[i].postedAt)))
  {
    if k < |RowsOf(messages, me, clocks, n - 1)| {
      i := EveryRow(messages, me, clocks, n - 1, k);
    } else {
      i := n - 1;
    }
  }

  // ---- What the rows say ----

  function WithoutDays(rows: seq<ChatRow>): seq<Message> {
    if rows == [] then []
    else
      var rest, last := WithoutDays(rows[..|rows| - 1]), rows[|rows| - 1];
      if last.Said? then rest + [last.message] else rest
  }

  lemma WithoutDaysPush(rows: seq<ChatRow>, row: ChatRow)
    ensures WithoutDays(rows + [row]) == if row.Said? then WithoutDays(rows) + [row.message] else WithoutDays(rows)
  {
    assert (rows + [row])[..|rows|] == rows;
  }

  lemma DaysEraseFor(rows: seq<ChatRow>, messages: seq<Message>, me: Option<string>, clocks: Clocks, i: nat)
    requires i < |messages|
    ensures WithoutDays(rows + RowsFor(messages, me, clocks, i)) == WithoutDays(rows) + [messages[i]]
  {
    var said := SaidAt(messages, me, clocks, i);
    assert said.Said? && said.message == messages[i];
    hide SaidAt, WithoutDays;
    if NewDay(messages, clocks, i) {
      var day := RowsFor(messages, me, clocks, i)[0];
      WithoutDaysPush(rows, day);
      WithoutDaysPush(rows + [day], said);
      assert rows + RowsFor(messages, me, clocks, i) == rows + [day] + [said];
    } else {
      WithoutDaysPush(rows, said);
      assert RowsFor(messages, me, clocks, i) == [said];
    }
  }

  lemma NoRows(messages: seq<Message>, me: Option<string>, clocks: Clocks)
    ensures WithoutDays(RowsOf(messages, me, clocks, 0)) == []
  {
  }

  lemma RowsPush(messages: seq<Message>, me: Option<string>, clocks: Clocks, i: nat)
    requires i < |messages|
    ensures WithoutDays(RowsOf(messages, me, clocks, i + 1))
         == WithoutDays(RowsOf(messages, me, clocks, i)) + [messages[i]]
  {
    DaysEraseFor(RowsOf(messages, me, clocks, i), messages, me, clocks, i);
    hide WithoutDays, RowsFor;
  }

  lemma {:induction false} DaysEraseUpTo(messages: seq<Message>, me: Option<string>, clocks: Clocks, n: nat)
    requires n <= |messages|
    ensures |WithoutDays(RowsOf(messages, me, clocks, n))| == n
    ensures forall k :: 0 <= k < n ==> WithoutDays(RowsOf(messages, me, clocks, n))[k] == messages[k]
    decreases n
  {
    hide WithoutDays, RowsOf;
    if n == 0 {
      NoRows(messages, me, clocks);
    } else {
      DaysEraseUpTo(messages, me, clocks, n - 1);
      RowsPush(messages, me, clocks, n - 1);
    }
  }

  /** Taking the days out gives the messages back, in order. */
  lemma {:induction false} DaysErase(messages: seq<Message>, me: Option<string>, clocks: Clocks)
    ensures WithoutDays(RowsOf(messages, me, clocks, |messages|)) == messages
  {
    DaysEraseUpTo(messages, me, clocks, |messages|);
    hide WithoutDays, RowsOf;
  }

  /**
   A day row stands right above a message exactly when its day is not the previous message's, and a
   day row always has its message under it.
   */
  lemma {:induction false} DaysSeparate(messages: seq<Message>, me: Option<string>, clocks: Clocks, k: nat)
    requires k < |RowsOf(messages, me, clocks, |messages|)|
    ensures var rows := RowsOf(messages, me, clocks, |messages|);
            && (rows[k].Day? ==>
                  k + 1 < |rows| && rows[k + 1].Said?
                  && rows[k].on == clocks.dayOf(rows[k + 1].message.postedAt)
                  && rows[k].caption == clocks.caption(rows[k + 1].message.postedAt)
                  && (k > 0 ==> rows[k - 1].Said? && clocks.dayOf(rows[k - 1].message.postedAt) != rows[k].on))
            && (rows[k].Said? ==>
                  k > 0 && (rows[k - 1].Said? ==>
                              clocks.dayOf(rows[k - 1].message.postedAt) == clocks.dayOf(rows[k].message.postedAt)))
  {
    assert RowsOf(messages, me, clocks, 0) == [];
    var i := EveryRow(messages, me, clocks, |messages|, k);
    MessageRow(messages, me, clocks, i);
    if i > 0 {
      MessageRow(messages, me, clocks, i - 1);
      DayRowFollows(messages, me, clocks, i);
      hide RowsOf;
    }
  }

  lemma DayRowFollows(messages: seq<Message>, me: Option<string>, clocks: Clocks, i: nat)
    requires 0 < i < |messages|
    ensures At(messages, me, clocks, i)
         == At(messages, me, clocks, i - 1) + if NewDay(messages, clocks, i) then 2 else 1
  {
  }

  /** A name is written under a message exactly when the very next row is another author's opening one. */
  lemma NameFollowsIff(messages: seq<Message>, me: Option<string>, clocks: Clocks, k: nat)
    requires k < |RowsOf(messages, me, clocks, |messages|)|
    requires RowsOf(messages, me, clocks, |messages|)[k].Said?
    ensures var rows := RowsOf(messages, me, clocks, |messages|);
            && (rows[k].nameFollows <==>
                  k + 1 < |rows| && rows[k + 1].Said? && rows[k + 1].opensGroup && !rows[k + 1].mine
                  && rows[k + 1].message.username != rows[k].message.username)
            && (k + 1 < |rows| && rows[k + 1].Said? && rows[k + 1].opensGroup && !rows[k + 1].mine ==>
                  rows[k].nameFollows)
  {
    var i := EveryRow(messages, me, clocks, |messages|, k);
    MessageRow(messages, me, clocks, i);
  }

  /** A message's own row, among all the rows. */
  function RowAt(messages: seq<Message>, me: Option<string>, clocks: Clocks, i: nat): ChatRow
    requires i < |messages|
  {
    MessageRow(messages, me, clocks, i);
    RowsOf(messages, me, clocks, |messages|)[At(messages, me, clocks, i)]
  }

  /** What each row says, from the message and its two neighbours alone. */
  lemma RowSays(messages: seq<Message>, me: Option<string>, clocks: Clocks, i: nat)
    requires i < |messages|
    ensures var row, m := RowAt(messages, me, clocks, i), messages[i];
            && row.Said? && row.message == m && row.clock == clocks.clock(m.postedAt)
            && (row.mine <==> me == Some(m.username))
            && (row.opensGroup <==>
                  || i == 0 || messages[i - 1].username != m.username
                  || clocks.dayOf(messages[i - 1].postedAt) != clocks.dayOf(m.postedAt))
            && (row.closesGroup <==>
                  || i + 1 == |messages| || messages[i + 1].username != m.username
                  || clocks.dayOf(messages[i + 1].postedAt) != clocks.dayOf(m.postedAt))
  {
    MessageRow(messages, me, clocks, i);
    hide RowsOf;
  }

  /** A group is closed exactly by the last message, or by the one after it opening the next. */
  lemma ClosesIff(messages: seq<Message>, me: Option<string>, clocks: Clocks, i: nat)
    requires i < |messages|
    ensures var rows := RowsOf(messages, me, clocks, |messages|);
            var k := At(messages, me, clocks, i);
            && 0 <= k < |rows| && rows[k].Said? && rows[k].message == messages[i]
            && (i + 1 == |messages| ==> rows[k].closesGroup)
            && (i + 1 < |messages| ==>
                  var next := At(messages, me, clocks, i + 1);
                  && k < next < |rows| && rows[next].Said? && rows[next].message == messages[i + 1]
                  && (rows[k].closesGroup <==> rows[next].opensGroup))
  {
    MessageRow(messages, me, clocks, i);
    if i + 1 < |messages| {
      MessageRow(messages, me, clocks, i + 1);
    }
  }

  /** On the rows drawn: from `i` to `j` nothing opens a group but `i`, and nothing closes one but `j`. */
  ghost predicate Group(messages: seq<Message>, me: Option<string>, clocks: Clocks, i: nat, j: nat) {
    && i <= j < |messages|
    && RowAt(messages, me, clocks, i).Said? && RowAt(messages, me, clocks, i).opensGroup
    && RowAt(messages, me, clocks, j).Said? && RowAt(messages, me, clocks, j).closesGroup
    && (forall k :: i < k <= j ==>
          RowAt(messages, me, clocks, k).Said? && !RowAt(messages, me, clocks, k).opensGroup)
    && (forall k :: i <= k < j ==>
          RowAt(messages, me, clocks, k).Said? && !RowAt(messages, me, clocks, k).closesGroup)
  }

  /** All of one author's messages on one day, and neither neighbour is one more. */
  ghost predicate MaximalRun(messages: seq<Message>, clocks: Clocks, i: nat, j: nat) {
    && i <= j < |messages|
    && (forall k :: i <= k <= j ==> SameRun(messages, clocks, i, k))
    && (i > 0 ==> !SameRun(messages, clocks, i - 1, i))
    && (j + 1 < |messages| ==> !SameRun(messages, clocks, j, j + 1))
  }

  lemma {:induction false} RunHasNoOpening(messages: seq<Message>, clocks: Clocks, i: nat, j: nat)
    requires i <= j < |messages|
    ensures (forall k :: i < k <= j ==> !Opens(messages, clocks, k))
            <==> (forall k :: i <= k <= j ==> SameRun(messages, clocks, i, k))
    decreases j
  {
    if i < j {
      RunHasNoOpening(messages, clocks, i, j - 1);
      assert SameRun(messages, clocks, i, j - 1) ==>
               (!Opens(messages, clocks, j) <==> SameRun(messages, clocks, i, j));
    }
  }

  /** The flags of the rows are the predicates they were computed with. */
  lemma FlagsAre(messages: seq<Message>, me: Option<string>, clocks: Clocks)
    ensures forall k: nat :: k < |messages| ==>
              && RowAt(messages, me, clocks, k).Said?
              && RowAt(messages, me, clocks, k).opensGroup == Opens(messages, clocks, k)
              && RowAt(messages, me, clocks, k).closesGroup == Closes(messages, clocks, k)
    ensures forall k: nat :: k + 1 < |messages| ==> (Closes(messages, clocks, k) <==> Opens(messages, clocks, k + 1))
    ensures forall k: nat :: 0 < k < |messages| ==> (Opens(messages, clocks, k) <==> Closes(messages, clocks, k - 1))
  {
    forall k: nat | k < |messages|
      ensures RowAt(messages, me, clocks, k) == SaidAt(messages, me, clocks, k)
    {
      MessageRow(messages, me, clocks, k);
    }
    hide RowsOf, RowAt, SameRun;
  }

  /** The same, of the predicates. */
  ghost predicate Bracket(messages: seq<Message>, clocks: Clocks, i: nat, j: nat) {
    && i <= j < |messages|
    && Opens(messages, clocks, i) && Closes(messages, clocks, j)
    && (forall k :: i < k <= j ==> !Opens(messages, clocks, k))
    && (forall k :: i <= k < j ==> !Closes(messages, clocks, k))
  }

  lemma GroupIsBracket(messages: seq<Message>, me: Option<string>, clocks: Clocks, i: nat, j: nat)
    ensures Group(messages, me, clocks, i, j) <==> Bracket(messages, clocks, i, j)
  {
    FlagsAre(messages, me, clocks);
    hide RowAt, Opens, Closes;
  }

  /** The groups are exactly the maximal runs. */
  lemma GroupsAreRuns(messages: seq<Message>, me: Option<string>, clocks: Clocks, i: nat, j: nat)
    requires i <= j < |messages|
    ensures Group(messages, me, clocks, i, j) <==> MaximalRun(messages, clocks, i, j)
  {
    GroupIsBracket(messages, me, clocks, i, j);
    hide Group;
    RunHasNoOpening(messages, clocks, i, j);
    assert forall k :: i <= k < j ==> (Closes(messages, clocks, k) <==> Opens(messages, clocks, k + 1));
  }

  /** Where a message's group starts. */
  function GroupStart(messages: seq<Message>, clocks: Clocks, k: nat): (i: nat)
    requires k < |messages|
    ensures i <= k && Opens(messages, clocks, i)
    ensures forall m :: i < m <= k ==> !Opens(messages, clocks, m)
  {
    if Opens(messages, clocks, k) then k else GroupStart(messages, clocks, k - 1)
  }

  /** Where it ends. */
  function GroupEnd(messages: seq<Message>, clocks: Clocks, k: nat): (j: nat)
    requires k < |messages|
    ensures k <= j < |messages| && Closes(messages, clocks, j)
    ensures forall m :: k <= m < j ==> !Closes(messages, clocks, m)
    decreases |messages| - k
  {
    if Closes(messages, clocks, k) then k else GroupEnd(messages, clocks, k + 1)
  }

  /** And every message is in exactly one of them. */
  lemma EachInOneGroup(messages: seq<Message>, me: Option<string>, clocks: Clocks, k: nat, i: nat, j: nat)
    requires i <= k <= j < |messages|
    ensures Group(messages, me, clocks, i, j)
            <==> i == GroupStart(messages, clocks, k) && j == GroupEnd(messages, clocks, k)
  {
    GroupIsBracket(messages, me, clocks, i, j);
    hide Group;
    var s, e := GroupStart(messages, clocks, k), GroupEnd(messages, clocks, k);
    forall m: nat | m + 1 < |messages| ensures Closes(messages, clocks, m) <==> Opens(messages, clocks, m + 1) {
    }
    forall m: nat | 0 < m < |messages| ensures Opens(messages, clocks, m) <==> Closes(messages, clocks, m - 1) {
    }
    if Bracket(messages, clocks, i, j) {
      assert !(i < s) && !(s < i);
      assert !(j < e) && !(e < j);
    }
  }
}
