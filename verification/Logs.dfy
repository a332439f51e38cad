/**
 A room's log: its messages in the order the server numbered them.

 The windows (`Above`, `Below`, `Between`) are defined as filters on `pos`. On a log in order they
 are slices, cut at `Rank`, and that is what every proof about paging and cursors uses.
 */
module Logs {
  import opened Wire

  /** The sequence is strictly increasing, and numbering starts above START. */
  ghost predicate Ascending(log: seq<Message>) {
    && (forall i :: 0 <= i < |log| ==> log[i].pos > START)
    && forall i, j :: 0 <= i < j < |log| ==> log[i].pos < log[j].pos
  }

  /** The position of the newest message, or START in an empty log. */
  function Newest(log: seq<Message>): nat {
    if log == [] then START else log[|log| - 1].pos
  }

  /** The messages above `lo`, exclusive. */
  function Above(log: seq<Message>, lo: nat): seq<Message> {
    if log == [] then []
    else
      var rest := Above(log[..|log| - 1], lo);
      if log[|log| - 1].pos > lo then rest + [log[|log| - 1]] else rest
  }

  /** The messages below `hi`, exclusive. */
  function Below(log: seq<Message>, hi: nat): seq<Message> {
    if log == [] then []
    else
      var rest := Below(log[..|log| - 1], hi);
      if log[|log| - 1].pos < hi then rest + [log[|log| - 1]] else rest
  }

  /** The messages with `lo < pos <= hi`. */
  function Between(log: seq<Message>, lo: nat, hi: nat): seq<Message> {
    if log == [] then []
    else
      var rest := Between(log[..|log| - 1], lo, hi);
      if lo < log[|log| - 1].pos <= hi then rest + [log[|log| - 1]] else rest
  }

  lemma AbovePush(log: seq<Message>, m: Message, lo: nat)
    ensures Above(log + [m], lo) == if m.pos > lo then Above(log, lo) + [m] else Above(log, lo)
  {
    assert (log + [m])[..|log|] == log;
  }

  lemma BelowPush(log: seq<Message>, m: Message, hi: nat)
    ensures Below(log + [m], hi) == if m.pos < hi then Below(log, hi) + [m] else Below(log, hi)
  {
    assert (log + [m])[..|log|] == log;
  }

  /** How many messages sit at `c` or below it. */
  function Rank(log: seq<Message>, c: nat): (k: nat)
    ensures k <= |log|
  {
    if log == [] then 0
    else Rank(log[..|log| - 1], c) + if log[|log| - 1].pos <= c then 1 else 0
  }

  /** A message at or below `c` has every earlier one there with it. */
  lemma {:induction false} RankFull(log: seq<Message>, c: nat)
    requires Ascending(log) && Newest(log) <= c
    ensures Rank(log, c) == |log|
  {
    if log != [] {
      var front := log[..|log| - 1];
      assert front != [] ==> front[|front| - 1].pos < log[|log| - 1].pos;
      RankFull(front, c);
    }
  }

  lemma RankStep(log: seq<Message>, c: nat)
    requires Ascending(log) && log != []
    ensures var front := log[..|log| - 1];
            if log[|log| - 1].pos <= c then Rank(front, c) == |front| && Rank(log, c) == |log|
            else Rank(log, c) == Rank(front, c)
  {
    if log[|log| - 1].pos <= c {
      RankFull(log, c);
    }
  }

  /** `Rank` is the cut: everything before it is at or below `c`, everything from it on is above. */
  lemma {:induction false} RankCuts(log: seq<Message>, c: nat)
    requires Ascending(log)
    ensures forall i :: 0 <= i < |log| ==> (i < Rank(log, c) <==> log[i].pos <= c)
  {
    if log != [] {
      var front := log[..|log| - 1];
      RankCuts(front, c);
      RankStep(log, c);
      assert forall i :: 0 <= i < |front| ==> log[i] == front[i];
    }
  }

  lemma RankMonotone(log: seq<Message>, c: nat, d: nat)
    requires c <= d
    ensures Rank(log, c) <= Rank(log, d)
  {
  }

  /** The rank of a message's own position is one past its index. */
  lemma {:induction false} RankAt(log: seq<Message>, i: nat)
    requires Ascending(log) && i < |log|
    ensures Rank(log, log[i].pos) == i + 1
    ensures Rank(log, log[i].pos - 1) == i
  {
    RankStep(log, log[i].pos);
    RankStep(log, log[i].pos - 1);
    if i < |log| - 1 {
      RankAt(log[..|log| - 1], i);
    } else {
      RankFull(log[..i], log[i].pos - 1);
    }
  }

  lemma {:induction false} AboveIsSlice(log: seq<Message>, lo: nat)
    requires Ascending(log)
    ensures Above(log, lo) == log[Rank(log, lo)..]
  {
    if log != [] {
      var front := log[..|log| - 1];
      AboveIsSlice(front, lo);
      RankStep(log, lo);
      if log[|log| - 1].pos > lo {
        assert log[Rank(front, lo)..] == front[Rank(front, lo)..] + [log[|log| - 1]];
      }
    }
  }

  /** Everything is below a bound past the end. */
  lemma {:induction false} BelowIsAll(log: seq<Message>, hi: nat)
    requires Ascending(log) && Newest(log) < hi
    ensures Below(log, hi) == log
  {
    if log != [] {
      var front := log[..|log| - 1];
      assert front != [] ==> front[|front| - 1].pos < log[|log| - 1].pos;
      BelowIsAll(front, hi);
    }
  }

  lemma {:induction false} BelowIsSlice(log: seq<Message>, hi: nat)
    requires Ascending(log) && hi > 0
    ensures Below(log, hi) == log[..Rank(log, hi - 1)]
  {
    if Newest(log) < hi {
      RankFull(log, hi - 1);
      BelowIsAll(log, hi);
    } else {
      var front := log[..|log| - 1];
      BelowIsSlice(front, hi);
      RankStep(log, hi - 1);
      assert front[..Rank(front, hi - 1)] == log[..Rank(front, hi - 1)];
    }
  }

  /** A window whose upper end is past the log has no upper end. */
  lemma {:induction false} BetweenIsAbove(log: seq<Message>, lo: nat, hi: nat)
    requires Ascending(log) && Newest(log) <= hi
    ensures Between(log, lo, hi) == Above(log, lo)
  {
    if log != [] {
      var front := log[..|log| - 1];
      assert front != [] ==> front[|front| - 1].pos < log[|log| - 1].pos;
      BetweenIsAbove(front, lo, hi);
    }
  }

  lemma {:induction false} BetweenIsSlice(log: seq<Message>, lo: nat, hi: nat)
    requires Ascending(log) && lo <= hi
    ensures Rank(log, lo) <= Rank(log, hi)
    ensures Between(log, lo, hi) == log[Rank(log, lo)..Rank(log, hi)]
  {
    RankMonotone(log, lo, hi);
    if Newest(log) <= hi {
      RankFull(log, hi);
      BetweenIsAbove(log, lo, hi);
      AboveIsSlice(log, lo);
    } else {
      var front := log[..|log| - 1];
      BetweenIsSlice(front, lo, hi);
      RankStep(log, lo);
      RankStep(log, hi);
      assert log[Rank(front, lo)..Rank(front, hi)] == front[Rank(front, lo)..Rank(front, hi)];
    }
  }

  /** A window grows by exactly the window that follows it. */
  lemma {:induction false} BetweenJoins(log: seq<Message>, lo: nat, mid: nat, hi: nat)
    requires Ascending(log) && lo <= mid <= hi
    ensures Between(log, lo, mid) + Between(log, mid, hi) == Between(log, lo, hi)
  {
    hide Rank, Between;
    BetweenIsSlice(log, lo, mid);
    BetweenIsSlice(log, mid, hi);
    BetweenIsSlice(log, lo, hi);
  }

  /** Appending above `hi` leaves the window as it was. */
  lemma BetweenUnmoved(log: seq<Message>, m: Message, lo: nat, hi: nat)
    requires m.pos > hi || lo >= hi
    ensures Between(log + [m], lo, hi) == Between(log, lo, hi)
  {
    assert (log + [m])[..|log|] == log;
  }

  lemma AscendingPush(log: seq<Message>, m: Message)
    requires Ascending(log) && m.pos > Newest(log)
    ensures Ascending(log + [m])
  {
    var grown := log + [m];
    forall i, j | 0 <= i < j < |grown| ensures grown[i].pos < grown[j].pos {
      if j == |log| {
        assert log[i].pos <= Newest(log);
      }
    }
  }

  lemma AtMostNewest(log: seq<Message>, i: nat)
    requires Ascending(log) && i < |log|
    ensures START < log[i].pos <= Newest(log)
  {
  }

  /** The newest message is past a position exactly when some message is. */
  lemma NewestIsPast(log: seq<Message>, c: nat)
    requires Ascending(log)
    ensures Newest(log) > c <==> exists i :: 0 <= i < |log| && log[i].pos > c
  {
  }

  /** A run of the log from the first message above `c` on is the window from `c` to the run's own end. */
  lemma {:induction false} RunIsWindow(log: seq<Message>, c: nat, e: nat)
    requires Ascending(log) && Rank(log, c) <= e < |log|
    ensures c < log[e].pos <= Newest(log)
    ensures Between(log, c, log[e].pos) == log[Rank(log, c)..e + 1]
  {
    RankCuts(log, c);
    AtMostNewest(log, e);
    RankAt(log, e);
    hide Rank, Between, Ascending;
    BetweenIsSlice(log, c, log[e].pos);
  }

  /** The window to the end is everything above `c`. */
  lemma {:induction false} RestIsWindow(log: seq<Message>, c: nat)
    requires Ascending(log)
    ensures Between(log, c, Max(c, Newest(log))) == log[Rank(log, c)..]
    ensures Newest(log) <= c <==> Rank(log, c) == |log|
  {
    RankCuts(log, c);
    RankFull(log, Max(c, Newest(log)));
    BetweenIsSlice(log, c, Max(c, Newest(log)));
    hide Rank, Between;
  }

  /** The page the server gives for a cursor is exactly the window up to the page's own end. */
  lemma {:induction false} PageIsWindow(log: seq<Message>, c: nat, limit: nat)
    requires Ascending(log) && limit > 0
    ensures var page := FirstN(Above(log, c), limit);
            && (page == [] <==> Newest(log) <= c)
            && (page != [] ==> c < Newest(page) <= Newest(log) && Between(log, c, Newest(page)) == page)
            && (|page| < limit ==> page == Above(log, c) == Between(log, c, Max(c, Newest(log))))
  {
    hide Rank, Between, Above;
    AboveIsSlice(log, c);
    RestIsWindow(log, c);
    var r := Rank(log, c);
    var page := FirstN(Above(log, c), limit);
    if page != [] {
      var e := r + |page| - 1;
      assert page == log[r..e + 1];
      assert page[|page| - 1] == log[e];
      RunIsWindow(log, c, e);
    }
  }

  /** The end of a log from one of its messages on is the window from just before that message. */
  lemma {:induction false} TailIsWindow(log: seq<Message>, s: nat)
    requires Ascending(log) && s < |log|
    ensures log[s].pos <= Newest(log)
    ensures Between(log, log[s].pos - 1, Newest(log)) == log[s..]
  {
    AtMostNewest(log, s);
    RankAt(log, s);
    var c := log[s].pos - 1;
    RestIsWindow(log, c);
    hide Rank, Between, Ascending;
    assert Max(c, Newest(log)) == Newest(log);
  }

  /** The newest page is the window from just before its own first message to the end. */
  lemma {:induction false} NewestPageIsWindow(log: seq<Message>, limit: nat)
    requires Ascending(log) && limit > 0
    ensures var page := LastN(log, limit);
            && (page == [] <==> log == [])
            && Newest(page) == Newest(log)
            && (page != [] ==> Between(log, page[0].pos - 1, Newest(log)) == page)
  {
    hide Rank, Between;
    if log != [] {
      var page := LastN(log, limit);
      var s := |log| - |page|;
      assert page == log[s..];
      TailIsWindow(log, s);
    }
  }
}
