/**
 How the phone apps put a page among the messages they hold.

 Pages overlap, arrive in any order and may have been read at different times. Both apps sort what is
 held and what is new; one leaves known seqs out of the batch, the other drops every repeat.
 */
module Merge {
  import opened Wire

  function Seqs(s: seq<Message>): set<nat> {
    set m | m in s :: m.pos
  }

  // ---- A stable sort by seq ----

  /** Puts a message after everything at or below it. */
  function Insert(sorted: seq<Message>, m: Message): seq<Message> {
    if sorted == [] || sorted[|sorted| - 1].pos <= m.pos then sorted + [m]
    else Insert(sorted[..|sorted| - 1], m) + [sorted[|sorted| - 1]]
  }

  function SortBySeq(s: seq<Message>): seq<Message> {
    if s == [] then [] else Insert(SortBySeq(s[..|s| - 1]), s[|s| - 1])
  }

  // ---- The two forms ----

  /** Of the messages that share a seq, only the earliest in the list. */
  function DistinctBySeq(s: seq<Message>): seq<Message> {
    if s == [] then []
    else
      var rest, last := DistinctBySeq(s[..|s| - 1]), s[|s| - 1];
      if last.pos in Seqs(s[..|s| - 1]) then rest else rest + [last]
  }

  /** What a batch holds beyond the known seqs. */
  function Unknown(known: set<nat>, batch: seq<Message>): seq<Message> {
    if batch == [] then []
    else
      var rest, last := Unknown(known, batch[..|batch| - 1]), batch[|batch| - 1];
      if last.pos in known then rest else rest + [last]
  }

  /** The Android form: held first, repeats dropped, then sorted. */
  function MergeDistinct(held: seq<Message>, batch: seq<Message>): seq<Message> {
    SortBySeq(DistinctBySeq(held + batch))
  }

  /** The iOS form: what is known is left out of the batch, then everything is sorted. */
  function MergeUnknown(held: seq<Message>, batch: seq<Message>): seq<Message> {
    SortBySeq(held + Unknown(Seqs(held), batch))
  }

  // ---- Orders ----

  ghost predicate NoRepeats(s: seq<Message>) {
    forall i, j :: 0 <= i < j < |s| ==> s[i].pos != s[j].pos
  }

  ghost predicate StrictlySorted(s: seq<Message>) {
    forall i, j :: 0 <= i < j < |s| ==> s[i].pos < s[j].pos
  }

  lemma {:induction false} InsertKeeps(sorted: seq<Message>, m: Message)
    ensures forall x :: x in Insert(sorted, m) <==> x in sorted || x == m
    ensures |Insert(sorted, m)| == |sorted| + 1
  {
    if sorted != [] && sorted[|sorted| - 1].pos > m.pos {
      InsertKeeps(sorted[..|sorted| - 1], m);
      assert sorted == sorted[..|sorted| - 1] + [sorted[|sorted| - 1]];
    }
  }

  lemma {:induction false} InsertSorts(sorted: seq<Message>, m: Message)
    requires StrictlySorted(sorted) && m.pos !in Seqs(sorted)
    ensures StrictlySorted(Insert(sorted, m))
  {
    if sorted != [] {
      var front, last := sorted[..|sorted| - 1], sorted[|sorted| - 1];
      assert last in sorted;
      if last.pos > m.pos {
        InsertSorts(front, m);
        InsertKeeps(front, m);
        forall i | 0 <= i < |Insert(front, m)| ensures Insert(front, m)[i].pos < last.pos {
          assert Insert(front, m)[i] in Insert(front, m);
        }
      }
    }
  }

  /** Sorting keeps every message, and sorts what has no repeats strictly. */
  lemma {:induction false} SortSorts(s: seq<Message>)
    ensures forall x :: x in SortBySeq(s) <==> x in s
    ensures |SortBySeq(s)| == |s|
    ensures NoRepeats(s) ==> StrictlySorted(SortBySeq(s))
  {
    if s != [] {
      var front, last := s[..|s| - 1], s[|s| - 1];
      SortSorts(front);
      InsertKeeps(SortBySeq(front), last);
      assert s == front + [last];
      if NoRepeats(s) {
        forall m | m in front ensures m.pos != last.pos {
        }
        InsertSorts(SortBySeq(front), last);
      }
    }
  }

  /** What a strictly sorted list holds before its last message. */
  lemma FrontHolds(a: seq<Message>, m: Message)
    requires StrictlySorted(a) && a != []
    ensures m in a[..|a| - 1] <==> m in a && m != a[|a| - 1]
  {
    var front, last := a[..|a| - 1], a[|a| - 1];
    assert a == front + [last];
    if m in front {
      var i :| 0 <= i < |front| && front[i] == m;
      assert a[i].pos < last.pos;
    }
  }

  /** The last message of a strictly sorted list is its newest. */
  lemma LastIsNewest(a: seq<Message>, m: Message)
    requires StrictlySorted(a) && m in a
    ensures m == a[|a| - 1] || m.pos < a[|a| - 1].pos
  {
    var i :| 0 <= i < |a| && a[i] == m;
  }

  lemma SameLast(a: seq<Message>, b: seq<Message>)
    requires StrictlySorted(a) && StrictlySorted(b) && a != [] && b != []
    requires a[|a| - 1] in b && b[|b| - 1] in a
    ensures a[|a| - 1] == b[|b| - 1]
  {
    LastIsNewest(a, b[|b| - 1]);
    LastIsNewest(b, a[|a| - 1]);
  }

  ghost predicate SameMessages(a: seq<Message>, b: seq<Message>) {
    forall m :: m in a <==> m in b
  }

  /** Two strictly sorted lists of the same messages are both empty, or end alike and go on as two such lists. */
  lemma SortedFronts(a: seq<Message>, b: seq<Message>)
    requires StrictlySorted(a) && StrictlySorted(b) && SameMessages(a, b)
    ensures a == [] <==> b == []
    ensures a != [] ==> && a[|a| - 1] == b[|b| - 1]
                        && StrictlySorted(a[..|a| - 1]) && StrictlySorted(b[..|b| - 1])
                        && SameMessages(a[..|a| - 1], b[..|b| - 1])
  {
    HoldsSomething(a);
    HoldsSomething(b);
    if a != [] {
      assert a[|a| - 1] in b && b[|b| - 1] in a;
      SameLast(a, b);
      var p, q := a[..|a| - 1], b[..|b| - 1];
      forall m ensures m in p <==> m in q {
        FrontHolds(a, m);
        FrontHolds(b, m);
      }
    }
  }

  lemma FrontAndLast(a: seq<Message>)
    requires a != []
    ensures a == a[..|a| - 1] + [a[|a| - 1]]
  {
  }

  /** A strictly sorted list is its set of messages. */
  lemma {:induction false} SortedIsItsSet(a: seq<Message>, b: seq<Message>)
    requires StrictlySorted(a) && StrictlySorted(b)
    requires forall m :: m in a <==> m in b
    ensures a == b
  {
    SortedFronts(a, b);
    hide StrictlySorted;
    if a != [] {
      SortedIsItsSet(a[..|a| - 1], b[..|b| - 1]);
      FrontAndLast(a);
      FrontAndLast(b);
    }
  }

  lemma HoldsSomething(b: seq<Message>)
    ensures b == [] || exists m :: m in b
  {
    assert b == [] || b[0] in b;
  }

  // ---- What the two forms keep ----

  lemma {:induction false} DistinctKeeps(s: seq<Message>)
    ensures forall m :: m in DistinctBySeq(s) ==> m in s
    ensures Seqs(DistinctBySeq(s)) == Seqs(s)
    ensures NoRepeats(DistinctBySeq(s))
  {
    if s != [] {
      var front, last := s[..|s| - 1], s[|s| - 1];
      DistinctKeeps(front);
      assert s == front + [last];
      SeqsJoin(front, [last]);
      SeqsJoin(DistinctBySeq(front), [last]);
      SeqsOfOne(last);
      if last.pos !in Seqs(front) {
        NoRepeatsPush(DistinctBySeq(front), last);
      }
    }
  }

  /** One more message repeats nothing exactly when its seq is new. */
  lemma NoRepeatsPush(s: seq<Message>, m: Message)
    ensures NoRepeats(s + [m]) <==> NoRepeats(s) && m.pos !in Seqs(s)
  {
    var t := s + [m];
    assert t[|s|] == m && forall i :: 0 <= i < |s| ==> t[i] == s[i];
    if m.pos in Seqs(s) {
      var x :| x in s && x.pos == m.pos;
      var i :| 0 <= i < |s| && s[i] == x;
      assert t[i].pos == t[|s|].pos;
    } else {
      forall i | 0 <= i < |s| ensures s[i].pos != m.pos {
        assert s[i] in s;
      }
    }
  }

  /** Nothing is dropped exactly when nothing repeats. */
  lemma {:induction false} DistinctDropsRepeats(s: seq<Message>)
    ensures |DistinctBySeq(s)| <= |s|
    ensures |DistinctBySeq(s)| == |s| <==> NoRepeats(s)
    ensures NoRepeats(s) ==> DistinctBySeq(s) == s
  {
    if s != [] {
      var front, last := s[..|s| - 1], s[|s| - 1];
      DistinctDropsRepeats(front);
      assert s == front + [last];
      NoRepeatsPush(front, last);
    }
  }

  lemma SeqsJoin(a: seq<Message>, b: seq<Message>)
    ensures Seqs(a + b) == Seqs(a) + Seqs(b)
  {
    forall p | p in Seqs(a) + Seqs(b) ensures p in Seqs(a + b) {
      var m :| (m in a || m in b) && m.pos == p;
      assert m in a + b;
    }
  }

  lemma SeqsOfOne(m: Message)
    ensures Seqs([m]) == {m.pos}
  {
    assert m in [m];
  }

  lemma {:induction false} UnknownKeeps(known: set<nat>, batch: seq<Message>)
    ensures forall m :: m in Unknown(known, batch) <==> m in batch && m.pos !in known
    ensures NoRepeats(batch) ==> NoRepeats(Unknown(known, batch))
  {
    if batch != [] {
      var front, last := batch[..|batch| - 1], batch[|batch| - 1];
      UnknownKeeps(known, front);
      assert batch == front + [last];
      if NoRepeats(batch) {
        var u := Unknown(known, front);
        forall i | 0 <= i < |u| ensures u[i].pos != last.pos {
          assert u[i] in front;
        }
      }
    }
  }

  // ---- Where the forms agree ----

  /** Nothing new in the batch comes twice. */
  ghost predicate NewOnce(held: seq<Message>, batch: seq<Message>) {
    NoRepeats(Unknown(Seqs(held), batch))
  }

  /** Dropping repeats after what is held drops what is known, and then the batch's own repeats. */
  lemma {:induction false} DistinctAfterHeld(held: seq<Message>, batch: seq<Message>)
    requires NoRepeats(held)
    ensures DistinctBySeq(held + batch) == held + DistinctBySeq(Unknown(Seqs(held), batch))
  {
    if batch == [] {
      assert held + batch == held;
      DistinctDropsRepeats(held);
    } else {
      var front, last := batch[..|batch| - 1], batch[|batch| - 1];
      var u := Unknown(Seqs(held), front);
      assert (held + batch)[..|held + batch| - 1] == held + front;
      assert (u + [last])[..|u|] == u;
      DistinctAfterHeld(held, front);
      UnknownSeqs(held, front);
    }
  }

  lemma UnknownSeqs(held: seq<Message>, batch: seq<Message>)
    ensures Seqs(held + batch) == Seqs(held) + Seqs(Unknown(Seqs(held), batch))
  {
    SeqsJoin(held, batch);
    UnknownKeeps(Seqs(held), batch);
    var u := Unknown(Seqs(held), batch);
    forall p | p in Seqs(batch) && p !in Seqs(held) ensures p in Seqs(u) {
      var m :| m in batch && m.pos == p;
      assert m in u;
    }
    forall p | p in Seqs(u) ensures p in Seqs(batch) {
      var m :| m in u && m.pos == p;
      assert m in batch;
    }
  }

  /**
   The two forms agree on a batch exactly when nothing new in it comes twice. Every page does, since
   a page is in order; a batch that did not would be kept twice by the iOS form.
   */
  lemma FormsAgreeIff(held: seq<Message>, batch: seq<Message>)
    requires NoRepeats(held)
    ensures MergeUnknown(held, batch) == MergeDistinct(held, batch) <==> NewOnce(held, batch)
    ensures StrictlySorted(batch) ==> NewOnce(held, batch)
  {
    var u := Unknown(Seqs(held), batch);
    DistinctAfterHeld(held, batch);
    DistinctDropsRepeats(u);
    UnknownKeeps(Seqs(held), batch);
    SortSorts(held + u);
    SortSorts(held + DistinctBySeq(u));
  }

  /** One batch that repeats something new: iOS would hold it twice. */
  lemma RepeatIsHeldTwice(m: Message)
    ensures MergeUnknown([], [m, m]) == [m, m] && MergeDistinct([], [m, m]) == [m]
  {
    assert [m, m][..1] == [m];
    assert [m][..0] == [];
    assert Unknown({}, []) == [] && Unknown({}, [m]) == [m] && Unknown({}, [m, m]) == [m, m];
    assert [] + [m, m] == [m, m];
    assert Seqs([]) == {};
    SeqsOfOne(m);
    assert DistinctBySeq([m]) == [m] && DistinctBySeq([m, m]) == [m];
    assert SortBySeq([]) == [] && SortBySeq([m]) == [m] && SortBySeq([m, m]) == [m, m];
  }

  /** A message that is held stays held, and a different one under its seq never takes its place. */
  lemma HeldIsNotReplaced(held: seq<Message>, batch: seq<Message>)
    requires NoRepeats(held)
    ensures StrictlySorted(MergeDistinct(held, batch))
    ensures Seqs(MergeDistinct(held, batch)) == Seqs(held) + Seqs(batch)
    ensures forall m :: m in held ==> m in MergeDistinct(held, batch)
    ensures forall m :: m in MergeDistinct(held, batch) ==> m in held || (m in batch && m.pos !in Seqs(held))
  {
    var u := Unknown(Seqs(held), batch);
    DistinctAfterHeld(held, batch);
    DistinctKeeps(held + batch);
    DistinctKeeps(u);
    UnknownKeeps(Seqs(held), batch);
    SeqsJoin(held, batch);
    SortSorts(DistinctBySeq(held + batch));
    assert Seqs(SortBySeq(DistinctBySeq(held + batch))) == Seqs(DistinctBySeq(held + batch));
  }

  // ---- Any order of pages ----

  /** A log restricted to some seqs. */
  function Pick(log: seq<Message>, seqs: set<nat>): seq<Message> {
    if log == [] then []
    else
      var rest, last := Pick(log[..|log| - 1], seqs), log[|log| - 1];
      if last.pos in seqs then rest + [last] else rest
  }

  lemma {:induction false} PickPicks(log: seq<Message>, seqs: set<nat>)
    requires StrictlySorted(log)
    ensures StrictlySorted(Pick(log, seqs))
    ensures forall m :: m in Pick(log, seqs) <==> m in log && m.pos in seqs
  {
    if log != [] {
      var front, last := log[..|log| - 1], log[|log| - 1];
      PickPicks(front, seqs);
      assert log == front + [last];
      var p := Pick(front, seqs);
      forall i | 0 <= i < |p| ensures p[i].pos < last.pos {
        assert p[i] in front;
      }
    }
  }

  /** Every message of a list is one of the log's own. */
  ghost predicate From(log: seq<Message>, s: seq<Message>) {
    forall m :: m in s ==> m in log
  }

  /** In a log a seq names one message. */
  lemma SeqNamesMessage(log: seq<Message>, a: Message, b: Message)
    requires StrictlySorted(log) && a in log && b in log && a.pos == b.pos
    ensures a == b
  {
  }

  /** Merging into a restriction of the log restricts it to the batch's seqs as well, in either form. */
  lemma MergePicks(log: seq<Message>, held: seq<Message>, batch: seq<Message>)
    requires StrictlySorted(log) && From(log, held) && From(log, batch) && StrictlySorted(held)
    ensures MergeDistinct(held, batch) == Pick(log, Seqs(held) + Seqs(batch))
    ensures NewOnce(held, batch) ==> MergeUnknown(held, batch) == Pick(log, Seqs(held) + Seqs(batch))
  {
    var merged, seqs := MergeDistinct(held, batch), Seqs(held) + Seqs(batch);
    HeldIsNotReplaced(held, batch);
    FormsAgreeIff(held, batch);
    PickPicks(log, seqs);
    forall m ensures m in merged <==> m in Pick(log, seqs) {
      if m in log && m.pos in seqs {
        assert m.pos in Seqs(merged);
        var x :| x in merged && x.pos == m.pos;
        SeqNamesMessage(log, x, m);
      }
    }
    SortedIsItsSet(merged, Pick(log, seqs));
  }

  /** Pages merged one after another. */
  function MergeAll(pages: seq<seq<Message>>, merge: (seq<Message>, seq<Message>) -> seq<Message>): seq<Message> {
    if pages == [] then [] else merge(MergeAll(pages[..|pages| - 1], merge), pages[|pages| - 1])
  }

  function AllSeqs(pages: seq<seq<Message>>): set<nat> {
    set page, m | page in pages && m in page :: m.pos
  }

  lemma AllSeqsPush(pages: seq<seq<Message>>)
    requires pages != []
    ensures AllSeqs(pages) == AllSeqs(pages[..|pages| - 1]) + Seqs(pages[|pages| - 1])
  {
    var front, last := pages[..|pages| - 1], pages[|pages| - 1];
    assert pages == front + [last];
    forall p | p in AllSeqs(pages) ensures p in AllSeqs(front) + Seqs(last) {
      var page, m :| page in pages && m in page && m.pos == p;
      assert page in front || page == last;
    }
  }

  /**
   Whatever pages of a log are merged, in whatever order and however they overlap, what is held is
   the log restricted to the seqs they cover, and nothing else decides it.
   */
  lemma {:induction false} AnyOrderOfPages(log: seq<Message>, pages: seq<seq<Message>>)
    requires StrictlySorted(log)
    requires forall page :: page in pages ==> From(log, page) && StrictlySorted(page)
    ensures MergeAll(pages, MergeDistinct) == Pick(log, AllSeqs(pages))
    ensures MergeAll(pages, MergeUnknown) == Pick(log, AllSeqs(pages))
  {
    if pages == [] {
      PickPicks(log, {});
      HoldsSomething(Pick(log, {}));
      assert AllSeqs(pages) == {};
    } else {
      var front, last := pages[..|pages| - 1], pages[|pages| - 1];
      AnyOrderOfPages(log, front);
      AllSeqsPush(pages);
      PickPicks(log, AllSeqs(front));
      var held := Pick(log, AllSeqs(front));
      PickedSeqs(log, front);
      MergePicks(log, held, last);
      FormsAgreeIff(held, last);
    }
  }

  lemma PickedSeqs(log: seq<Message>, pages: seq<seq<Message>>)
    requires StrictlySorted(log)
    requires forall page :: page in pages ==> From(log, page)
    ensures Seqs(Pick(log, AllSeqs(pages))) == AllSeqs(pages)
  {
    PickPicks(log, AllSeqs(pages));
    forall p | p in AllSeqs(pages) ensures p in Seqs(Pick(log, AllSeqs(pages))) {
      var page, m :| page in pages && m in page && m.pos == p;
      assert m in Pick(log, AllSeqs(pages));
    }
  }

  /** So two apps that were given the same seqs, in different orders and forms, hold the same. */
  lemma {:induction false} MergeIsConfluent(log: seq<Message>, one: seq<seq<Message>>, other: seq<seq<Message>>)
    requires StrictlySorted(log) && AllSeqs(one) == AllSeqs(other)
    requires forall page :: page in one || page in other ==> From(log, page) && StrictlySorted(page)
    ensures MergeAll(one, MergeDistinct) == MergeAll(other, MergeUnknown)
    ensures MergeAll(one, MergeDistinct) == MergeAll(other, MergeDistinct)
  {
    AnyOrderOfPages(log, one);
    AnyOrderOfPages(log, other);
  }
}
