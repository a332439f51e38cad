/**
 Creating a room, or registering an account: two statements that other requests can run between.

 The first inserts the name unless the cap is reached or the name is held; the second reads what
 now holds it. The module proves that any interleaving of any number of creations is equivalent to
 running them one at a time, in the order of their inserts.
 */
module NameTable {
  import opened Wire

  /** One row: rooms leave `hash` empty, accounts keep the password hash there. */
  datatype Entry = Entry(id: nat, name: string, hash: string)

  // ---- Names, as COLLATE NOCASE compares them ----

  function FoldChar(c: char): char {
    if 'A' <= c <= 'Z' then ((c as int) + 32) as char else c
  }

  /** Folds ASCII letters to lower case and leaves every other character alone. */
  function Fold(name: string): (f: string)
    ensures |f| == |name|
  {
    seq(|name|, i requires 0 <= i < |name| => FoldChar(name[i]))
  }

  predicate SameName(a: string, b: string) {
    Fold(a) == Fold(b)
  }

  /** The same character, or the two cases of one ASCII letter. */
  predicate SameLetter(a: char, b: char) {
    || a == b
    || ('A' <= a <= 'Z' && 'a' <= b <= 'z' && b as int - a as int == 32)
    || ('a' <= a <= 'z' && 'A' <= b <= 'Z' && a as int - b as int == 32)
  }

  /** Names that read alike but for the case of their ASCII letters. */
  ghost predicate SameButForCase(a: string, b: string) {
    |a| == |b| && forall i :: 0 <= i < |a| ==> SameLetter(a[i], b[i])
  }

  /** The comparison holds exactly of names that differ in ASCII case alone. */
  lemma SameNameIff(a: string, b: string)
    ensures SameName(a, b) <==> SameButForCase(a, b)
  {
    var f, g := Fold(a), Fold(b);
    if SameName(a, b) {
      assert |a| == |b|;
      forall i | 0 <= i < |a| ensures SameLetter(a[i], b[i]) {
        assert f[i] == g[i];
      }
    }
    if SameButForCase(a, b) {
      assert forall i :: 0 <= i < |a| ==> f[i] == g[i];
    }
  }

  /** The row holding a name, if any. */
  function Find(table: seq<Entry>, name: string): (found: Option<Entry>)
    ensures found.Some? ==> found.value in table && SameName(found.value.name, name)
    ensures found.None? ==> forall e :: e in table ==> !SameName(e.name, name)
  {
    if table == [] then None
    else if SameName(table[0].name, name) then Some(table[0])
    else Find(table[1..], name)
  }

  /** A name is found exactly when some row holds it in any casing, and what is found does. */
  lemma FindIsByCase(table: seq<Entry>, name: string)
    ensures Find(table, name).Some? <==> exists e :: e in table && SameButForCase(e.name, name)
    ensures Find(table, name).Some? ==>
              Find(table, name).value in table && SameButForCase(Find(table, name).value.name, name)
  {
    hide SameName, SameButForCase;
    forall e | e in table ensures SameName(e.name, name) <==> SameButForCase(e.name, name) {
      SameNameIff(e.name, name);
    }
  }

  /** The key the next row is given: one past the largest. */
  function NextId(table: seq<Entry>): nat {
    if table == [] then 1 else table[|table| - 1].id + 1
  }

  // ---- The two statements ----

  /** The insert, which checks the cap and the name itself. Answers whether a row was written. */
  function TryInsert(table: seq<Entry>, cap: nat, name: string, hash: string): (seq<Entry>, bool) {
    if |table| < cap && Find(table, name).None?
    then (table + [Entry(NextId(table), name, hash)], true)
    else (table, false)
  }

  datatype Outcome = Created(entry: Entry) | Existing(entry: Entry) | CapExceeded

  /** What the second statement concludes from the row it reads. */
  function Conclude(table: seq<Entry>, name: string, inserted: bool): Outcome {
    match Find(table, name)
    case None => CapExceeded
    case Some(entry) => if inserted then Created(entry) else Existing(entry)
  }

  /** Both statements with nothing between them. */
  function CreateAtOnce(table: seq<Entry>, cap: nat, name: string, hash: string): (seq<Entry>, Outcome) {
    var (after, inserted) := TryInsert(table, cap, name, hash);
    (after, Conclude(after, name, inserted))
  }

  // ---- Interleavings ----

  datatype Call =
    | Asked(name: string, hash: string)
    | Tried(name: string, hash: string, inserted: bool, turn: nat)
    | Done(name: string, hash: string, outcome: Outcome, turn: nat)

  /**
   A creation of a room always reads the row back; a registration that inserted returns at once.
   `order` records which call inserted when; nothing reads it but the proofs.
   */
  datatype State = State(table: seq<Entry>, cap: nat, rereads: bool, calls: map<nat, Call>, order: seq<nat>)

  datatype Event =
    | Ask(id: nat, name: string, hash: string)
    | Insert(id: nat)
    | Read(id: nat)

  function Step(s: State, e: Event): State {
    match e
    case Ask(id, name, hash) =>
      if id in s.calls then s else s.(calls := s.calls[id := Asked(name, hash)])
    case Insert(id) =>
      if id in s.calls && s.calls[id].Asked? then
        var Asked(name, hash) := s.calls[id];
        var (table, inserted) := TryInsert(s.table, s.cap, name, hash);
        var call := if inserted && !s.rereads
                    then Done(name, hash, Created(table[|table| - 1]), |s.order|)
                    else Tried(name, hash, inserted, |s.order|);
        s.(table := table, calls := s.calls[id := call], order := s.order + [id])
      else s
    case Read(id) =>
      if id in s.calls && s.calls[id].Tried? then
        var Tried(name, hash, inserted, turn) := s.calls[id];
        s.(calls := s.calls[id := Done(name, hash, Conclude(s.table, name, inserted), turn)])
      else s
  }

  function Run(s: State, events: seq<Event>): State {
    if events == [] then s else Step(Run(s, events[..|events| - 1]), events[|events| - 1])
  }

  lemma RunPush(s: State, events: seq<Event>, e: Event)
    ensures Run(s, events + [e]) == Step(Run(s, events), e)
  {
    assert (events + [e])[..|events|] == events;
  }

  function Start(table: seq<Entry>, cap: nat, rereads: bool): State {
    State(table, cap, rereads, map[], [])
  }

  // ---- The sequential reference ----

  datatype Want = Want(name: string, hash: string)

  /** The calls made one at a time: the table they leave and what each is told. */
  function OneAtATime(table: seq<Entry>, cap: nat, wants: seq<Want>): (r: (seq<Entry>, seq<Outcome>))
    ensures |r.1| == |wants|
  {
    if wants == [] then (table, [])
    else
      var (before, outcomes) := OneAtATime(table, cap, wants[..|wants| - 1]);
      var want := wants[|wants| - 1];
      var (after, outcome) := CreateAtOnce(before, cap, want.name, want.hash);
      (after, outcomes + [outcome])
  }

  /** What the calls of a run wanted, in the order their inserts ran. */
  function Wants(s: State): (w: seq<Want>)
    requires forall i :: 0 <= i < |s.order| ==> s.order[i] in s.calls
    ensures |w| == |s.order|
  {
    seq(|s.order|, i requires 0 <= i < |s.order| => Want(s.calls[s.order[i]].name, s.calls[s.order[i]].hash))
  }

  // ---- Why a later read still answers for the insert ----

  /** A name once held is held by the same row for good. */
  lemma {:induction false} FindKeeps(table: seq<Entry>, more: seq<Entry>, name: string)
    requires Find(table, name).Some?
    ensures Find(table + more, name) == Find(table, name)
  {
    if !SameName(table[0].name, name) {
      assert (table + more)[1..] == table[1..] + more;
      FindKeeps(table[1..], more, name);
    }
  }

  lemma {:induction false} FindNew(table: seq<Entry>, entry: Entry, name: string)
    requires Find(table, name).None?
    ensures Find(table + [entry], name) == if SameName(entry.name, name) then Some(entry) else None
  {
    if table != [] {
      assert (table + [entry])[1..] == table[1..] + [entry];
      FindNew(table[1..], entry, name);
    }
  }

  /** What was settled by an insert: the answer a read gives then, and at any later table. */
  ghost predicate Settled(table: seq<Entry>, cap: nat, name: string, outcome: Outcome) {
    match outcome
    case CapExceeded => Find(table, name).None? && |table| >= cap
    case Created(e) => Find(table, name) == Some(e)
    case Existing(e) => Find(table, name) == Some(e)
  }

  lemma InsertSettles(table: seq<Entry>, cap: nat, name: string, hash: string)
    ensures var (after, outcome) := CreateAtOnce(table, cap, name, hash);
            && Settled(after, cap, name, outcome)
            && (outcome.Created? <==> TryInsert(table, cap, name, hash).1)
            && (outcome.Created? <==> Find(table, name).None? && |table| < cap)
            && (outcome.Existing? <==> Find(table, name).Some?)
            && (outcome.CapExceeded? <==> Find(table, name).None? && |table| >= cap)
            && (outcome.Created? ==>
                  outcome.entry == Entry(NextId(table), name, hash) && after == table + [outcome.entry])
            && (!outcome.Created? ==> after == table)
  {
    if |table| < cap && Find(table, name).None? {
      FindNew(table, Entry(NextId(table), name, hash), name);
    }
  }

  /** An insert by anyone leaves every settled answer as it was. */
  lemma SettledKeeps(table: seq<Entry>, cap: nat, name: string, outcome: Outcome, other: string, hash: string)
    requires Settled(table, cap, name, outcome)
    ensures Settled(TryInsert(table, cap, other, hash).0, cap, name, outcome)
  {
    if Find(table, name).Some? {
      FindKeeps(table, [Entry(NextId(table), other, hash)], name);
    }
  }

  // ---- Linearizability ----

  /** Every call that has inserted sits at its turn. */
  ghost predicate InOrder(s: State) {
    && (forall i :: 0 <= i < |s.order| ==>
          s.order[i] in s.calls && !s.calls[s.order[i]].Asked? && s.calls[s.order[i]].turn == i)
    && (forall id :: id in s.calls && !s.calls[id].Asked? ==>
          s.calls[id].turn < |s.order| && s.order[s.calls[id].turn] == id)
  }

  /** What a call knows, or will be told, is the outcome its turn gave it. */
  ghost predicate Agrees(table: seq<Entry>, cap: nat, call: Call, outcomes: seq<Outcome>) {
    !call.Asked? ==>
      && call.turn < |outcomes|
      && Settled(table, cap, call.name, outcomes[call.turn])
      && (call.Tried? ==> (call.inserted <==> outcomes[call.turn].Created?))
      && (call.Done? ==> call.outcome == outcomes[call.turn])
  }

  ghost predicate Linear(base: seq<Entry>, s: State) {
    && InOrder(s)
    && var (table, outcomes) := OneAtATime(base, s.cap, Wants(s));
    && s.table == table
    && forall id :: id in s.calls ==> Agrees(s.table, s.cap, s.calls[id], outcomes)
  }

  /** An insert leaves every other call in agreement with the outcomes, which gain one. */
  lemma OthersAgree(s: State, name: string, hash: string, outcomes: seq<Outcome>, outcome: Outcome, id: nat)
    requires forall other :: other in s.calls ==> Agrees(s.table, s.cap, s.calls[other], outcomes)
    ensures var table := TryInsert(s.table, s.cap, name, hash).0;
            forall other :: other in s.calls && other != id ==>
              Agrees(table, s.cap, s.calls[other], outcomes + [outcome])
  {
    hide Settled, TryInsert;
    forall other | other in s.calls && other != id
      ensures Agrees(TryInsert(s.table, s.cap, name, hash).0, s.cap, s.calls[other], outcomes + [outcome])
    {
      if !s.calls[other].Asked? {
        SettledKeeps(s.table, s.cap, s.calls[other].name, outcomes[s.calls[other].turn], name, hash);
      }
    }
  }

  lemma InsertKeepsOrder(s: State, id: nat)
    requires InOrder(s) && id in s.calls && s.calls[id].Asked?
    ensures InOrder(Step(s, Insert(id)))
    ensures Wants(Step(s, Insert(id))) == Wants(s) + [Want(s.calls[id].name, s.calls[id].hash)]
  {
    hide TryInsert;
  }

  lemma OneMore(table: seq<Entry>, cap: nat, wants: seq<Want>, want: Want)
    ensures var (before, outcomes) := OneAtATime(table, cap, wants);
            var (after, outcome) := CreateAtOnce(before, cap, want.name, want.hash);
            OneAtATime(table, cap, wants + [want]) == (after, outcomes + [outcome])
  {
    assert (wants + [want])[..|wants|] == wants;
  }

  /** The call that inserts is answered, now or when it reads, with the outcome of its own turn. */
  lemma InserterAgrees(s: State, id: nat, outcomes: seq<Outcome>)
    requires id in s.calls && s.calls[id].Asked? && |outcomes| == |s.order|
    ensures var t, outcome := Step(s, Insert(id)), CreateAtOnce(s.table, s.cap, s.calls[id].name, s.calls[id].hash).1;
            && Agrees(t.table, t.cap, t.calls[id], outcomes + [outcome])
            && t.table == CreateAtOnce(s.table, s.cap, s.calls[id].name, s.calls[id].hash).0
            && t.table == TryInsert(s.table, s.cap, s.calls[id].name, s.calls[id].hash).0
            && t.cap == s.cap && t.calls.Keys == s.calls.Keys
            && forall other :: other in s.calls && other != id ==> t.calls[other] == s.calls[other]
  {
    InsertSettles(s.table, s.cap, s.calls[id].name, s.calls[id].hash);
    hide Settled, Find;
  }

  lemma InsertIsLinear(base: seq<Entry>, s: State, id: nat)
    requires Linear(base, s) && id in s.calls && s.calls[id].Asked?
    ensures Linear(base, Step(s, Insert(id)))
  {
    var Asked(name, hash) := s.calls[id];
    var outcomes := OneAtATime(base, s.cap, Wants(s)).1;
    InsertKeepsOrder(s, id);
    OneMore(base, s.cap, Wants(s), Want(name, hash));
    InserterAgrees(s, id, outcomes);
    OthersAgree(s, name, hash, outcomes, CreateAtOnce(s.table, s.cap, name, hash).1, id);
    hide Step, InOrder, Agrees, OneAtATime, CreateAtOnce, TryInsert, Wants;
  }

  /** A call that has only been asked, or that reads, leaves the order and the wants as they were. */
  lemma QuietKeepsOrder(s: State, e: Event)
    requires InOrder(s) && !e.Insert?
    ensures InOrder(Step(s, e)) && Wants(Step(s, e)) == Wants(s)
    ensures Step(s, e).table == s.table && Step(s, e).cap == s.cap
  {
    hide Conclude;
    assert InOrder(Step(s, e));
    assert forall i :: 0 <= i < |s.order| ==> Wants(Step(s, e))[i] == Wants(s)[i];
  }

  lemma QuietAgrees(s: State, e: Event, outcomes: seq<Outcome>)
    requires !e.Insert? && forall id :: id in s.calls ==> Agrees(s.table, s.cap, s.calls[id], outcomes)
    ensures var t := Step(s, e); forall id :: id in t.calls ==> Agrees(s.table, s.cap, t.calls[id], outcomes)
  {
    if e.Read? && e.id in s.calls {
      assert Agrees(s.table, s.cap, s.calls[e.id], outcomes);
    }
  }

  lemma StepIsLinear(base: seq<Entry>, s: State, e: Event)
    requires Linear(base, s)
    ensures Linear(base, Step(s, e))
  {
    if !e.Insert? {
      QuietKeepsOrder(s, e);
      QuietAgrees(s, e, OneAtATime(base, s.cap, Wants(s)).1);
      hide Step, InOrder, Agrees, OneAtATime, Wants;
    } else if e.id in s.calls && s.calls[e.id].Asked? {
      InsertIsLinear(base, s, e.id);
    }
  }

  /**
   Any interleaving leaves the table, and tells each call, exactly what running the same calls one
   at a time in the order of their inserts would have.
   */
  lemma {:induction false} Linearizable(base: seq<Entry>, cap: nat, rereads: bool, events: seq<Event>)
    ensures var s := Run(Start(base, cap, rereads), events);
            && Linear(base, s)
            && s.cap == cap
            && s.table == OneAtATime(base, cap, Wants(s)).0
            && forall id :: id in s.calls && s.calls[id].Done? ==>
                 s.calls[id].outcome == OneAtATime(base, cap, Wants(s)).1[s.calls[id].turn]
  {
    if events == [] {
      assert Wants(Start(base, cap, rereads)) == [];
    } else {
      Linearizable(base, cap, rereads, events[..|events| - 1]);
      StepIsLinear(base, Run(Start(base, cap, rereads), events[..|events| - 1]), events[|events| - 1]);
    }
  }

  lemma {:induction false} RunJoins(s: State, first: seq<Event>, next: seq<Event>)
    ensures Run(s, first + next) == Run(Run(s, first), next)
  {
    if next == [] {
      assert first + next == first;
    } else {
      var front := next[..|next| - 1];
      assert (first + next)[..|first + next| - 1] == first + front;
      RunJoins(s, first, front);
    }
  }

  /** Whether a call's insert has run. */
  predicate HasTurn(s: State, id: nat) {
    id in s.calls && !s.calls[id].Asked?
  }

  /** A turn once taken is kept, and one taken now is after every turn taken before. */
  lemma StepKeepsTurns(s: State, e: Event, id: nat)
    ensures |s.order| <= |Step(s, e).order|
    ensures HasTurn(s, id) ==> HasTurn(Step(s, e), id) && Step(s, e).calls[id].turn == s.calls[id].turn
    ensures !HasTurn(s, id) && HasTurn(Step(s, e), id) ==> Step(s, e).calls[id].turn >= |s.order|
  {
    hide TryInsert, Conclude;
  }

  lemma {:induction false} RunKeepsTurns(s: State, events: seq<Event>, id: nat)
    ensures |s.order| <= |Run(s, events).order|
    ensures HasTurn(s, id) ==> HasTurn(Run(s, events), id) && Run(s, events).calls[id].turn == s.calls[id].turn
    ensures !HasTurn(s, id) && HasTurn(Run(s, events), id) ==> Run(s, events).calls[id].turn >= |s.order|
  {
    hide Step, HasTurn;
    if events != [] {
      RunKeepsTurns(s, events[..|events| - 1], id);
      StepKeepsTurns(Run(s, events[..|events| - 1]), events[|events| - 1], id);
    }
  }

  /**
   The order of the turns respects real time: a call that has been answered, or has only inserted,
   comes before every call that inserts later, and so before every call not yet made.
   */
  lemma {:induction false} RealTimeIsKept(base: seq<Entry>, cap: nat, rereads: bool, first: seq<Event>,
                                          next: seq<Event>, a: nat, b: nat)
    requires var s := Run(Start(base, cap, rereads), first); HasTurn(s, a) && !HasTurn(s, b)
    requires HasTurn(Run(Start(base, cap, rereads), first + next), b)
    ensures var t := Run(Start(base, cap, rereads), first + next);
            HasTurn(t, a) && t.calls[a].turn < t.calls[b].turn
  {
    var s := Run(Start(base, cap, rereads), first);
    Linearizable(base, cap, rereads, first);
    assert s.calls[a].turn < |s.order|;
    RunJoins(Start(base, cap, rereads), first, next);
    hide Linear, Run, Start;
    RunKeepsTurns(s, next, a);
    RunKeepsTurns(s, next, b);
  }

  // ---- What one at a time promises, and so every interleaving ----

  /** No two rows hold the same name, and keys count up from 1. */
  ghost predicate Distinct(table: seq<Entry>) {
    && (forall i :: 0 <= i < |table| ==> table[i].id == i + 1)
    && forall i, j :: 0 <= i < j < |table| ==> !SameName(table[i].name, table[j].name)
  }

  /** At most one row holds a name in any casing, and it is the one that is found. */
  lemma OneRowByCase(table: seq<Entry>, name: string)
    requires Distinct(table)
    ensures forall e :: e in table && SameButForCase(e.name, name) ==> Find(table, name) == Some(e)
  {
    forall e | e in table && SameButForCase(e.name, name) ensures Find(table, name) == Some(e) {
      SameNameIff(e.name, name);
    }
  }

  lemma InsertKeepsDistinct(table: seq<Entry>, cap: nat, name: string, hash: string)
    requires Distinct(table)
    ensures Distinct(TryInsert(table, cap, name, hash).0)
    ensures table <= TryInsert(table, cap, name, hash).0
  {
  }

  lemma {:induction false} TableStaysDistinct(base: seq<Entry>, cap: nat, wants: seq<Want>)
    requires Distinct(base)
    ensures var table := OneAtATime(base, cap, wants).0;
            Distinct(table) && base <= table && |table| <= Max(cap, |base|)
  {
    if wants != [] {
      var front, want := wants[..|wants| - 1], wants[|wants| - 1];
      TableStaysDistinct(base, cap, front);
      InsertSettles(OneAtATime(base, cap, front).0, cap, want.name, want.hash);
    }
  }

  lemma {:induction false} OutcomesStaySettled(base: seq<Entry>, cap: nat, wants: seq<Want>, i: nat)
    requires i < |wants|
    ensures var (table, outcomes) := OneAtATime(base, cap, wants);
            Settled(table, cap, wants[i].name, outcomes[i])
  {
    var front, want := wants[..|wants| - 1], wants[|wants| - 1];
    var before := OneAtATime(base, cap, front);
    if i < |front| {
      OutcomesStaySettled(base, cap, front, i);
      SettledKeeps(before.0, cap, wants[i].name, before.1[i], want.name, want.hash);
    } else {
      InsertSettles(before.0, cap, want.name, want.hash);
    }
  }

  lemma SameNameSameRow(table: seq<Entry>, a: string, b: string)
    requires SameName(a, b)
    ensures Find(table, a) == Find(table, b)
  {
  }

  lemma {:induction false} CreatedOnce(base: seq<Entry>, cap: nat, wants: seq<Want>, i: nat, j: nat)
    requires i < j < |wants|
    requires var outcomes := OneAtATime(base, cap, wants).1; outcomes[i].Created? && outcomes[j].Created?
    ensures !SameName(wants[i].name, wants[j].name)
  {
    var front, want := wants[..|wants| - 1], wants[|wants| - 1];
    if j < |front| {
      CreatedOnce(base, cap, front, i, j);
    } else {
      OutcomesStaySettled(base, cap, front, i);
      var before := OneAtATime(base, cap, front).0;
      InsertSettles(before, cap, want.name, want.hash);
      if SameName(wants[i].name, want.name) {
        SameNameSameRow(before, wants[i].name, want.name);
      }
    }
  }

  /** Whether a call was told that it created its name. */
  predicate WasCreated(s: State, id: nat) {
    id in s.calls && s.calls[id].Done? && s.calls[id].outcome.Created?
  }

  /**
   Whatever is interleaved: names stay unique up to ASCII case, a name is created at most once, and
   the rows never outnumber the cap or what the table opened with, whichever is larger.
   */
  lemma NamesStayUnique(base: seq<Entry>, cap: nat, rereads: bool, events: seq<Event>)
    requires Distinct(base)
    ensures var s := Run(Start(base, cap, rereads), events);
            && Distinct(s.table)
            && base <= s.table
            && |s.table| <= Max(cap, |base|)
            && (forall i, j :: 0 <= i < j < |s.table| ==> !SameButForCase(s.table[i].name, s.table[j].name))
            && (forall a, b :: WasCreated(s, a) && WasCreated(s, b) && a != b ==>
                  !SameButForCase(s.calls[a].name, s.calls[b].name))
  {
    Linearizable(base, cap, rereads, events);
    var s := Run(Start(base, cap, rereads), events);
    TableStaysDistinct(base, cap, Wants(s));
    NamesDiffer(s.table);
    hide Run, Start, Distinct, Linear, WasCreated, SameButForCase;
    forall a, b | WasCreated(s, a) && WasCreated(s, b) && a != b
      ensures !SameButForCase(s.calls[a].name, s.calls[b].name)
    {
      CreationsDiffer(base, s, a, b);
      SameNameIff(s.calls[a].name, s.calls[b].name);
    }
  }

  /** Rows under distinct names are under names that differ in more than case. */
  lemma NamesDiffer(table: seq<Entry>)
    requires Distinct(table)
    ensures forall i, j :: 0 <= i < j < |table| ==> !SameButForCase(table[i].name, table[j].name)
  {
    hide SameName, SameButForCase;
    forall i, j | 0 <= i < j < |table| ensures !SameButForCase(table[i].name, table[j].name) {
      SameNameIff(table[i].name, table[j].name);
    }
  }

  lemma CreationsDiffer(base: seq<Entry>, s: State, a: nat, b: nat)
    requires Linear(base, s) && WasCreated(s, a) && WasCreated(s, b) && a != b
    ensures !SameName(s.calls[a].name, s.calls[b].name)
  {
    var i, j := s.calls[a].turn, s.calls[b].turn;
    assert Agrees(s.table, s.cap, s.calls[a], OneAtATime(base, s.cap, Wants(s)).1);
    assert Agrees(s.table, s.cap, s.calls[b], OneAtATime(base, s.cap, Wants(s)).1);
    assert s.order[i] == a && s.order[j] == b;
    assert Wants(s)[i].name == s.calls[a].name && Wants(s)[j].name == s.calls[b].name;
    hide OneAtATime, Agrees, Settled, SameName, Wants;
    if i < j {
      CreatedOnce(base, s.cap, Wants(s), i, j);
    } else {
      CreatedOnce(base, s.cap, Wants(s), j, i);
    }
  }

  /** A row holds the name and hash that some call asked for. */
  ghost predicate AskedFor(events: seq<Event>, entry: Entry) {
    exists i :: 0 <= i < |events| && events[i].Ask? && events[i].name == entry.name && events[i].hash == entry.hash
  }

  /** Calls carry what was asked. */
  ghost predicate CallsAreAsked(s: State, events: seq<Event>) {
    forall id :: id in s.calls ==>
      exists i :: 0 <= i < |events| && events[i].Ask?
                  && events[i].name == s.calls[id].name && events[i].hash == s.calls[id].hash
  }

  lemma StepCarriesAsked(s: State, events: seq<Event>)
    requires events != [] && CallsAreAsked(s, events[..|events| - 1])
    ensures CallsAreAsked(Step(s, events[|events| - 1]), events)
  {
    var front, e := events[..|events| - 1], events[|events| - 1];
    var t := Step(s, e);
    forall id | id in t.calls
      ensures exists i :: 0 <= i < |events| && events[i].Ask?
                          && events[i].name == t.calls[id].name && events[i].hash == t.calls[id].hash
    {
      if id in s.calls {
        var i :| 0 <= i < |front| && front[i].Ask?
                 && front[i].name == s.calls[id].name && front[i].hash == s.calls[id].hash;
        assert events[i] == front[i];
      } else {
        assert events[|front|] == e;
      }
    }
  }

  lemma {:induction false} RunCarriesAsked(base: seq<Entry>, cap: nat, rereads: bool, events: seq<Event>)
    ensures CallsAreAsked(Run(Start(base, cap, rereads), events), events)
  {
    if events != [] {
      hide Step, CallsAreAsked;
      RunCarriesAsked(base, cap, rereads, events[..|events| - 1]);
      StepCarriesAsked(Run(Start(base, cap, rereads), events[..|events| - 1]), events);
    }
  }

  /** No row appears by itself: it was there from the start, or some call asked for its name and hash. */
  lemma {:induction false} EveryRowWasAsked(base: seq<Entry>, cap: nat, rereads: bool, events: seq<Event>, entry: Entry)
    requires entry in Run(Start(base, cap, rereads), events).table
    ensures entry in base || AskedFor(events, entry)
  {
    if events != [] {
      var front, e := events[..|events| - 1], events[|events| - 1];
      var s := Run(Start(base, cap, rereads), front);
      assert forall i :: 0 <= i < |front| ==> events[i] == front[i];
      RunCarriesAsked(base, cap, rereads, front);
      if entry in s.table {
        EveryRowWasAsked(base, cap, rereads, front, entry);
      }
      hide Run, Start, Find, Conclude;
    }
  }

  /**
   The read concludes that the cap refused a name exactly when the name is absent, and then the cap
   is reached. A name that is held is never refused, and never created again.
   */
  lemma RefusedOnlyWhenFull(base: seq<Entry>, cap: nat, rereads: bool, events: seq<Event>, id: nat)
    requires var s := Run(Start(base, cap, rereads), events); id in s.calls && s.calls[id].Tried?
    ensures var s := Run(Start(base, cap, rereads), events);
            var t := Step(s, Read(id));
            var outcome := t.calls[id].outcome;
            && t.table == s.table
            && (outcome.CapExceeded? <==> Find(s.table, s.calls[id].name).None?)
            && (outcome.CapExceeded? ==> |s.table| >= cap)
            && (Find(s.table, s.calls[id].name).Some? ==> outcome.entry == Find(s.table, s.calls[id].name).value)
            && (outcome.Created? <==> s.calls[id].inserted)
  {
    Linearizable(base, cap, rereads, events);
  }

  /** A name held before a call asked for it is still held when the call is told so. */
  lemma {:induction false} HeldNameIsReturned(s: State, name: string, events: seq<Event>)
    requires Find(s.table, name).Some?
    ensures Find(Run(s, events).table, name) == Find(s.table, name)
    ensures s.table <= Run(s, events).table
  {
    if events != [] {
      HeldNameIsReturned(s, name, events[..|events| - 1]);
      StepKeepsHeld(Run(s, events[..|events| - 1]), name, events[|events| - 1]);
      hide Step, Find;
    }
  }

  lemma StepKeepsHeld(s: State, name: string, e: Event)
    requires Find(s.table, name).Some?
    ensures s.table <= Step(s, e).table && Find(Step(s, e).table, name) == Find(s.table, name)
  {
    var t := Step(s, e);
    assert s.table <= t.table;
    FindKeeps(s.table, t.table[|s.table|..], name);
    assert s.table + t.table[|s.table|..] == t.table;
  }
}
