/** The badges of the phone apps, from what each room lists and what was seen in it. */
module Unread {
  import opened Wire
  import Chat

  /** How far a room has been seen. */
  function Seen(seen: map<nat, nat>, room: nat): nat {
    if room in seen then seen[room] else START
  }

  function Advanced(seen: map<nat, nat>, room: nat, pos: nat): map<nat, nat> {
    if pos > Seen(seen, room) then seen[room := pos] else seen
  }

  /** The rooms other than the open one that list something past what was seen in them. */
  function UnreadOf(rooms: seq<Room>, open: Option<nat>, seen: map<nat, nat>): set<nat> {
    set room | room in rooms && Some(room.id) != open && room.latestSeq > Seen(seen, room.id) :: room.id
  }

  function MaxSeq(batch: seq<Message>): nat {
    if batch == [] then START else Max(MaxSeq(batch[..|batch| - 1]), batch[|batch| - 1].pos)
  }

  /** Seeding from a list leaves no room in it unread, if none is listed twice. */
  lemma {:induction false} SeedingIsQuiet(rooms: seq<Room>, open: Option<nat>)
    requires forall i, j :: 0 <= i < j < |rooms| ==> rooms[i].id != rooms[j].id
    ensures UnreadOf(rooms, open, Chat.ReadFrom(rooms)) == {}
    ensures forall room :: room in rooms ==> Seen(Chat.ReadFrom(rooms), room.id) == room.latestSeq
  {
    if rooms != [] {
      var front, last := rooms[..|rooms| - 1], rooms[|rooms| - 1];
      SeedingIsQuiet(front, open);
      assert rooms == front + [last];
      forall room | room in front ensures room.id != last.id {
      }
    }
  }

  /** Doing it again changes nothing, so an update that is run twice is an update. */
  lemma AdvancingTwiceIsOnce(seen: map<nat, nat>, room: nat, pos: nat)
    ensures Advanced(Advanced(seen, room, pos), room, pos) == Advanced(seen, room, pos)
    ensures Seen(Advanced(seen, room, pos), room) == Max(Seen(seen, room), pos)
    ensures forall other: nat :: other != room ==> Seen(Advanced(seen, room, pos), other) == Seen(seen, other)
  {
  }

  /** Android's record of what was seen. */
  class UnreadRooms {
    var lastSeen: map<nat, nat>

    constructor ()
      ensures lastSeen == map[]
    {
      lastSeen := map[];
    }

    method Seed(rooms: seq<Room>)
      modifies this
      ensures lastSeen == Chat.ReadFrom(rooms)
    {
      lastSeen := map[];
      for i := 0 to |rooms|
        invariant lastSeen == Chat.ReadFrom(rooms[..i])
      {
        lastSeen := lastSeen[rooms[i].id := rooms[i].latestSeq];
        assert rooms[..i + 1][..i] == rooms[..i];
      }
      assert rooms[..|rooms|] == rooms;
    }

    method Advance(room: nat, pos: nat)
      modifies this
      ensures lastSeen == Advanced(old(lastSeen), room, pos)
    {
      if pos > (if room in lastSeen then lastSeen[room] else 0) {
        lastSeen := lastSeen[room := pos];
      }
    }

    method Of(rooms: seq<Room>, open: Option<nat>) returns (found: set<nat>)
      ensures found == UnreadOf(rooms, open, lastSeen)
    {
      found := {};
      for i := 0 to |rooms|
        invariant found == UnreadOf(rooms[..i], open, lastSeen)
      {
        UnreadPush(rooms[..i], rooms[i], open, lastSeen);
        assert rooms[..i + 1] == rooms[..i] + [rooms[i]];
        if open != Some(rooms[i].id) && rooms[i].latestSeq > Seen(lastSeen, rooms[i].id) {
          found := found + {rooms[i].id};
        }
      }
      assert rooms[..|rooms|] == rooms;
    }
  }

  lemma UnreadPush(rooms: seq<Room>, room: Room, open: Option<nat>, seen: map<nat, nat>)
    ensures UnreadOf(rooms + [room], open, seen)
         == UnreadOf(rooms, open, seen)
            + if Some(room.id) != open && room.latestSeq > Seen(seen, room.id) then {room.id} else {}
  {
    forall id | id in UnreadOf(rooms, open, seen) ensures id in UnreadOf(rooms + [room], open, seen) {
      var r :| r in rooms && Some(r.id) != open && r.latestSeq > Seen(seen, r.id) && r.id == id;
      assert r in rooms + [room];
    }
    assert room in rooms + [room];
  }
}
