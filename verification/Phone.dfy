/**
 The part of the phone apps' view models that their reads and room switches change.

 `View` is either model as a value. The two apps differ in how they merge, in what a login resets and
 in when badges are worked out again, so each has its own functions, and its own object that changes
 in place.
 */
module Phone {
  import opened Wire
  import opened Merge
  import opened Unread
  import Chat

  /** `inChat` is whether the chat screen is showing. */
  datatype View = View(
    inChat: bool,
    rooms: seq<Room>,
    open: Option<nat>,
    messages: seq<Message>,
    unread: set<nat>,
    seen: map<nat, nat>)

  function NewView(): View {
    View(false, [], None, [], {}, map[])
  }

  function First(rooms: seq<Room>): Option<nat> {
    if rooms == [] then None else Some(rooms[0].id)
  }

  function SignedOut(v: View): View {
    v.(inChat := false, messages := [], unread := {})
  }

  // ---- Android ----

  function AndroidLogIn(v: View, rooms: seq<Room>): View {
    var seen := Chat.ReadFrom(rooms);
    View(true, rooms, First(rooms), [], UnreadOf(rooms, First(rooms), seen), seen)
  }

  function AndroidOpen(v: View, room: nat): View {
    v.(open := Some(room), messages := [], unread := UnreadOf(v.rooms, Some(room), v.seen))
  }

  function AndroidList(v: View, rooms: seq<Room>): View {
    v.(rooms := rooms, unread := UnreadOf(rooms, v.open, v.seen))
  }

  function AndroidBatch(v: View, room: nat, batch: seq<Message>): View {
    if v.open != Some(room) then v
    else
      var seen := if batch == [] then v.seen else Advanced(v.seen, room, MaxSeq(batch));
      v.(messages := MergeDistinct(v.messages, batch), seen := seen, unread := UnreadOf(v.rooms, Some(room), seen))
  }

  // ---- iOS ----

  /** A login here leaves the badges as they were. */
  function IosLogIn(v: View, rooms: seq<Room>): View {
    v.(inChat := true, rooms := rooms, open := First(rooms), messages := [], seen := Chat.ReadFrom(rooms))
  }

  function IosOpen(v: View, room: nat): View {
    if v.open == Some(room) then v
    else v.(open := Some(room), messages := [], unread := UnreadOf(v.rooms, Some(room), v.seen))
  }

  function IosList(v: View, rooms: seq<Room>): View {
    v.(rooms := rooms, unread := UnreadOf(rooms, v.open, v.seen))
  }

  function IosBatch(v: View, room: nat, batch: seq<Message>): View {
    if batch == [] || v.open != Some(room) then v
    else
      var seen := Advanced(v.seen, room, MaxSeq(batch));
      v.(messages := MergeUnknown(v.messages, batch), seen := seen, unread := UnreadOf(v.rooms, Some(room), seen))
  }

  // ---- The iOS view model that changes in place ----

  class IosViewModel {
    var inChat: bool
    var rooms: seq<Room>
    var openRoomId: Option<nat>
    var messages: seq<Message>
    var unread: set<nat>
    var seen: map<nat, nat>

    function Model(): View
      reads this
    {
      View(inChat, rooms, openRoomId, messages, unread, seen)
    }

    constructor ()
      ensures Model() == NewView()
    {
      inChat, rooms, openRoomId := false, [], None;
      messages, unread, seen := [], {}, map[];
    }

    /** Starts `seen` afresh from a list. The source's dictionary traps if the list repeats a room. */
    method Seed(listed: seq<Room>)
      requires forall i, j :: 0 <= i < j < |listed| ==> listed[i].id != listed[j].id
      modifies this`seen
      ensures seen == Chat.ReadFrom(listed)
    {
      seen := map[];
      for i := 0 to |listed|
        invariant seen == Chat.ReadFrom(listed[..i])
      {
        seen := seen[listed[i].id := listed[i].latestSeq];
        assert listed[..i + 1][..i] == listed[..i];
      }
      assert listed[..|listed|] == listed;
    }

    method Advance(room: nat, pos: nat)
      modifies this`seen
      ensures seen == Advanced(old(seen), room, pos)
    {
      if pos > (if room in seen then seen[room] else 0) {
        seen := seen[room := pos];
      }
    }

    method FindUnread(listed: seq<Room>, open: Option<nat>) returns (found: set<nat>)
      ensures found == UnreadOf(listed, open, seen)
    {
      found := {};
      for i := 0 to |listed|
        invariant found == UnreadOf(listed[..i], open, seen)
      {
        UnreadPush(listed[..i], listed[i], open, seen);
        assert listed[..i + 1] == listed[..i] + [listed[i]];
        if open != Some(listed[i].id) && listed[i].latestSeq > Seen(seen, listed[i].id) {
          found := found + {listed[i].id};
        }
      }
      assert listed[..|listed|] == listed;
    }

    method MergeBatch(batch: seq<Message>)
      modifies this`messages
      ensures messages == MergeUnknown(old(messages), batch)
    {
      var held := messages + Unknown(Seqs(messages), batch);
      var merged := SortBySeq(held);
      if messages != merged {
        messages := merged;
      }
    }

    method LogIn(listed: seq<Room>)
      requires forall i, j :: 0 <= i < j < |listed| ==> listed[i].id != listed[j].id
      modifies this
      ensures Model() == IosLogIn(old(Model()), listed)
    {
      Seed(listed);
      rooms := listed;
      openRoomId := if |listed| > 0 then Some(listed[0].id) else None;
      messages := [];
      inChat := true;
    }

    method OpenRoom(room: nat)
      modifies this
      ensures Model() == IosOpen(old(Model()), room)
    {
      if openRoomId == Some(room) {
        return;
      }
      openRoomId := Some(room);
      messages := [];
      unread := FindUnread(rooms, Some(room));
    }

    /** A list that came back. */
    method TakeList(listing: seq<Room>)
      modifies this
      ensures Model() == IosList(old(Model()), listing)
    {
      var badges := FindUnread(listing, openRoomId);
      if rooms != listing {
        rooms := listing;
      }
      if unread != badges {
        unread := badges;
      }
    }

    /** A batch that came back, for the room that was open when it was asked for. */
    method TakeBatch(open: nat, batch: seq<Message>)
      modifies this
      ensures Model() == IosBatch(old(Model()), open, batch)
    {
      if |batch| > 0 && openRoomId == Some(open) {
        MergeBatch(batch);
        Advance(open, MaxSeq(batch));
        var badges := FindUnread(rooms, Some(open));
        if unread != badges {
          unread := badges;
        }
      }
    }

    method SignOut()
      modifies this
      ensures Model() == SignedOut(old(Model()))
    {
      messages, unread, inChat := [], {}, false;
    }
  }

  // ---- The Android view model that changes in place ----

  class AndroidViewModel {
    var inChat: bool
    var rooms: seq<Room>
    var openRoomId: Option<nat>
    var messages: seq<Message>
    var badges: set<nat>
    const unread: UnreadRooms

    function Model(): View
      reads this, unread
    {
      View(inChat, rooms, openRoomId, messages, badges, unread.lastSeen)
    }

    constructor ()
      ensures Model() == NewView() && fresh(unread)
    {
      inChat, rooms, openRoomId := false, [], None;
      messages, badges := [], {};
      unread := new UnreadRooms();
    }

    method LogIn(listed: seq<Room>)
      modifies this, unread
      ensures Model() == AndroidLogIn(old(Model()), listed)
    {
      unread.Seed(listed);
      inChat, rooms, messages := true, listed, [];
      openRoomId := if |listed| > 0 then Some(listed[0].id) else None;
      badges := unread.Of(rooms, openRoomId);
    }

    method OpenRoom(room: nat)
      modifies this
      ensures Model() == AndroidOpen(old(Model()), room)
    {
      openRoomId, messages := Some(room), [];
      badges := unread.Of(rooms, openRoomId);
    }

    method TakeList(listing: seq<Room>)
      modifies this
      ensures Model() == AndroidList(old(Model()), listing)
    {
      rooms := listing;
      badges := unread.Of(listing, openRoomId);
    }

    method TakeBatch(room: nat, batch: seq<Message>)
      modifies this, unread
      ensures Model() == AndroidBatch(old(Model()), room, batch)
    {
      if openRoomId != Some(room) {
        return;
      }
      if |batch| > 0 {
        unread.Advance(room, MaxSeq(batch));
      }
      messages := MergeDistinct(messages, batch);
      badges := unread.Of(rooms, Some(room));
    }

    method SignOut()
      modifies this
      ensures Model() == SignedOut(old(Model()))
    {
      inChat, messages, badges := false, [], {};
    }
  }
}
