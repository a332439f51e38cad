/**
 The kept pane. A draw that finds it still standing merges it and builds nothing, so it has to be
 what a fresh draw would produce. It is checked against an area, an offset and a counter, and the
 counter has to move with everything else a draw reads.
 */
module PaneCache {
  import opened Wire
  import opened Chat

  /** The kept cells are no newer than the screen, and if they are as new, they are its cells. */
  ghost predicate Coherent(c: Chat, render: Renderer, dayOf: Calendar) {
    c.pane.Some? ==>
      var pane := c.pane.value;
      && pane.revision <= c.revision
      && (pane.revision == c.revision ==> pane.drawn == Fresh(c, pane.area, pane.scroll, render, dayOf))
  }

  /** The list keeps the id and name of every room already shown, where it was. */
  predicate KeepsRooms(shown: seq<Room>, list: seq<Room>) {
    && |shown| <= |list|
    && (forall i :: 0 <= i < |shown| ==> list[i].id == shown[i].id && list[i].name == shown[i].name)
    && forall i, j :: 0 <= i < j < |list| ==> list[i].id != list[j].id
  }

  /** The open room stands in the list under the title it is shown with. */
  predicate KeepsTitle(c: Chat, list: seq<Room>) {
    var at := Reselected(c, list);
    match OpenRoom(c)
    case None => list == []
    case Some(room) => at < |list| && list[at].name == room.name
  }

  datatype Event =
    | Pressed(key: Key, pending: bool)
    | Delivered(batch: seq<Message>)
    | Cleared
    | Watched(room: nat)
    | Warned(text: string)
    | Restored(body: string)
    | Listed(rooms: seq<Room>)
    | DrawnAt(area: Rect)

  /** A list may come in any order and drop any room, as long as the open room keeps its title. */
  function Step(c: Chat, e: Event, render: Renderer, dayOf: Calendar): Chat {
    match e
    case Pressed(key, pending) => HandleKey(c, key, pending).0
    case Delivered(batch) => Append(c, batch)
    case Cleared => Clear(c)
    case Watched(room) => Watching(c, room)
    case Warned(text) => Warn(c, text)
    case Restored(body) => Restore(c, body)
    case Listed(rooms) => if KeepsTitle(c, rooms) then ShowRooms(c, rooms) else c
    case DrawnAt(area) => Draw(c, area, render, dayOf)
  }

  function Run(c: Chat, events: seq<Event>, render: Renderer, dayOf: Calendar): Chat {
    if events == [] then c
    else Step(Run(c, events[..|events| - 1], render, dayOf), events[|events| - 1], render, dayOf)
  }

  /** The list that keeps rooms keeps the open one selected, under the same title. */
  lemma SelectionKept(c: Chat, list: seq<Room>)
    requires KeepsRooms(c.rooms, list) && c.selected < |c.rooms|
    ensures Reselected(c, list) == c.selected
    ensures KeepsTitle(c, list) && Title(ShowRooms(c, list)) == Title(c)
  {
    var id := c.rooms[c.selected].id;
    assert list[c.selected].id == id;
    assert Position(list, id).Some?;
  }

  /** One change of the screen, as the counter sees it. */
  ghost predicate Counted(c: Chat, t: Chat) {
    && c.revision <= t.revision <= c.revision + 1
    && t.selected < |t.rooms| && t.me == c.me
    && (t.revision == c.revision ==> Title(t) == Title(c) && t.messages == c.messages && t.notices == c.notices)
  }

  lemma KeysAreCounted(c: Chat, key: Key, pending: bool)
    requires c.selected < |c.rooms|
    ensures Counted(c, HandleKey(c, key, pending).0) && HandleKey(c, key, pending).0.pane == c.pane
  {
    hide Understand;
  }

  /** Everything that leaves the counter alone leaves what the pane is drawn from alone. */
  lemma {:induction false} CounterMovesWithContents(c: Chat, e: Event, render: Renderer, dayOf: Calendar)
    requires c.selected < |c.rooms|
    ensures Counted(c, Step(c, e, render, dayOf))
    ensures !e.DrawnAt? ==> Step(c, e, render, dayOf).pane == c.pane
  {
    if e.Pressed? {
      KeysAreCounted(c, e.key, e.pending);
      hide HandleKey, Counted;
    } else {
      hide Fresh, Position;
    }
  }

  lemma StepIsCoherent(c: Chat, e: Event, render: Renderer, dayOf: Calendar)
    requires c.selected < |c.rooms| && Coherent(c, render, dayOf)
    ensures Coherent(Step(c, e, render, dayOf), render, dayOf)
    ensures var t := Step(c, e, render, dayOf); t.selected < |t.rooms|
  {
    CounterMovesWithContents(c, e, render, dayOf);
  }

  /**
   In every state the screen can reach, for every renderer: if the kept pane still stands for a draw
   at an area, it is exactly what that draw would produce from scratch.
   */
  lemma {:induction false} KeptPaneIsFresh(rooms: seq<Room>, me: string, events: seq<Event>, render: Renderer,
                                           dayOf: Calendar)
    requires rooms != []
    ensures var c := Run(NewChat(rooms, me), events, render, dayOf);
            && c.selected < |c.rooms|
            && Coherent(c, render, dayOf)
            && forall area :: c.pane.Some? && c.pane.value.StillStands(area, c.scroll, c.revision) ==>
                 c.pane.value.drawn == Fresh(c, area, c.scroll, render, dayOf)
  {
    if events != [] {
      KeptPaneIsFresh(rooms, me, events[..|events| - 1], render, dayOf);
      StepIsCoherent(Run(NewChat(rooms, me), events[..|events| - 1], render, dayOf), events[|events| - 1],
                     render, dayOf);
    }
  }

  /** So drawing is the same as drawing with nothing kept. */
  lemma {:induction false} DrawIgnoresTheCache(rooms: seq<Room>, me: string, events: seq<Event>, area: Rect,
                                               render: Renderer, dayOf: Calendar)
    requires rooms != []
    ensures var c := Run(NewChat(rooms, me), events, render, dayOf);
            Draw(c, area, render, dayOf) == Draw(c.(pane := None), area, render, dayOf)
  {
    KeptPaneIsFresh(rooms, me, events, render, dayOf);
  }

  /**
   What a stable title is needed for. The counter does not move with the list, so a pane drawn before
   a list is still merged after it. It is then fresh exactly when the renderer draws the new title, on
   these lines at this size, as it drew the old, and the titles are the same exactly when the list
   keeps the open room's.
   */
  lemma ListedPaneIsFreshIff(c: Chat, list: seq<Room>, area: Rect, render: Renderer, dayOf: Calendar)
    requires Coherent(c, render, dayOf)
    ensures var s := ShowRooms(Draw(c, area, render, dayOf), list);
            var lines := MessageLines(c.messages, c.me, dayOf) + Notices(c.notices);
            && s.pane.value.StillStands(area, s.scroll, s.revision)
            && (s.pane.value.drawn == Fresh(s, area, s.scroll, render, dayOf)
                <==> render(Title(c), lines, area, c.scroll) == render(Title(s), lines, area, c.scroll))
            && (Title(s) == Title(c) <==> KeepsTitle(c, list))
  {
    var d := Draw(c, area, render, dayOf);
    assert d.pane.value.drawn == Fresh(c, area, c.scroll, render, dayOf);
  }

  /** A renderer that writes the title and nothing else. */
  function TitleAlone(title: Option<string>, lines: seq<Line>, area: Rect, scroll: Option<nat>): Drawn {
    Drawn(match title case None => [] case Some(name) => [name], 0, 0)
  }

  /** One list that renames the open room: the kept pane stands, under the old name. */
  lemma RenamedRoomIsStale(me: string, area: Rect, dayOf: Calendar)
    ensures var c := NewChat([Room(1, "ops", 0)], me);
            var s := ShowRooms(Draw(c, area, TitleAlone, dayOf), [Room(1, "devs", 0)]);
            && s.pane.value.StillStands(area, s.scroll, s.revision)
            && s.pane.value.drawn.cells == ["ops"]
            && Fresh(s, area, s.scroll, TitleAlone, dayOf).cells == ["devs"]
  {
    var c, list := NewChat([Room(1, "ops", 0)], me), [Room(1, "devs", 0)];
    assert Position(list, 1) == Some(0);
    assert Title(c) == Some("ops") && Title(ShowRooms(c, list)) == Some("devs");
  }
}
