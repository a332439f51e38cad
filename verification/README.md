# A model of the chat server and its clients

The system is a chat server that is polled. Messages go into one append-only table with one
server-wide sequence, rooms are read a page at a time, and every client follows a room with a cursor
of its own. Nothing is pushed, so what a reader sees is correct only because several parts fit
together: the sequence only grows, pages are windows of a log, a feed moves its cursor only past what
it has handed over, and the apps drop what a closed stream or an ended session left behind.

The model has four parts.

- **The server.** `Columns`, `MessageTable`, `Store` and `Api` are the SQLite store and the message
  endpoints: scans over rows, proved to read windows of a room's log. `NameTable` is the creation of a
  room or an account, two statements that other requests run between. `Server` is the whole server as
  a machine whose steps are single statements of any number of requests, and `Authorship` says who
  gets a token and whose message each row is.
- **The Rust client core.** `Feed` is the polling machine between its waits, and the source's loops
  over mutable fields, proved to do what that machine does. `FeedRuns`, `RoomsFeedRuns` and `CatchUp`
  are its runs against a server anyone posts to, with fetches that fail and calls that are dropped.
  `Session` is the session every clone of a client shares while requests are out.
- **The terminal app.** `Chat` is the chat screen, `PaneCache` its kept drawing, `App` the screens,
  streams and background calls. `ChatPromises` says what the screen's keys and lines mean. `Terminal`
  puts the app beside the server; `TerminalRuns` proves the invariant of every run, `TerminalPromises`
  says what it means for a reader, and `TerminalCalls` which calls a run makes and what ends it.
- **The phone apps.** `Merge` is the two ways they merge pages, `Unread` their badges, `Phone` the two
  view models, `PhoneRuns` their runs, and `ChatRows` the grouping pass both have.

Functions on values say what each operation does. Where the source changes fields in place there is a
class, and each of its methods is proved equal to its function, so everything proved about the
functions over runs is about the methods too. A run is a sequence of events, and an event that cannot
happen in a state changes nothing, so a statement about all sequences is about every interleaving.

These hypotheses are explicit. The database is not rebuilt during a run. Passwords, hashes and tokens
are ideal: the server honours exactly the names it issued tokens for. In the runs of the clients a
post commits only while the sequence is below the largest a column holds; `MessageTable` says exactly
what changes beyond it. The terminal's and the phones' servers list at least one room and never rename
or remove one, which `Server.EveryServerIsServable` and `NameTable.NamesStayUnique` prove of the server.

Where the code does less than is said of it:

- A new message lands after every earlier one exactly while the sequence is not exhausted
  (`MessageTable.PostLandsLast`); past that SQLite reuses keys (`MessageTable.ExhaustedSequenceRegresses`).
- A page size above 200 is never answered in full, so such a feed never catches up without waiting
  (`CatchUp.LargePagesNeverCatchUp`).
- A login that lists no room opens none (`TerminalPromises.LoginOpensIffListed`). From then on no list,
  answer or other key opens one until a key moves the selection, which takes a later list of at least
  two rooms, and that key does (`TerminalPromises.UnopenedUntilMoved`, `TerminalPromises.MovingOpens`).
- A kept pane is not redrawn for a list. It is outdated exactly when the new title draws differently on
  the same lines, and the title changes exactly when the list does not keep the open room's
  (`PaneCache.ListedPaneIsFreshIff`, `PaneCache.RenamedRoomIsStale`).
- The two phone merges differ exactly on a batch that repeats something new (`Merge.FormsAgreeIff`,
  `Merge.RepeatIsHeldTwice`).
- Android's update of a batch has an effect outside the state it updates. Retried after the reader has
  moved on, it leaves that effect behind (`PhoneRuns.RetryIsOneBatchIff`, `PhoneRuns.RetryLeavesBadge`).
- The iOS login keeps badges left from before it (`PhoneRuns.IosBadgesAreExactIff`,
  `PhoneRuns.StaleBadgeSurvivesLogin`).
- A database holding as many rooms as a 32-bit count reaches, and no lobby, does not open
  (`Store.SqliteStore.Open`).

## Model

| member | source | states |
|---|---|---|
| `Columns.ColumnsRoundTrip` | crates/chat-server/src/store/sqlite/convert.rs:33-50 | a number fits its signed column exactly when it reads back as itself, and nothing else reads back as it |
| `MessageTable.ReadingNeverFails` | crates/chat-server/src/store/sqlite/messages.rs:143-155 | in a table that posts built, converting stored rows out of their columns never fails |
| `MessageTable.QueryReadsWindow` | crates/chat-server/src/store/sqlite/messages.rs:87-141 | the WHERE clauses on `seq` read exactly the part of the room's log above or below the cursor |
| `MessageTable.LogAscends` | crates/chat-core/src/api/v1.rs:64-84 | a room's log is strictly increasing in `seq`, and starts above START |
| `MessageTable.PostKeepsKeyed` | crates/chat-server/src/store/sqlite/messages.rs:25-58 | every post keeps keys unique and in order, and every column in range, whichever key SQLite falls back on |
| `MessageTable.PostLandsLast` | crates/chat-server/src/store/sqlite/messages.rs:25-58 | a message lands above all earlier ones if and only if the sequence is not exhausted; until then numbering is consecutive and a refused post changes nothing |
| `MessageTable.PostedIsRead` | crates/chat-server/src/store/sqlite/messages.rs:25-58 | a message that was posted is read back as it was posted, at the position that was answered, last in its own room and in no other |
| `MessageTable.ExhaustedSequenceRegresses` | crates/chat-server/src/store/sqlite/messages.rs:25-58 | once it is exhausted, a message lands below one that was already read |
| `NameTable.Linearizable` | crates/chat-server/src/store/sqlite/rooms.rs:28-74 | any interleaving of two-statement creations leaves the table, and answers each call, as running them one at a time in the order of their inserts |
| `NameTable.RealTimeIsKept` | crates/chat-server/src/store/sqlite/rooms.rs:28-74 | and that order respects real time: a call that has inserted, and so one that has been answered, comes before every call that inserts later |
| `NameTable.InsertSettles` | crates/chat-server/src/store/sqlite/users.rs:27-70 | one at a time: created iff the name is free and the cap not reached, existing iff it is held, refused iff it is free and the cap is reached |
| `NameTable.SameNameIff` | crates/chat-server/src/store/sqlite/schema.sql:19-31 | two names are the same exactly when they have the same length and each pair of characters is equal, or the two cases of one ASCII letter |
| `NameTable.FindIsByCase` | crates/chat-server/src/store/sqlite/users.rs:73-83 | a name is found exactly when some row holds it in any ASCII casing, and the row that is found does |
| `NameTable.EveryRowWasAsked` | crates/chat-server/src/store/sqlite/users.rs:27-70 | under every interleaving every row that was not there from the start has the name and hash that some call asked for |
| `NameTable.NamesStayUnique` | crates/chat-server/src/store/sqlite/users.rs:27-70 | under every interleaving no two rows hold names that differ in ASCII case alone, no such name is created twice, and rows stay within the cap or what the table opened with |
| `NameTable.RefusedOnlyWhenFull` | crates/chat-server/src/store/sqlite/rooms.rs:54-73 | a call is told the cap is exceeded exactly when its name is absent, and then the cap is reached |
| `NameTable.HeldNameIsReturned` | crates/chat-server/src/store/sqlite/rooms.rs:45-66 | a name once held stays held by the same row, so it is never refused |
| `Store.MaxKeyIsNewest` | crates/chat-server/src/store/sqlite/rooms.rs:77-96 | COALESCE(MAX(seq), 0) over a room's rows is the position of its newest message |
| `Store.ListingIsTable` | crates/chat-server/src/store/sqlite/rooms.rs:77-96 | the listing keeps ids and names in key order, and each position is that of the last message in the room, or START without one |
| `Store.DecodesReversed` | crates/chat-server/src/store/sqlite/messages.rs:61-84 | decoding newest first and turning the vector round is decoding oldest first |
| `Store.ReverseInPlace` | crates/chat-server/src/store/sqlite/messages.rs:81-83 | the vector ends up reversed where it stands |
| `Store.SqliteStore.constructor` | crates/chat-server/src/store/sqlite.rs:86-95 | opening keeps the tables and seeds the lobby past any cap, unless they already hold it |
| `Store.SqliteStore.Open` | crates/chat-server/src/store/sqlite.rs:58-95 | a store opens from any tables, and fails exactly when the lobby is missing and the rooms have reached the 32-bit cap it is seeded under |
| `Store.SqliteStore.CreateRoom` | crates/chat-server/src/store/sqlite/rooms.rs:28-74 | both statements together are the sequential creation; it fails iff the name is free and the cap is reached |
| `Store.SqliteStore.ReadRoom` | crates/chat-server/src/store/sqlite/rooms.rs:45-66 | finds a room exactly when one holds the name in some ASCII casing, with the position of its newest message |
| `Store.SqliteStore.ListRooms` | crates/chat-server/src/store/sqlite/rooms.rs:77-96 | every room in key order, each with the newest position in its own log |
| `Store.SqliteStore.RoomExists` | crates/chat-server/src/store/sqlite/rooms.rs:99-108 | whether the id is a room's; an id no column holds is an error |
| `Store.SqliteStore.InsertUser` | crates/chat-server/src/store/sqlite/users.rs:27-70 | the sequential creation of an account, with its three answers |
| `Store.SqliteStore.PasswordHash` | crates/chat-server/src/store/sqlite/users.rs:73-83 | the hash of the one account with that name in some ASCII casing, and none when no account has it |
| `Store.SqliteStore.PostMessage` | crates/chat-server/src/store/sqlite/messages.rs:25-58 | the new table and the answer are those of the insert, with its foreign key and column checks |
| `Store.SqliteStore.ScanBack` | crates/chat-server/src/store/sqlite/messages.rs:61-84 | a bounded scan from the newest row yields the last matching rows, newest first |
| `Store.SqliteStore.ScanUp` | crates/chat-server/src/store/sqlite/messages.rs:87-111 | a bounded scan from the oldest row yields the first matching rows |
| `Store.SqliteStore.MessagesNewest` | crates/chat-server/src/store/sqlite/messages.rs:61-84 | the last `limit` messages of the room's log, oldest first |
| `Store.SqliteStore.MessagesAfter` | crates/chat-server/src/store/sqlite/messages.rs:87-111 | the first `limit` messages of the log above the cursor |
| `Store.SqliteStore.MessagesBefore` | crates/chat-server/src/store/sqlite/messages.rs:114-141 | the last `limit` messages of the log below the cursor, oldest first |
| `Api.List` | crates/chat-server/src/api/messages.rs:74-110 | exactly when a page is answered, that it is the page `PageIsRun` describes, and that a missing room hides a bad pair of cursors |
| `Api.PageIsRun` | crates/chat-server/src/api/messages.rs:94-107 | every page is one unbroken run of its log, oldest first: right after the cursor, right before it, or at the end, with as many messages as the limit and the log allow |
| `Api.LimitIsNearest` | crates/chat-server/src/api/messages.rs:54-56 | an allowed limit is served as it is, and any other by the nearest that is allowed |
| `Api.PostTo` | crates/chat-server/src/api/messages.rs:128-161 | a refused body changes nothing; any other is the store's post, with its errors translated |
| `Api.BodyAccepted` | crates/chat-server/src/api/messages.rs:137-154 | a body passes exactly when it holds 1 to the maximum number of bytes, and is refused as too large or as empty exactly when it is |
| `Api.Utf8Spells` | crates/chat-server/src/api/messages.rs:137-146 | a character takes the bytes of its UTF-8 form: the lead byte says how many, together they spell it, and fewer would not do |
| `Api.ByteLengthCounts` | crates/chat-server/src/api/messages.rs:137-146 | the size that is limited is the number of those bytes |
| `Logs.PageIsWindow` | crates/chat-server/src/store/sqlite/messages.rs:87-111 | a page is the log between the cursor and the page's own end, and a short page is all that is left |
| `Logs.NewestPageIsWindow` | crates/chat-server/src/store/sqlite/messages.rs:61-84 | the newest page is the log from just before its first message to the end |
| `Api.WalkUpRebuilds` | crates/chat-server/src/api/messages.rs:52-110 | asking for what follows each page from START until one is short yields the whole log, for every clamped limit |
| `Api.WalkDownRebuilds` | crates/chat-server/src/api/messages.rs:52-110 | so does putting earlier pages before the newest one |
| `Server.EveryMessageIsWellFormed` | crates/chat-server/src/api/messages.rs:128-161 | in every run every stored message is in an existing room, of an allowed size, by a name registered up to ASCII case |
| `Server.StepIsSound` | crates/chat-server/src/api/auth.rs:139-164 | each statement of each request keeps that, through tokens and logins that are part-way |
| `Authorship.TokensAreIssued` | crates/chat-server/src/api/auth.rs:139-164 | over every run a name has a token exactly when the right password was once given for a login of that name that had found its account |
| `Authorship.EveryTokenIsEarned` | crates/chat-server/src/api/auth.rs:139-164 | every token goes back to one login: the look-up that found the account, and after it the verified password |
| `Authorship.EveryMessageWasSent` | crates/chat-server/src/api/messages.rs:128-161 | over every run every stored message has the author, room and body of one accepted request, whose token named that author, and the time of its insert |
| `Authorship.AcceptedIsStored` | crates/chat-server/src/api/messages.rs:128-161 | a request that is accepted is stored as it was sent, if its room exists, its time fits and the sequence lasts |
| `Authorship.NamesAreFit` | crates/chat-server/src/api/auth.rs:37-52 | over every run every account goes by 1 to 32 characters that are no control characters, and every room by 1 to 64 that are printable ASCII |
| `Server.CapsHold` | crates/chat-server/src/store/sqlite.rs:86-95 | from a fresh store rooms never pass max(cap, 1), accounts never pass their cap, names stay unique and the lobby stays first |
| `Server.EveryServerIsServable` | crates/chat-server/src/store/sqlite.rs:86-95 | every run leaves the tables that the clients' runs start from: keyed rows, rooms under distinct names, at least one |
| `Server.TablesRunAlone` | crates/chat-server/src/api/rooms.rs:88-100 | creations inside the whole server behave as the name tables alone, so everything proved of those holds of it |
| `Server.ServerWideOrder` | crates/chat-core/src/api/v1.rs:64-84 | keys count commits from 1; whatever runs next only adds to the end of every log, above all that was read |
| `Server.LogIsAppended` | crates/chat-server/src/store/sqlite/messages.rs:25-58 | more rows at the end of the table are more messages at the end of each log, all above what was there |
| `Feed.MessagesFeed.constructor` | crates/chat-client-core/src/feed.rs:57-76 | the feed over its opening page: cursor, what is held and whether it is catching up |
| `Feed.MessagesFeed.Next` | crates/chat-client-core/src/feed.rs:88-117 | a whole call, dropped anywhere or run to its end, does what its signals do one at a time |
| `Feed.RoomsPoller.Next` | crates/chat-client-core/src/feed.rs:158-173 | the same for the rooms feed |
| `Feed.TurnByTurn` | crates/chat-client-core/src/feed.rs:94-116 | how each turn of the loop ends, and that an empty page leads to the next turn |
| `FeedRuns.ExactlyOnce` | crates/chat-client-core/src/feed.rs:57-117 | in every interleaving, batches handed over followed by what is held equal the room's log from the start to the cursor; no batch is empty |
| `FeedRuns.StepIsGapless` | crates/chat-client-core/src/feed.rs:88-117 | each step keeps that, with a reply that may be older than the table |
| `FeedRuns.FetchesArePaced` | crates/chat-client-core/src/feed.rs:94-108 | from its opening fetch on, after a failed fetch or a short page a feed begins no fetch before that moment plus the interval, in every run |
| `FeedRuns.DeadlineHolds` | crates/chat-client-core/src/feed.rs:94-105 | no number of calls, made or dropped, moves a deadline until a fetch settles |
| `FeedRuns.CalledThroughDeadlineFetches` | crates/chat-client-core/src/feed.rs:94-105 | a call polled through the deadline fetches, however many were dropped before |
| `FeedRuns.NewestWaitsFirst` | crates/chat-client-core/src/feed.rs:63-74 | a feed opened at the newest page waits a whole interval before its first fetch, however full that page was |
| `FeedRuns.AskedWaitsInterval` | crates/chat-client-core/src/feed.rs:94-100 | a call with nothing held and no deadline fetches at once if it is catching up, and otherwise waits exactly an interval |
| `RoomsFeedRuns.ListsArePacedAndTold` | crates/chat-client-core/src/feed.rs:158-173 | the rooms feed waits out the interval after every settled read, and hands every read over in order |
| `RoomsFeedRuns.ListDeadlineHolds` | crates/chat-client-core/src/feed.rs:163-171 | and its deadline moves only when a read settles |
| `RoomsFeedRuns.DeadlineIsInterval` | crates/chat-client-core/src/feed.rs:163-167 | a call with nothing held and no deadline sets one exactly an interval ahead, and waits |
| `RoomsFeedRuns.PolledPastDeadlineFetches` | crates/chat-client-core/src/feed.rs:163-169 | a call polled at or past the deadline fetches, however many were dropped before it |
| `RoomsFeedRuns.AnswerReachesCaller` | crates/chat-client-core/src/feed.rs:169-173 | what the server answers, a failure too, reaches the caller as it is and clears the deadline |
| `CatchUp.NoWaitBetween` | crates/chat-client-core/src/feed.rs:94-108 | in every run without posts or failures, a feed opened after a position with n messages outstanding is catching up exactly until n/p + 1 fetches have settled; until then it has no deadline and never waits |
| `CatchUp.FirstWaitIsExact` | crates/chat-client-core/src/feed.rs:63-115 | whatever such a run does, it comes to its first wait with exactly n/p + 1 fetches settled, the opening one included |
| `CatchUp.CaughtUpIsDelivered` | crates/chat-client-core/src/feed.rs:88-117 | in every such run, a feed that no longer asks at once and holds nothing has delivered exactly what was outstanding |
| `CatchUp.CatchesUp` | crates/chat-client-core/src/feed.rs:63-115 | the bound is met: a caller that keeps asking is told everything in n/p + 1 fetches at one instant, and then waits |
| `CatchUp.RequestsSettle` | crates/chat-client-core/src/feed.rs:101-108 | while no call is dropped every request sent settles but the one that is out, so fetches settled are fetches made |
| `CatchUp.LargePagesNeverCatchUp` | crates/chat-server/src/api/messages.rs:54-56 | asking for more than 200 is never a full page |
| `Session.ChatClient.Build` | crates/chat-client-core/src/client.rs:277-284 | an authenticated request carries the session's token, and without a session is not sent |
| `Session.ChatClient.Finish` | crates/chat-client-core/src/client.rs:290-302 | only a 401 to a request that carried the current token ends the session, and what the caller is told |
| `Session.SendCarriesToken` | crates/chat-client-core/src/client.rs:277-284 | a request that needs a session carries the current token, goes nowhere without one, and any other carries none |
| `Session.EveryRequestWasBuilt` | crates/chat-client-core/src/client.rs:261-288 | over every run every request on the wire is one that was sent, with the token that was current then exactly if it needs one |
| `Session.SessionIsTheLoginStanding` | crates/chat-client-core/src/client.rs:261-334 | in every interleaving a session is held exactly when some login stands: not logged out, replaced, or refused by its own token; every request went out with the token standing when it was built |
| `Session.LateRefusalSpares` | crates/chat-client-core/src/client.rs:290-314 | over any run of replies and sends with no login or logout, a session outlasts them all exactly when none is a 401 to a request that carried its own token, and otherwise is gone for good |
| `Chat.ChatScreen.constructor` | crates/chat-ui-ratatui/src/screens/chat.rs:69-87 | the new screen, with every listed room read as it stands |
| `Chat.ChatScreen.Show` | crates/chat-ui-ratatui/src/screens/chat.rs:100-108 | the new list, with the open room selected wherever it is now |
| `Chat.ChatScreen.AppendBatch` | crates/chat-ui-ratatui/src/screens/chat.rs:111-120 | the batch goes on the end and the open room is read to it |
| `Chat.ChatScreen.OpenAt` | crates/chat-ui-ratatui/src/screens/chat.rs:186-198 | a selection moves and empties the pane, unless it is the same one or a call is out |
| `Chat.ChatScreen.TakeLine` | crates/chat-ui-ratatui/src/screens/chat/commands.rs:48-107 | what each typed line does, and which are refused while a call is out |
| `Chat.WhatIsUnderstood` | crates/chat-ui-ratatui/src/screens/chat/commands.rs:48-107 | what is sent is never blank, nor padded, nor the help command; a room is asked for by one word that takes up at most 10 cells, however the screen measures them |
| `ChatPromises.RoomIsAskedFor` | crates/chat-ui-ratatui/src/screens/chat/commands.rs:48-107 | the command and one word, however they are spaced, ask for a room of that name exactly if it takes up at most 10 cells |
| `ChatPromises.OneWordIsNeeded` | crates/chat-ui-ratatui/src/screens/chat/commands.rs:85-92 | the command with two words or none is refused |
| `ChatPromises.OtherLinesAreSaid` | crates/chat-ui-ratatui/src/screens/chat/commands.rs:48-83 | any line that starts with another word is said as it stands without the spaces around it, and a line of spaces is nothing |
| `ChatPromises.EnterShows` | crates/chat-ui-ratatui/src/screens/chat/commands.rs:48-107 | what each kind of line leaves in the composer, the notices and the scroll, and that only a call that has to wait keeps the text |
| `ChatPromises.TypedIsRead` | crates/chat-ui-ratatui/src/screens/chat.rs:144-183 | Enter reads the line as it was typed last: it is sent, or kept as it was typed while a call is out |
| `ChatPromises.KeysScroll` | crates/chat-ui-ratatui/src/screens/chat.rs:144-183 | a scrolling key moves the view by its rows, no further than the ends, and follows again at the lower one |
| `ChatPromises.SelectionFollows` | crates/chat-ui-ratatui/src/screens/chat.rs:100-108 | a list keeps the open room selected wherever it has moved to, and otherwise selects the top |
| `ChatPromises.NewScreenIsQuiet` | crates/chat-ui-ratatui/src/screens/chat.rs:69-87 | a new screen is its reader's own, at the top of the list, with no room badged |
| `ChatPromises.LinesSayMessages` | crates/chat-ui-ratatui/src/screens/chat/view.rs:134-170 | the pane's lines say every message once and in order, and mark the reader's own |
| `ChatPromises.DayLineIff` | crates/chat-ui-ratatui/src/screens/chat/view.rs:134-170 | a day stands over a message exactly when the message falls on a day that the last dated message before it does not |
| `ChatPromises.DrawShows` | crates/chat-ui-ratatui/src/screens/chat/view.rs:120-190 | a draw shows the open room's name over the lines of its messages and then its notices, and reports what that measures, whether or not it merged the kept pane |
| `Chat.ChatScreen.DrawMessages` | crates/chat-ui-ratatui/src/screens/chat/view.rs:120-190 | merges the kept pane when it stands, and otherwise keeps what the lines draw to |
| `PaneCache.CounterMovesWithContents` | crates/chat-ui-ratatui/src/screens/chat.rs:90-198 | whatever leaves the counter alone leaves the title, messages and notices alone |
| `PaneCache.KeptPaneIsFresh` | crates/chat-ui-ratatui/src/screens/chat/view.rs:39-53 | in every state reachable with lists that keep the open room's title, for every renderer, a pane that still stands is what a fresh draw would produce |
| `PaneCache.DrawIgnoresTheCache` | crates/chat-ui-ratatui/src/screens/chat/view.rs:120-190 | drawing is drawing with nothing kept |
| `PaneCache.ListedPaneIsFreshIff` | crates/chat-ui-ratatui/src/screens/chat.rs:100-108 | after any list the kept pane still stands; for every renderer it is right exactly when the new title draws as the old did, and the titles are equal exactly when the list keeps the open room's |
| `PaneCache.RenamedRoomIsStale` | crates/chat-ui-ratatui/src/screens/chat.rs:100-108 | one list that renames the open room, after which the kept pane stands under the old name |
| `App.TerminalApp.OpenSelectedRoom` | crates/chat-ui-ratatui/src/app.rs:384-407 | asks before it lets the old room go, so a refusal changes nothing |
| `App.TerminalApp.SignOutOn` | crates/chat-ui-ratatui/src/app.rs:469-484 | which failures end the session, and everything that is dropped with it |
| `App.TerminalApp.TakeAnswer` | crates/chat-ui-ratatui/src/app.rs:266-322 | what each answer does, and the call it leads to |
| `App.TerminalApp.TakeRooms` | crates/chat-ui-ratatui/src/app.rs:184-198 | a list is shown, and asks again for a room whose open failed |
| `App.TerminalApp.TakeMessages` | crates/chat-ui-ratatui/src/app.rs:201-211 | a batch is appended, a failure may end the session |
| `App.TerminalApp.TakeKey` | crates/chat-ui-ratatui/src/app.rs:224-263 | which keys start which call, on which screen |
| `TerminalRuns.RunKeepsInv` | crates/chat-ui-ratatui/src/app.rs:155-181 | every run of the app and its server keeps the invariant the promises below rest on |
| `TerminalPromises.ReachesInv` | crates/chat-ui-ratatui/src/app.rs:142-181 | so a promise stated of every state that keeps it holds in every state a fresh app can reach, whatever tables the server starts with |
| `TerminalPromises.PaneIsTheLog` | crates/chat-ui-ratatui/src/app.rs:201-211 | in every state the stream, the watched room and the selected room are one, and the pane is an unbroken, increasing segment of that room's log |
| `TerminalPromises.OnlyTheStreamFills` | crates/chat-ui-ratatui/src/app.rs:201-322 | in every step that stays on the chat screen the pane is unchanged, or grows by the stream's batch, or is emptied by the key that moves the selection; no answer, list, failure or draw touches it |
| `TerminalPromises.AcknowledgedSendMovesNothing` | crates/chat-ui-ratatui/src/app.rs:305-307 | the answer to an acknowledged send frees the app for its next call and changes nothing else of the app or its stream |
| `TerminalPromises.CallsArePaired` | crates/chat-ui-ratatui/src/app.rs:77-112 | live calls and waiting answers number one while pending and none otherwise, always the showing screen's own; streams exist only on the chat screen |
| `TerminalPromises.SigningOutStrands` | crates/chat-ui-ratatui/src/app.rs:469-484 | only signing out drops a channel, and every call then out answers through a dropped one |
| `TerminalPromises.StrandedNeverAnswers` | crates/chat-ui-ratatui/src/app.rs:97-112 | the answer to a call made before signing out never reaches the app again, however the run goes on |
| `TerminalPromises.NoRoomIsOrphaned` | crates/chat-ui-ratatui/src/app.rs:281-314 | on the chat screen the room is watched, being opened, or waiting to be asked for again, and never two of those at odds |
| `TerminalPromises.ListReopens` | crates/chat-ui-ratatui/src/app.rs:184-198 | a list that arrives while the room waits and nothing is out always starts the open |
| `TerminalPromises.LoginOpensIffListed` | crates/chat-ui-ratatui/src/app.rs:281-288 | a login starts opening the first room it lists, and with an empty list starts nothing and leaves nothing that would |
| `TerminalPromises.UnopenedUntilMoved` | crates/chat-ui-ratatui/src/app.rs:184-198 | from such a state, over any run in which no key moves the selection and the session lasts, no list, answer or other key opens a room |
| `TerminalPromises.MovingOpens` | crates/chat-ui-ratatui/src/screens/chat.rs:186-198 | and the first key that moves the selection starts the open of the room it moves to |
| `TerminalCalls.SessionEndsIff` | crates/chat-ui-ratatui/src/app.rs:441-484 | in every step the app signs out, with everything dropped, exactly when an answer or a stream hands it a failure that ends the session |
| `TerminalCalls.ChatIsLeftIff` | crates/chat-ui-ratatui/src/app.rs:469-484 | so the chat screen is left exactly then, and for signing in |
| `TerminalCalls.RefusalIsShown` | crates/chat-ui-ratatui/src/app.rs:455-467 | any other failure of a call is shown as the pane's notice, in view, and the text of a send that failed is back in the composer |
| `TerminalCalls.EveryCallWasAsked` | crates/chat-ui-ratatui/src/app.rs:224-263 | in every run every call was asked for: a post by the trimmed line that was typed, in the room open at that moment; a room by the name in the line; a login by the name on the form |
| `TerminalCalls.EnterSends` | crates/chat-ui-ratatui/src/app.rs:410-427 | a line that says something starts its post to the open room at once and empties the composer |
| `TerminalCalls.EnterCreates` | crates/chat-ui-ratatui/src/app.rs:429-439 | so does a line that names a room |
| `TerminalCalls.RefusedLineStays` | crates/chat-ui-ratatui/src/screens/chat/commands.rs:72-76 | with a call unanswered such a line changes nothing, and stays as it was typed |
| `TerminalCalls.FormsStart` | crates/chat-ui-ratatui/src/app.rs:237-252 | with nothing unanswered the forms start what their keys name: a connection, a registration, a login under the name on the form |
| `TerminalCalls.FormsLead` | crates/chat-ui-ratatui/src/app.rs:270-273 | a server that was reached is signed in to, with an empty form |
| `TerminalCalls.QuittingIsFinal` | crates/chat-ui-ratatui/src/app.rs:224-232 | the quitting key ends the loop and changes nothing else, no other key ends it, and afterwards no key or answer does anything |
| `TerminalCalls.RegisteringLogsIn` | crates/chat-ui-ratatui/src/app.rs:273-279 | a registration leads on to a login under the name on the form |
| `TerminalCalls.LoggingInShowsOwn` | crates/chat-ui-ratatui/src/app.rs:281-288 | and a login to a chat screen of that reader's own, over the rooms listed |
| `TerminalCalls.OpeningStartsEmpty` | crates/chat-ui-ratatui/src/app.rs:384-407 | a room that is being opened starts from an empty pane that follows its end, with the typed line and the read positions kept |
| `TerminalPromises.ReadNeverGoesBack` | crates/chat-ui-ratatui/src/screens/chat.rs:111-120 | over a chat screen's life no room's read position decreases, though it is written without looking |
| `TerminalPromises.BadgesAreExact` | crates/chat-ui-ratatui/src/screens/chat.rs:201-231 | a room not watched is badged exactly when its log, as listed, holds a message past what was read |
| `TerminalPromises.DrawsAreFresh` | crates/chat-ui-ratatui/src/screens/chat/view.rs:39-53 | in every state of every run of the app, drawing from the kept pane is drawing from scratch |
| `Merge.FormsAgreeIff` | ios/App/ChatViewModel.swift:334-341 | the iOS and Android merges agree exactly when nothing new in the batch comes twice, as in every page |
| `Merge.RepeatIsHeldTwice` | ios/App/ChatViewModel.swift:334-341 | one batch with a repeat, which the iOS form would hold twice and the Android form once |
| `Merge.HeldIsNotReplaced` | android/app/src/main/kotlin/com/anapaya/chat/app/ChatViewModel.kt:110-112 | the result is strictly sorted, covers the seqs of both, and keeps every held message itself |
| `Merge.AnyOrderOfPages` | android/app/src/main/kotlin/com/anapaya/chat/app/ChatViewModel.kt:110-112 | folding either merge over any pages of a log gives the log restricted to the union of their seqs |
| `Merge.MergeIsConfluent` | ios/App/ChatViewModel.swift:334-341 | so order and overlap do not matter, and the two apps hold the same |
| `Phone.IosViewModel.TakeBatch` | ios/App/ChatViewModel.swift:289-313 | a batch is merged, marked seen and badged only while its room is still open |
| `Phone.IosViewModel.OpenRoom` | ios/App/ChatViewModel.swift:195-203 | another room empties the pane and works the badges out again, the same one changes nothing |
| `Phone.IosViewModel.MergeBatch` | ios/App/ChatViewModel.swift:334-341 | the in-place merge is the iOS form |
| `Phone.IosViewModel.FindUnread` | ios/App/ChatViewModel.swift:325-331 | the loop finds exactly the rooms defined to be unread |
| `Phone.AndroidViewModel.TakeBatch` | android/app/src/main/kotlin/com/anapaya/chat/app/ChatViewModel.kt:304-314 | the same on Android, with its own merge |
| `Phone.AndroidViewModel.LogIn` | android/app/src/main/kotlin/com/anapaya/chat/app/ChatViewModel.kt:194-215 | a login seeds what was seen and starts with the badges that follow from it |
| `Unread.UnreadRooms.Of` | android/app/src/main/kotlin/com/anapaya/chat/app/RoomName.kt:33-37 | the loop finds exactly the rooms defined to be unread |
| `Unread.UnreadRooms.Seed` | android/app/src/main/kotlin/com/anapaya/chat/app/RoomName.kt:23-26 | every listed room read as it stands, and nothing else |
| `Unread.SeedingIsQuiet` | android/app/src/main/kotlin/com/anapaya/chat/app/RoomName.kt:22-37 | after seeding from a list no room in it is unread |
| `Unread.AdvancingTwiceIsOnce` | android/app/src/main/kotlin/com/anapaya/chat/app/RoomName.kt:28-30 | advancing is a maximum in one room alone, and idempotent |
| `PhoneRuns.HeldIsTheOpenRooms` | ios/App/ChatViewModel.swift:289-313 | on either app, under every interleaving of room switches and reads, held messages are strictly sorted and all from the open room's log |
| `PhoneRuns.BatchHolds` | android/app/src/main/kotlin/com/anapaya/chat/app/ChatViewModel.kt:304-314 | a batch of the open room leaves its log restricted to more seqs, and any other batch changes nothing |
| `PhoneRuns.PickedIsOpen` | ios/App/ChatViewModel.swift:195-203 | on either app a room that is picked is the open one, with an empty pane unless it was open already |
| `PhoneRuns.OpenIsLastPicked` | ios/App/ChatViewModel.swift:176-203 | over every run the open room is the one picked last, or after a login the first one listed until one is picked |
| `PhoneRuns.LoginShowsList` | android/app/src/main/kotlin/com/anapaya/chat/app/ChatViewModel.kt:194-215 | a login shows its list, opens the first room of it with an empty pane, and counts all that is listed as seen |
| `PhoneRuns.ListLeavesRoom` | android/app/src/main/kotlin/com/anapaya/chat/app/ChatViewModel.kt:272-289 | a list is shown and badged, and leaves the open room and what is held of it |
| `PhoneRuns.BatchIsSeen` | ios/App/ChatViewModel.swift:289-323 | a batch of the open room is seen to its newest message, in that room alone, and never less than before |
| `PhoneRuns.EndedShowsNothing` | ios/App/ChatViewModel.swift:354-361 | an ended session shows no messages and no badges |
| `PhoneRuns.AndroidBadgesAreExact` | android/app/src/main/kotlin/com/anapaya/chat/app/ChatViewModel.kt:272-314 | on the chat screen a room is badged exactly when it is not open and its listed log holds a message past what was seen |
| `PhoneRuns.SeenNeverGoesBack` | android/app/src/main/kotlin/com/anapaya/chat/app/RoomName.kt:28-30 | what was seen only grows between logins |
| `PhoneRuns.UpdatesRunTwice` | android/app/src/main/kotlin/com/anapaya/chat/app/ChatViewModel.kt:304-314 | running an update again on the same state, or on its own result, changes nothing |
| `PhoneRuns.RetryIsOneBatchIff` | android/app/src/main/kotlin/com/anapaya/chat/app/ChatViewModel.kt:304-314 | run again on a state that changed in between, a batch's update does what it should exactly when the room is still open, or the batch brings nothing newer than was seen |
| `PhoneRuns.RetryLeavesBadge` | android/app/src/main/kotlin/com/anapaya/chat/app/ChatViewModel.kt:304-314 | a state in which the reader has moved on between the two runs, and is left with a badge for messages that count as seen |
| `PhoneRuns.IosLoginIsExactIff` | ios/App/ChatViewModel.swift:176-191 | right after an iOS login the badges are right exactly when none were left from before |
| `PhoneRuns.IosBadgesAreExactIff` | ios/App/ChatViewModel.swift:273-331 | over every run from a login to the end of its session, they are right exactly when none were left from before, or something since has worked them out again |
| `PhoneRuns.IosSessionIsExactIff` | ios/App/ChatViewModel.swift:195-331 | within a session a list, a batch of the open room or another room makes the badges right, and nothing makes right ones wrong |
| `PhoneRuns.StaleBadgeSurvivesLogin` | ios/App/ChatViewModel.swift:273-287 | a run in which a list lands after the session ended and its badge outlives the next login |
| `ChatRows.Rows` | ios/App/ChatRows.swift:72-108 | the one pass yields the rows that `RowSays` and `DaysSeparate` describe |
| `ChatRows.RowSays` | ios/App/ChatRows.swift:85-104 | each message's row opens a group exactly when it is the first or its author or day is not the previous message's, closes one exactly when it is the last or the next one's is not, and is the reader's exactly when its author is |
| `ChatRows.DaysErase` | android/app/src/main/kotlin/com/anapaya/chat/app/ui/chat/ChatRows.kt:59-98 | taking the days out gives the messages back in order |
| `ChatRows.DaysSeparate` | ios/App/ChatRows.swift:76-83 | a day row stands above a message exactly when its day is not the previous message's, and carries that day and its caption |
| `ChatRows.ClosesIff` | ios/App/ChatRows.swift:85-92 | a message closes its group exactly when it is the last or the next one opens |
| `ChatRows.GroupsAreRuns` | ios/App/ChatRows.swift:85-92 | on the rows drawn, groups are exactly the maximal runs of one author on one day |
| `ChatRows.EachInOneGroup` | android/app/src/main/kotlin/com/anapaya/chat/app/ui/chat/ChatRows.kt:71-77 | on the rows drawn, every message is in exactly one group |
| `ChatRows.NameFollowsIff` | android/app/src/main/kotlin/com/anapaya/chat/app/ui/chat/ChatRows.kt:79-83 | a name follows exactly when the very next row is another author's opening message that is not the reader's |

## Left out

- The transports (SCION, QUIC, TLS, TCP), certificates and settings: a request is answered, fails or is dropped.
- The development network, the command line and the OpenAPI document: plumbing.
- Argon2 and JWT: whether a password matches is an oracle, a token is the name it was issued for, and expiry is a refusal that may come at any time.
- SQL text, pools, WAL and the schema version: a statement is one atomic step, and a rebuild never happens in a run.
- Reading the clock: times are parameters of the events.
- Colours, wrapping, widths, date formats and time zones: rendering, the cells a text takes up and the day of a timestamp are arbitrary functions. Rendering and days are fixed over a run. A time zone that changes mid-run would outdate a kept pane.
- Error texts and the `error` line of each screen, which nothing else reads.
- Editing the typed line and the forms key by key: a key may set the text to anything.
- The scroll offset and the revision counter are unbounded where the source has 16 and 64 bits.
- `App.TerminalApp`: the loop that waits on keys, streams and answers is the events of `Terminal`, in any order; the chat screen is held as a value inside it, and `Chat.ChatScreen` is the object.
- `Terminal.Step`: what a call does on the server is not tied to its answer, so a post, a new room or a login may take effect whether or not its call is answered. At-most-once sends are not promised by the source.
- A feed whose page size is above the largest unsigned 32-bit number is never answered in the model, as the server rejects its query.
- `PhoneRuns.HeldIsTheOpenRooms`: does not claim that what a phone holds has no gaps, because the apps start from the newest page when they hold nothing and an Android retry starts again, so messages can be skipped.
- `PhoneRuns.Step`: a read may be for any room at any cursor and land any number of times, which covers both apps' read loops and their cancellation.
- `ChatRows.Rows`: a day row carries the day's number and its caption; Android keeps the caption alone.
- The phone clients' sessions: they drop the token on any expiry, so late refusals are not safe there.
- Registration, connecting, drafts and notices on the phones: independent of what is proved.
