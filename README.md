# SyncSound room coordination in Dafny

SyncSound is a shared listening room. A host creates a room, and participants join it. Everyone sees one queue, one current track, one play/pause flag and one chat. A socket server keeps the clients' views in step. This project models the parts of SyncSound that make decisions, and proves what they promise:

- **The socket server** (`SocketServer.Server`). Its fields are:
  - the in-memory presence registry `usersInRooms`, with the order in which its keys were created kept in `roomOrder`;
  - the stored room documents `rooms`;
  - an `outbox` holding every emitted event, tagged with its addressee: one socket, a whole room, or a room except the sender.

  There is one method per socket event. Each method is proved against pure functions over the registry (module `Registry`) and over a room's playback state (module `Playback`).
- **The `for...in` key order** (`KeyOrder`). `disconnect` scans the registry with `for...in`, which visits an object's own keys as OrdinaryOwnPropertyKeys (section 10.1.11.1 of ECMA-262) lists them. Keys that are array indices (canonical decimals up to 2^32 - 2) come first, in ascending numeric order. The other keys follow in creation order. `KeyOrder.ScanOrder` computes this order from `roomOrder`.
- **The room REST controller** (`RoomController`): creating, listing, opening and joining rooms. `createRoom` and `joinRoom` are methods of a `RoomStore` class over a map of rooms. Listing and opening are functions.
- **The error handler** (`ErrorMiddleware`): status normalisation and stack suppression.
- **The track search endpoint** (`MusicSearch`): the query guard and the mapping of video results to tracks.
- **The client room page** (`RoomPage.RoomClient`): the state the page mirrors, the socket listeners that overwrite or extend that state, and the host gating of every control it emits.
- **Two end-to-end scenarios** (`Session`). In one, a host and a guest join, two tracks are queued, the host advances, and the guest leaves. In the second, the two pages react to the same events. The third joins the two: the guest's page is handed the advance the server broadcast.

Inputs stand in for the parts that cannot be modelled:

- JavaScript values that may be `undefined`, `null` or `""` are `Option`s. `Types.Truthy` gives the falsiness of strings.
- A database call's outcome is an input: `dbOk` in the socket handlers and `dbFailure` in the controller.
- The authenticated caller (`requester`) and the id the database assigns to a new room (`newId`) are inputs.
- The search results (`results`) and the stored user and fetched room data of the page are inputs.

Where the code does something other than what its documentation or comments suggest, the model follows the code:

- **Disconnect notification.** `disconnect` notifies the room only when an entry was found *and* the room id is not the empty string, because `if (roomID && …)` treats `""` as false (`SocketServer.LeaveEvents`).
- **No host checks on the server.**
  - `togglePlay` broadcasts the requested flag even when no room has that id, because `findByIdAndUpdate` resolves to `null` without throwing.
  - No server handler checks that the caller is the host.
  - `togglePlay` does not check that a track is current.
  - A socket that joins twice is not de-duplicated.
  - Only the client gates these, in `RoomPage`.
- **`isHost` before loading.** `isHost` is `userInfo?._id === room?.host`, so it is also true while the page has neither a user nor a room (`undefined === undefined`).
- **`getRooms` never fails with 404.** `Room.find` yields an array, and every array is truthy, so the "no rooms found" 404 branch cannot be taken.
- **The `createRoom` 400 branch.** The "could not create" 400 branch after `Room.create` cannot be reached either: `create` resolves to the document or throws.
- **Chat messages are not trimmed.** `sendMessageHandler` tests the trimmed message but sends it untrimmed.
- **Errors inside socket handlers.**
  - A chat message or queued track that arrives without a user makes the handler throw while reading `user._id`.
  - `addTrackToQueue` catches that throw. The model also emits nothing for a chat message without a user (see Left out).
- **A failed database call in a controller.** The call throws while the response status is still 200. If the error reaches the error handler, the handler answers 500 (`RoomController.OpenErrorReply`, `RoomController.ListErrorReply`). Whether a rejected async controller reaches the handler at all depends on the Express version (see Left out).

## Model

| member | source | states |
|---|---|---|
| `Types.Option.GetOr` | syncsound-project/client/src/pages/RoomPage.js:45-47 | `x \|\| default` on an optional value: the value when present, else the default |
| `Types.Truthy` | syncsound-project/server/controllers/musicController.js:4-5 | a string field is falsy iff it is absent or the empty string |
| `Types.IsParticipant` | syncsound-project/server/controllers/roomController.js:52 | a user participates iff some entry of the room's participants is that user |
| `Types.RefOf` | syncsound-project/server/socket.js:100 | the `{ _id, name }` projection keeps exactly the user's id and name |
| `Types.Stamp` | syncsound-project/server/socket.js:109 | a queued track is the submitted track with `addedBy` set to the adder's id and name, all other fields copied |
| `Playback.Enqueue` | syncsound-project/server/socket.js:110 | the queue gains the track at its tail; current track, flag and membership unchanged |
| `Playback.Advance` | syncsound-project/server/socket.js:132-133 | a non-empty queue's head becomes current, the tail stays queued, and the room plays; an empty queue clears the current track and stops |
| `Playback.SetPlaying` | syncsound-project/server/socket.js:121 | only the flag changes, to the requested value, with no condition on the current track |
| `Playback.EnqueueAllAppends` | syncsound-project/server/socket.js:105-117 | successive appends end with the old queue followed by all added tracks in order, the rest untouched |
| `Playback.AdvancePlaysInOrder` | syncsound-project/server/socket.js:128-139 | the queue is first-in first-out: the n-th advance plays the n-th queued track and leaves the later ones queued |
| `Playback.AdvancePastEndStops` | syncsound-project/server/socket.js:132-133 | advancing more times than there are queued tracks ends with no track, an empty queue and playback stopped |
| `Playback.PlayingHasTrackPreserved` | syncsound-project/server/socket.js:110-133 | appending and advancing keep "playing implies a current track"; setting the flag keeps it exactly when clearing or when a track is current |
| `Playback.EnqueueEnqueueAdvance` | syncsound-project/server/socket.js:105-144 | two appends to an empty queue then an advance play the first track and keep the second queued |
| `KeyOrder.IndexKeys` | syncsound-project/server/socket.js:74 | the keys that are array indices, each of them one |
| `KeyOrder.NamedKeys` | syncsound-project/server/socket.js:74 | the keys that are not array indices, none of them one |
| `KeyOrder.SplitKeys` | syncsound-project/server/socket.js:74 | every key is either an array index or not: the two filters together hold exactly the created keys |
| `KeyOrder.Insert` | syncsound-project/server/socket.js:74 | inserting a key by rank adds exactly that key |
| `KeyOrder.InsertSorted` | syncsound-project/server/socket.js:74 | insertion into a sequence sorted by numeric rank keeps it sorted |
| `KeyOrder.Sort` | syncsound-project/server/socket.js:74 | sorting by rank keeps exactly the same keys |
| `KeyOrder.SortSorted` | syncsound-project/server/socket.js:74 | the sorted array-index keys are in ascending numeric order |
| `KeyOrder.ScanOrder` | syncsound-project/server/socket.js:74 | `for...in` visits every created key exactly once |
| `KeyOrder.ScanSameKeys` | syncsound-project/server/socket.js:74 | a key is visited iff it was created |
| `KeyOrder.ScanVisitsIndicesFirst` | syncsound-project/server/socket.js:74 | every key visited before an array index is a smaller-or-equal array index: indices first, ascending |
| `KeyOrder.ScanKeepsNamedOrder` | syncsound-project/server/socket.js:74 | the keys that are not array indices are visited in creation order |
| `KeyOrder.ScanOfNamedKeys` | syncsound-project/server/socket.js:74 | without array-index keys the visiting order is the creation order |
| `KeyOrder.ScanOfOne` | syncsound-project/server/socket.js:74 | a single key is visited alone |
| `KeyOrder.IndexOvertakesNamed` | syncsound-project/server/socket.js:74 | of two keys, an array index created after a named key is visited before it |
| `KeyOrder.NumericKeyVisitedFirst` | syncsound-project/server/socket.js:74 | a numeric key created after a named one is still visited first |
| `Registry.ListOf` | syncsound-project/server/socket.js:93 | `usersInRooms[roomId] \|\| []`: the room's list, or empty for an unknown room |
| `Registry.Others` | syncsound-project/server/socket.js:25 | the filtered list has no entry of the joiner and is shorter by exactly the joiner's entries |
| `Registry.OthersMembers` | syncsound-project/server/socket.js:25 | an entry is in the snapshot iff it is in the room's list and belongs to another socket |
| `Registry.OthersAppend` | syncsound-project/server/socket.js:25 | filtering distributes over concatenation, so the snapshot keeps join order |
| `Registry.OthersOfFresh` | syncsound-project/server/socket.js:25-27 | a joiner with no entry in the room is sent the room's whole list, in order |
| `Registry.FirstIndex` | syncsound-project/server/socket.js:75 | `findIndex`: -1 iff no entry of the socket, else the index of its first entry |
| `Registry.RemoveAt` | syncsound-project/server/socket.js:79 | splicing at an index keeps the entries before it and moves the ones after it up by one |
| `Registry.RemoveFirst` | syncsound-project/server/socket.js:75-79 | with no entry of the socket the list is unchanged, else it is one entry shorter |
| `Registry.RemoveFirstSplicesFirst` | syncsound-project/server/socket.js:75-79 | for a list holding the socket, exactly its first entry of the socket is spliced out, and the entries before and after it stay in order |
| `Registry.SplicesFirstUnique` | syncsound-project/server/socket.js:75-79 | splicing out the first entry of a socket has one result only, the one `RemoveFirst` gives |
| `Registry.Lookup` | syncsound-project/server/socket.js:74-82 | the scan finds a room that holds the socket, and finds nothing iff no room in key order holds it |
| `Registry.LookupFindsFirst` | syncsound-project/server/socket.js:74-80 | the room the scan finds is the first room, in key order, that holds the socket |
| `Registry.LookupStep` | syncsound-project/server/socket.js:74-76 | one step of the `for...in` scan: the current room if it holds the socket, else the rest of the scan |
| `Registry.AfterLeave` | syncsound-project/server/socket.js:74-82 | the disconnect keeps every room key, and changes nothing when the scan finds no entry |
| `Registry.JoinOrder` | syncsound-project/server/socket.js:19-21 | the key order keeps the old keys as a prefix, gains at most the joined room's key, and keeps the registry's keys in step with it |
| `Registry.AfterJoin` | syncsound-project/server/socket.js:19-30 | the joined room's key exists afterwards, its list is the old list (or empty) followed by the joiner, and every other room is unchanged |
| `Registry.ValidForSameRooms` | syncsound-project/server/socket.js:19-21 | a key order that matches one registry matches any registry with the same keys |
| `Registry.JoinsKeepOrder` | syncsound-project/server/socket.js:19-30 | sockets that join one after another leave the room's list in join order |
| `Registry.JoinSnapshotIsPredecessors` | syncsound-project/server/socket.js:25-30 | with distinct socket ids, the n-th joiner's snapshot is exactly the sockets that joined before it, in order |
| `Registry.CountAppend` | syncsound-project/server/socket.js:30 | entry counts add over concatenation |
| `Registry.CountPositive` | syncsound-project/server/socket.js:75 | a list has an entry of the socket iff its count of them is positive |
| `Registry.RemoveAtCount` | syncsound-project/server/socket.js:79 | splicing out one entry lowers the socket's count by one exactly when that entry is the socket's |
| `Registry.RemoveFirstCount` | syncsound-project/server/socket.js:75-79 | splicing out the first entry of a socket removes exactly one of its entries |
| `Registry.DisconnectRemovesOne` | syncsound-project/server/socket.js:74-82 | a found socket loses exactly its first entry in the room found, the room's other entries stay in order, and every other room is unchanged; if not found, nothing changes |
| `Registry.LookupOnly` | syncsound-project/server/socket.js:74-82 | when only one room holds the socket, the scan finds that room |
| `Registry.LeaveUndoesFreshJoin` | syncsound-project/server/socket.js:30-82 | a disconnect scan that visits the joined room undoes the join of a socket with no entry anywhere |
| `Registry.JoinLeaveRoundTrip` | syncsound-project/server/socket.js:12-89 | join then disconnect of a socket with no entry restores the registry, apart from an empty list the join created |
| `Registry.SecondDisconnectFindsNothing` | syncsound-project/server/socket.js:74-88 | after one disconnect a socket with at most one entry has none, so a second disconnect finds nothing and changes nothing |
| `SocketServer.RelaySending` | syncsound-project/server/socket.js:43-53 | 'sending signal' is forwarded iff the target is not the caller, to the target, with signal, caller id and user unchanged |
| `SocketServer.RelayReturning` | syncsound-project/server/socket.js:56-65 | 'returning signal' is forwarded iff the caller is not the sender, to the caller, stamped with the sender's id |
| `SocketServer.LeaveEvents` | syncsound-project/server/socket.js:84-88 | 'user left' goes to the rest of the room iff an entry was found in a room with a non-empty id |
| `SocketServer.JoinLists` | syncsound-project/server/socket.js:19-30 | the registry steps of a join leave exactly `JoinOrder`'s key order and `AfterJoin`'s registry, still consistent, and take exactly the other sockets' entries of the room as it was |
| `SocketServer.ScanAndSplice` | syncsound-project/server/socket.js:74-82 | the loop over the keys finds exactly `Lookup`'s room and leaves exactly `AfterLeave`'s registry |
| `SocketServer.Server.constructor` | syncsound-project/server/socket.js:6 | an empty registry and an empty outbox over the stored rooms |
| `SocketServer.Server.JoinRoom` | syncsound-project/server/socket.js:12-39 | no user: nothing changes and nothing is emitted; else the joiner gets the other sockets' entries as they were before the join, is appended at the tail of the room's list (created on first use, its key last in creation order), and the rest of the room is told with the joiner's name |
| `SocketServer.Server.SendingSignal` | syncsound-project/server/socket.js:43-53 | emits exactly the relay of the payload |
| `SocketServer.Server.ReturningSignal` | syncsound-project/server/socket.js:56-65 | emits exactly the relay of the answer |
| `SocketServer.Server.Disconnect` | syncsound-project/server/socket.js:68-89 | the loop over the keys in `for...in` order (array-index keys first) leaves the registry as `AfterLeave` and emits exactly `LeaveEvents` of the first room found |
| `SocketServer.Server.RequestRoomUsers` | syncsound-project/server/socket.js:92-95 | the sender gets the room's registry list, or an empty list |
| `SocketServer.Server.ChatMessage` | syncsound-project/server/socket.js:98-103 | the message goes to the whole room with only the sender's id and name |
| `SocketServer.Server.AddTrackToQueue` | syncsound-project/server/socket.js:105-117 | with a room, a user and no database failure, the stamped track is appended and the saved queue broadcast; otherwise no change and no broadcast |
| `SocketServer.Server.TogglePlay` | syncsound-project/server/socket.js:119-126 | unless the update fails, the flag is set (when the room exists) and the requested value is broadcast to the room |
| `SocketServer.Server.PlayNextTrack` | syncsound-project/server/socket.js:128-144 | with a room and no failure, the room advances and exactly the saved current track, flag and queue are broadcast; otherwise nothing |
| `ErrorMiddleware.ErrorStatus` | syncsound-project/server/middleware/errorMiddleware.js:4 | 200 becomes 500, any other status is kept, and the result is never 200 |
| `ErrorMiddleware.ErrorHandler` | syncsound-project/server/middleware/errorMiddleware.js:2-13 | the reply carries the normalised status and the error's message, and the stack unless `NODE_ENV` is `production` |
| `RoomController.NewRoom` | syncsound-project/server/controllers/roomController.js:16-20 | the created room's host is the caller, its participants are exactly the caller, with an empty queue, no track and paused |
| `RoomController.Joined` | syncsound-project/server/controllers/roomController.js:74-83 | the caller ends as participant; an existing one leaves the room unchanged, anyone else is appended and nothing else changes |
| `RoomController.GetRooms` | syncsound-project/server/controllers/roomController.js:33-43 | exactly the rooms whose participants include the caller, unchanged; a failed query is raised at status 200 |
| `RoomController.GetRoomById` | syncsound-project/server/controllers/roomController.js:48-64 | 404 for no room, 403 for a non-participant, and the room with 200 iff it exists and the caller participates |
| `RoomController.OpenableIffListed` | syncsound-project/server/controllers/roomController.js:33-64 | a caller can open a room by id iff the room is in the caller's list, and both give the same room |
| `RoomController.JoinedIdempotent` | syncsound-project/server/controllers/roomController.js:74-79 | joining twice is joining once |
| `RoomController.JoinedKeepsWellFormed` | syncsound-project/server/controllers/roomController.js:74-83 | joining keeps the host a participant and no participant twice |
| `RoomController.OpenErrorReply` | syncsound-project/server/controllers/roomController.js:48-64 | a failed open ends in 500 iff the database failed, 404 with "room not found" for no room, 403 with "no access" for a non-participant, with the message kept |
| `RoomController.ListErrorReply` | syncsound-project/server/controllers/roomController.js:33-43 | a failed listing is only ever a database failure and ends in 500 with the failure's message |
| `RoomController.CreatorCanOpen` | syncsound-project/server/controllers/roomController.js:16-55 | the creator can open the room just created |
| `RoomController.JoinedCanOpen` | syncsound-project/server/controllers/roomController.js:82-85 | after joining, the caller can open the room and sees it listed |
| `RoomController.HostCanOpen` | syncsound-project/server/controllers/roomController.js:19 | in a store of well-formed rooms a host can always open the room it hosts |
| `RoomController.RoomStore.constructor` | syncsound-project/server/models/Room.js:3-64 | an empty, well-formed store |
| `RoomController.RoomStore.CreateRoom` | syncsound-project/server/controllers/roomController.js:7-28 | no name: 400 and nothing stored; failure: raised at 200 and nothing stored; else the new room is stored under its id and returned with 201; every room stays well-formed |
| `RoomController.RoomStore.JoinRoom` | syncsound-project/server/controllers/roomController.js:69-90 | 404 for no room; an existing participant gets "already in" and nothing changes; anyone else is appended once and gets "joined"; rooms stay well-formed |
| `MusicSearch.MapResults` | syncsound-project/server/controllers/musicController.js:10-18 | one track per result, same length and same order |
| `MusicSearch.ArtworkUrl` | syncsound-project/server/controllers/musicController.js:13 | the first thumbnail's url when it is non-empty, else the placeholder; never empty |
| `MusicSearch.ArtistName` | syncsound-project/server/controllers/musicController.js:17 | the channel name when it is non-empty, else "Unknown Artist"; never empty |
| `MusicSearch.TrackOf` | syncsound-project/server/controllers/musicController.js:11-17 | the track of a result copies its id, title and url, has the duration in milliseconds, takes artwork and artist from the result or their fallbacks, and neither of those is empty |
| `MusicSearch.ToTrack` | syncsound-project/server/controllers/musicController.js:10-18 | a result is mapped to a track related to it as `TrackOf` states |
| `MusicSearch.TrackOfDetermines` | syncsound-project/server/controllers/musicController.js:11-17 | `TrackOf` determines the track: a result has exactly one track |
| `MusicSearch.SearchTracks` | syncsound-project/server/controllers/musicController.js:3-24 | 400 for a missing or empty query, 500 when the search fails, else one track per result with id, title and url copied, duration in ms, and artwork and artist falling back to the placeholder and "Unknown Artist" |
| `MusicSearch.EmptyQueryIgnoresSearch` | syncsound-project/server/controllers/musicController.js:5-7 | the query guard answers before the search result is consulted |
| `RoomPage.SkipSpaces` | syncsound-project/client/src/pages/RoomPage.js:72 | the first index at or after `i` that is not white space |
| `RoomPage.DropTrailing` | syncsound-project/client/src/pages/RoomPage.js:72 | the end of the prefix once trailing white space is dropped |
| `RoomPage.Trim` | syncsound-project/client/src/pages/RoomPage.js:72 | `trim()` is a slice of the text with only white space cut off before and after it; it is empty iff the text is all white space, and otherwise starts and ends with a non-space character |
| `RoomPage.IsHost` | syncsound-project/client/src/pages/RoomPage.js:29 | with a user and a room, host iff the ids match; with only one of them, not host; with neither, host |
| `RoomPage.ToggleRequest` | syncsound-project/client/src/pages/RoomPage.js:87 | a toggle is requested iff host and a track is current, and asks for the opposite flag |
| `RoomPage.NativePlayRequest` | syncsound-project/client/src/pages/RoomPage.js:89 | play is requested iff host and paused |
| `RoomPage.NativePauseRequest` | syncsound-project/client/src/pages/RoomPage.js:90 | pause is requested iff host and playing |
| `RoomPage.RequestsFlipTheFlag` | syncsound-project/client/src/pages/RoomPage.js:87-90 | every play/pause request asks for the opposite of the shown flag, and a non-host makes none |
| `RoomPage.RoomClient.constructor` | syncsound-project/client/src/pages/RoomPage.js:15-27 | the initial state: no user, no room, empty queue and chat, no track, paused, nothing emitted |
| `RoomPage.RoomClient.Mount` | syncsound-project/client/src/pages/RoomPage.js:34-56 | with a stored user the page keeps it and emits 'joinRoom' once; without one nothing is kept or emitted |
| `RoomPage.RoomClient.LoadRoom` | syncsound-project/client/src/pages/RoomPage.js:44-47 | the room is kept; an absent queue becomes empty, an absent flag paused, the current track copied |
| `RoomPage.RoomClient.OnNewMessage` | syncsound-project/client/src/pages/RoomPage.js:59 | the line is appended and earlier lines are untouched |
| `RoomPage.RoomClient.OnQueueUpdated` | syncsound-project/client/src/pages/RoomPage.js:60 | only the queue is replaced |
| `RoomPage.RoomClient.OnPlayerStateChanged` | syncsound-project/client/src/pages/RoomPage.js:61 | only the flag is replaced |
| `RoomPage.RoomClient.OnNewTrackPlaying` | syncsound-project/client/src/pages/RoomPage.js:62-66 | current track, flag and queue are replaced together, nothing else |
| `RoomPage.RoomClient.TypeMessage` | syncsound-project/client/src/pages/RoomPage.js:166 | only the chat input changes |
| `RoomPage.RoomClient.AddToQueue` | syncsound-project/client/src/pages/RoomPage.js:71 | emits 'addTrackToQueue' with the track and whatever user the page holds |
| `RoomPage.RoomClient.SendMessage` | syncsound-project/client/src/pages/RoomPage.js:72 | emits the untrimmed message and clears the input iff it is not all white space and a user is set; otherwise nothing changes |
| `RoomPage.RoomClient.HandleNextTrack` | syncsound-project/client/src/pages/RoomPage.js:86 | 'playNextTrack' is emitted iff the page is host |
| `RoomPage.RoomClient.HandleTogglePlay` | syncsound-project/client/src/pages/RoomPage.js:87 | emits exactly the toggle request, if any |
| `RoomPage.RoomClient.HandleNativePlay` | syncsound-project/client/src/pages/RoomPage.js:89 | emits exactly the play request, if any |
| `RoomPage.RoomClient.HandleNativePause` | syncsound-project/client/src/pages/RoomPage.js:90 | emits exactly the pause request, if any |
| `Session.JoinBoth` | syncsound-project/server/socket.js:12-39 | a host then a guest join an empty registry: the list is both in join order and the guest's snapshot is the host |
| `Session.QueueTwoAndAdvance` | syncsound-project/server/socket.js:105-144 | two tracks queued by the host into an empty queue, then an advance, broadcast the first (stamped) as current and the second as queued |
| `Session.GuestLeaves` | syncsound-project/server/socket.js:68-89 | when the guest disconnects from the room both joined, 'user left' goes to the rest of that room |
| `Session.ServerSession` | syncsound-project/server/socket.js:12-144 | over a fresh server: the guest's snapshot is the host, the advance broadcast plays the first track, and the guest's departure goes to the rest of the room |
| `Session.PagesSession` | syncsound-project/client/src/pages/RoomPage.js:29-90 | only the host's page asks for the next track, and the guest's page shows exactly the track state it is handed |
| `Session.WholeSession` | syncsound-project/client/src/pages/RoomPage.js:62-66 | handed the server's advance broadcast, the guest's page shows the first stamped track playing and the second queued, and only the host asked for it |

## Left out

- Socket.io transport and delivery (`socket.join`, `io.to`, `socket.to`). An emit is an outbox entry tagged with its addressee. Who actually receives it is not modelled.
- Concurrency. Each socket handler, controller call and page event is one atomic step. The read-modify-write race between concurrent `addTrackToQueue` handlers and the interleaving of handlers are not modelled.
- MongoDB persistence (`findById`, `save`, `findByIdAndUpdate`, `create`, `find`, the connection setup). A handler's database calls are modelled as one success flag or failure message.
- A failing lookup and a failing save are not distinguished. In the source both end in the same catch or the same raised error.
- The document id the database generates is not modelled. `RoomStore.CreateRoom` takes the new id as an input and requires that it is not already in use. The `timestamps` and `playbackPosition` fields of a room are not modelled.
- User accounts, passwords and tokens, and the authentication middleware. The caller's id is an input.
- The external video search call `play.search`. Its resolved results, or its rejection, are an input.
- JavaScript numbers: track duration is an unbounded integer (seconds times 1000), with no floating point.
- User fields other than `_id` and `name` are kept opaque.
- The page's JSX, styles, scrolling, loading and error states, the navigate-to-login redirect, the system message and the search form. The 'userJoined' listener is never triggered, because the server emits 'user joined notification' instead. The socket cleanup on unmount is not modelled either.
- The room-id truthiness of the scan in `disconnect` is modelled only for the empty string. Room ids are strings, and `""` is the only falsy one.
- The login, register, home and join pages, the app shell and the API helper. The route wiring and server startup are not modelled. The routes hand their async controllers to Express without a wrapper. Whether a rejected controller reaches the error handler depends on the Express version, which is not part of this model. `RoomController.OpenErrorReply` and `RoomController.ListErrorReply` state what the error handler answers when it is reached.
- No peer audio connection is modelled beyond relaying signalling payloads. No peer-connection code exists in these files.
- Console logging (the `console.log` calls of socket.js at lines 9, 15, 26, 34, 44, 57, 69, 85, 115, 124 and 142, and the `console.error` of the search endpoint). It has no effect on state or replies.
- Room ids that name a property every object inherits (`constructor`, `__proto__`, `toString`, ...) would make the source read the inherited value instead of a registry list. The model treats every room id as an ordinary own key.
- A chat message from a socket without a user throws in the `chatMessage` handler, and nothing catches it. The model emits nothing in that case. What the uncaught throw does to the socket or the process is not modelled.
