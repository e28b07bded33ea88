/**
 * The socket server's room coordination: the presence registry, the
 * signalling relay and the playback handlers, one method per socket event,
 * each run as one atomic step.
 *
 * Every `emit` is an append to `outbox`, tagged with who it is addressed
 * to: the sending socket (`socket.emit`), one socket or a whole room
 * (`io.to(x).emit`), or a room except the sender (`socket.to(room).emit`).
 * The room documents the handlers load and save are the map `rooms`; a
 * handler's `dbOk` input says whether its database calls succeed. None of
 * the handlers checks who is asking: host-only controls are enforced by the
 * client alone.
 */
module SocketServer {
  import opened Types
  import opened Registry
  import opened Playback
  import opened KeyOrder

  /** Who an emitted event is addressed to. */
  datatype Target =
    | ToSocket(socketId: SocketId)
    | ToRoom(roomId: RoomId)
    | ToRoomExcept(roomId: RoomId, except: SocketId)

  /** Opaque connection-handshake data relayed between peers. */
  type Signal = string

  datatype ServerEvent =
    | AllUsers(members: seq<Member>)                                 // 'all users'
    | UserJoinedNotification(newUser: Member, message: string)       // 'user joined notification'
    | UserJoined(signal: Signal, callerId: SocketId, user: UserInfo)  // 'user joined'
    | ReceivingReturnedSignal(signal: Signal, id: SocketId)          // 'receiving returned signal'
    | UserLeft(socketId: SocketId)                                   // 'user left'
    | RoomUsersList(members: seq<Member>)                            // 'room users list'
    | NewMessage(from: UserRef, message: string)                     // 'newMessage'
    | QueueUpdated(queue: seq<Track>)                                // 'queueUpdated'
    | PlayerStateChanged(isPlaying: bool)                            // 'playerStateChanged'
    | NewTrackPlaying(currentTrack: Option<Track>, isPlaying: bool, queue: seq<Track>) // 'newTrackPlaying'

  datatype OutEvent = Emit(to: Target, event: ServerEvent)

  /** The payload of 'sending signal'; every field is chosen by the client. */
  datatype SendingPayload = SendingPayload(userToSignal: SocketId, callerId: SocketId, signal: Signal, user: UserInfo)

  /** The payload of 'returning signal'. */
  datatype ReturningPayload = ReturningPayload(callerId: SocketId, signal: Signal)

  const JoinedSuffix: string := " присоединился к комнате"

  /** 'sending signal': forwarded to `userToSignal` unless it names the claimed caller. */
  function RelaySending(p: SendingPayload): (r: seq<OutEvent>)
    ensures |r| <= 1
    ensures r != [] <==> p.userToSignal != p.callerId
    ensures r != [] ==> r[0].to == ToSocket(p.userToSignal)
    ensures r != [] ==> r[0].event == UserJoined(p.signal, p.callerId, p.user)
  {
    if p.userToSignal != p.callerId
    then [Emit(ToSocket(p.userToSignal), UserJoined(p.signal, p.callerId, p.user))]
    else []
  }

  /** 'returning signal': forwarded to `callerId`, stamped with the sender's id, unless it is the sender. */
  function RelayReturning(sender: SocketId, p: ReturningPayload): (r: seq<OutEvent>)
    ensures |r| <= 1
    ensures r != [] <==> p.callerId != sender
    ensures r != [] ==> r[0].to == ToSocket(p.callerId)
    ensures r != [] ==> r[0].event == ReceivingReturnedSignal(p.signal, sender)
  {
    if p.callerId != sender
    then [Emit(ToSocket(p.callerId), ReceivingReturnedSignal(p.signal, sender))]
    else []
  }

  /** The events of `disconnect` once the scan has found `found`. */
  function LeaveEvents(found: Option<RoomId>, sid: SocketId): (r: seq<OutEvent>)
    ensures r != [] <==> found.Some? && found.value != ""
    ensures r != [] ==> r == [Emit(ToRoomExcept(found.value, sid), UserLeft(sid))]
  {
    // the notice is guarded by the room id's truthiness, and "" is falsy
    if found.Some? && found.value != "" then [Emit(ToRoomExcept(found.value, sid), UserLeft(sid))] else []
  }

  /**
   * The search loop of 'disconnect': visit the rooms in `scan` order, and in
   * the first room holding an entry of `sender` splice out its first entry
   * and stop.
   */
  method ScanAndSplice(scan: seq<RoomId>, reg: Lists, sender: SocketId)
    returns (roomID: Option<RoomId>, lists: Lists)
    requires forall k :: k in scan ==> k in reg
    ensures roomID == Lookup(scan, reg, sender)
    ensures lists == AfterLeave(scan, reg, sender)
  {
    ghost var found := Lookup(scan, reg, sender);
    assert scan[0..] == scan;
    lists := reg;
    roomID := None;
    var i := 0;
    while i < |scan|
      invariant 0 <= i <= |scan|
      invariant lists == reg && roomID == None
      invariant Lookup(scan[i..], reg, sender) == found
    {
      var id := scan[i];
      assert id in scan;
      LookupStep(scan, reg, sender, i);
      var userIndex := FirstIndex(lists[id], sender);
      if userIndex != -1 {
        roomID := Some(id);
        lists := lists[id := RemoveAt(lists[id], userIndex)];
        break;
      }
      i := i + 1;
    }
  }

  /**
   * The registry steps of 'joinRoom': create the room's list (its key last)
   * the first time, take the entries of other sockets, then append `m`.
   */
  method JoinLists(order: seq<RoomId>, reg: Lists, roomId: RoomId, m: Member)
    returns (newOrder: seq<RoomId>, newLists: Lists, existing: seq<Member>)
    requires RegistryValid(order, reg)
    ensures newOrder == JoinOrder(order, reg, roomId)
    ensures newLists == AfterJoin(reg, roomId, m)
    ensures existing == Others(ListOf(reg, roomId), m.socketId)
    ensures RegistryValid(newOrder, newLists)
  {
    newOrder, newLists := order, reg;
    if roomId !in newLists {
      newLists := newLists[roomId := []];
      newOrder := newOrder + [roomId];
    }
    existing := Others(newLists[roomId], m.socketId);
    var created := newLists;
    newLists := newLists[roomId := newLists[roomId] + [m]];
    ValidForSameRooms(newOrder, created, newLists);
  }

  class Server {
    /** The keys of `usersInRooms` in the order they were created. */
    var roomOrder: seq<RoomId>
    var usersInRooms: map<RoomId, seq<Member>>
    var rooms: map<RoomId, Room>
    var outbox: seq<OutEvent>

    ghost predicate Valid()
      reads this
    {
      RegistryValid(roomOrder, usersInRooms)
    }

    /** A fresh process: empty registry, nothing emitted, over an existing store. */
    constructor (store: map<RoomId, Room>)
      ensures Valid()
      ensures roomOrder == [] && usersInRooms == map[] && rooms == store && outbox == []
    {
      roomOrder := [];
      usersInRooms := map[];
      rooms := store;
      outbox := [];
    }

    /**
     * 'joinRoom': without a user nothing happens. Otherwise the joiner is sent
     * the room's entries of other sockets as they were before the join, is
     * appended at the tail of the room's list (created on first use), and
     * the rest of the room is told.
     */
    method JoinRoom(sender: SocketId, roomId: RoomId, user: Option<UserInfo>)
      requires Valid()
      modifies this`roomOrder, this`usersInRooms, this`outbox
      ensures Valid()
      ensures user.None? ==>
        roomOrder == old(roomOrder) && usersInRooms == old(usersInRooms) && outbox == old(outbox)
      ensures user.Some? ==>
        && roomOrder == JoinOrder(old(roomOrder), old(usersInRooms), roomId)
        && usersInRooms == AfterJoin(old(usersInRooms), roomId, Member(sender, user.value))
        && outbox == old(outbox) + [
             Emit(ToSocket(sender), AllUsers(Others(ListOf(old(usersInRooms), roomId), sender))),
             Emit(ToRoomExcept(roomId, sender),
                  UserJoinedNotification(Member(sender, user.value), user.value.name + JoinedSuffix))]
      ensures rooms == old(rooms)
    {
      if user.None? {
        return;
      }
      var u := user.value;
      var newOrder, newLists, existingUsers := JoinLists(roomOrder, usersInRooms, roomId, Member(sender, u));
      roomOrder, usersInRooms := newOrder, newLists;
      outbox := outbox + [Emit(ToSocket(sender), AllUsers(existingUsers))];
      outbox := outbox + [Emit(ToRoomExcept(roomId, sender),
                               UserJoinedNotification(Member(sender, u), u.name + JoinedSuffix))];
    }

    /** 'sending signal' */
    method SendingSignal(p: SendingPayload)
      modifies this`outbox
      ensures outbox == old(outbox) + RelaySending(p)
    {
      outbox := outbox + RelaySending(p);
    }

    /** 'returning signal' */
    method ReturningSignal(sender: SocketId, p: ReturningPayload)
      modifies this`outbox
      ensures outbox == old(outbox) + RelayReturning(sender, p)
    {
      outbox := outbox + RelayReturning(sender, p);
    }

    /**
     * 'disconnect': scan the rooms in `for...in` order for the first entry
     * of the socket, splice it out and stop; the room is told only if an
     * entry was found (and the room id is not the empty string).
     */
    method Disconnect(sender: SocketId)
      requires Valid()
      modifies this`usersInRooms, this`outbox
      ensures Valid()
      ensures usersInRooms == AfterLeave(ScanOrder(roomOrder), old(usersInRooms), sender)
      ensures outbox == old(outbox) + LeaveEvents(Lookup(ScanOrder(roomOrder), old(usersInRooms), sender), sender)
    {
      var scan := ScanOrder(roomOrder);
      ScanSameKeys(roomOrder);
      var roomID, lists := ScanAndSplice(scan, usersInRooms, sender);
      ValidForSameRooms(roomOrder, usersInRooms, lists);
      usersInRooms := lists;
      outbox := outbox + LeaveEvents(roomID, sender);
    }

    /** 'request room users': the room's list (or none) back to the sender. */
    method RequestRoomUsers(sender: SocketId, roomId: RoomId)
      modifies this`outbox
      ensures outbox == old(outbox) + [Emit(ToSocket(sender), RoomUsersList(ListOf(usersInRooms, roomId)))]
    {
      var users := if roomId in usersInRooms then usersInRooms[roomId] else [];
      outbox := outbox + [Emit(ToSocket(sender), RoomUsersList(users))];
    }

    /**
     * 'chatMessage': broadcast to the whole room with only the sender's id
     * and name attached. A message without a user emits nothing (the source
     * throws reading `user._id`).
     */
    method ChatMessage(roomId: RoomId, user: Option<UserInfo>, message: string)
      modifies this`outbox
      ensures user.None? ==> outbox == old(outbox)
      ensures user.Some? ==> outbox == old(outbox) + [Emit(ToRoom(roomId), NewMessage(RefOf(user.value), message))]
    {
      if user.Some? {
        outbox := outbox + [Emit(ToRoom(roomId), NewMessage(RefOf(user.value), message))];
      }
    }

    /**
     * 'addTrackToQueue': for an existing room, append the track stamped with
     * its adder, save, and broadcast the saved queue. A missing room, a
     * missing user (the source throws reading `user._id`, and the error is
     * caught) or a failed save changes nothing and broadcasts nothing.
     */
    method AddTrackToQueue(roomId: RoomId, trackData: Track, user: Option<UserInfo>, dbOk: bool)
      modifies this`rooms, this`outbox
      ensures var ok := roomId in old(rooms) && user.Some? && dbOk;
        && rooms == (if ok then old(rooms)[roomId := Enqueue(old(rooms)[roomId], Stamp(trackData, user.value))]
                     else old(rooms))
        && outbox == old(outbox) + (if ok then [Emit(ToRoom(roomId), QueueUpdated(rooms[roomId].queue))] else [])
    {
      if !dbOk {
        // `Room.findById` or `room.save` rejected; the handler's catch swallows it
        return;
      }
      if roomId in rooms {
        if user.Some? {
          var room := rooms[roomId];
          var newTrack := Stamp(trackData, user.value);
          room := room.(queue := room.queue + [newTrack]);
          rooms := rooms[roomId := room];
          outbox := outbox + [Emit(ToRoom(roomId), QueueUpdated(room.queue))];
        }
      }
    }

    /**
     * 'togglePlay': set the flag with no check of the caller or of the
     * current track, then broadcast the requested value. The update does not
     * throw for a missing room, so the broadcast goes out even then; only a
     * failed update suppresses it.
     */
    method TogglePlay(roomId: RoomId, isPlaying: bool, dbOk: bool)
      modifies this`rooms, this`outbox
      ensures !dbOk ==> rooms == old(rooms) && outbox == old(outbox)
      ensures dbOk ==>
        && rooms == (if roomId in old(rooms) then old(rooms)[roomId := SetPlaying(old(rooms)[roomId], isPlaying)]
                     else old(rooms))
        && outbox == old(outbox) + [Emit(ToRoom(roomId), PlayerStateChanged(isPlaying))]
    {
      if !dbOk {
        return;
      }
      if roomId in rooms {
        rooms := rooms[roomId := rooms[roomId].(isPlaying := isPlaying)];
      }
      outbox := outbox + [Emit(ToRoom(roomId), PlayerStateChanged(isPlaying))];
    }

    /**
     * 'playNextTrack': for an existing room, move the head of the queue into
     * the current track (or clear it when the queue is empty), set the flag
     * to whether a track is now current, save, and broadcast exactly the
     * saved state.
     */
    method PlayNextTrack(roomId: RoomId, dbOk: bool)
      modifies this`rooms, this`outbox
      ensures var ok := roomId in old(rooms) && dbOk;
        && rooms == (if ok then old(rooms)[roomId := Advance(old(rooms)[roomId])] else old(rooms))
        && outbox == old(outbox) +
             (if ok then [Emit(ToRoom(roomId), NewTrackPlaying(rooms[roomId].currentTrack,
                                                             rooms[roomId].isPlaying,
                                                             rooms[roomId].queue))]
              else [])
    {
      if !dbOk {
        return;
      }
      if roomId in rooms {
        var room := rooms[roomId];
        if |room.queue| > 0 {
          room := room.(currentTrack := Some(room.queue[0]), queue := room.queue[1..]);
        } else {
          room := room.(currentTrack := None);
        }
        room := room.(isPlaying := room.currentTrack.Some?);
        rooms := rooms[roomId := room];
        outbox := outbox + [Emit(ToRoom(roomId), NewTrackPlaying(room.currentTrack, room.isPlaying, room.queue))];
      }
    }
  }
}
