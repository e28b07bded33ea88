/**
 * One listening session end to end: a host page and a guest page in front
 * of one socket server. The host joins, then the guest; the host queues two
 * tracks and asks for the next one; the guest's page mirrors the broadcast;
 * the guest disconnects.
 */
module Session {
  import opened Types
  import opened Registry
  import opened Playback
  import opened SocketServer
  import opened RoomPage
  import opened KeyOrder

  /** Host, then guest, join an empty registry. */
  method JoinBoth(server: Server, roomId: RoomId, hostSocket: SocketId, guestSocket: SocketId,
                  host: UserInfo, guest: UserInfo)
    returns (guestSnapshot: seq<Member>)
    requires server.Valid() && server.roomOrder == [] && server.usersInRooms == map[]
    requires hostSocket != guestSocket
    modifies server
    ensures server.Valid() && server.rooms == old(server.rooms)
    ensures server.roomOrder == [roomId]
    ensures server.usersInRooms == map[roomId := [Member(hostSocket, host), Member(guestSocket, guest)]]
    ensures guestSnapshot == [Member(hostSocket, host)]
  {
    server.JoinRoom(hostSocket, roomId, Some(host));
    assert ListOf(map[], roomId) + [Member(hostSocket, host)] == [Member(hostSocket, host)];
    var before := |server.outbox|;
    server.JoinRoom(guestSocket, roomId, Some(guest));
    assert [Member(hostSocket, host)] + [Member(guestSocket, guest)] == [Member(hostSocket, host), Member(guestSocket, guest)];
    assert server.outbox[before].event == AllUsers(Others([Member(hostSocket, host)], guestSocket));
    guestSnapshot := server.outbox[before].event.members;
  }

  /** The host queues two tracks into an empty queue and advances. */
  method QueueTwoAndAdvance(server: Server, roomId: RoomId, host: UserInfo, t1: Track, t2: Track)
    returns (advanced: OutEvent)
    requires roomId in server.rooms && server.rooms[roomId].queue == []
    modifies server
    ensures server.roomOrder == old(server.roomOrder) && server.usersInRooms == old(server.usersInRooms)
    ensures advanced == Emit(ToRoom(roomId), NewTrackPlaying(Some(Stamp(t1, host)), true, [Stamp(t2, host)]))
  {
    server.AddTrackToQueue(roomId, t1, Some(host), true);
    server.AddTrackToQueue(roomId, t2, Some(host), true);
    assert server.rooms[roomId].queue == [Stamp(t1, host), Stamp(t2, host)];
    server.PlayNextTrack(roomId, true);
    advanced := server.outbox[|server.outbox| - 1];
  }

  /**
   * The server's side: the guest's snapshot, the advance broadcast and the
   * departure notice.
   */
  method ServerSession(
    roomId: RoomId, stored: Room, hostSocket: SocketId, guestSocket: SocketId,
    host: UserInfo, guest: UserInfo, t1: Track, t2: Track)
    returns (guestSnapshot: seq<Member>, advanced: OutEvent, left: OutEvent)
    requires hostSocket != guestSocket && roomId != ""
    requires stored.queue == []
    // The guest's snapshot lists the host, who joined before it.
    ensures guestSnapshot == [Member(hostSocket, host)]
    // The advance plays the first queued track and keeps the second queued.
    ensures advanced == Emit(ToRoom(roomId), NewTrackPlaying(Some(Stamp(t1, host)), true, [Stamp(t2, host)]))
    // The guest's departure is announced to the rest of the room.
    ensures left == Emit(ToRoomExcept(roomId, guestSocket), UserLeft(guestSocket))
  {
    var server := new Server(map[roomId := stored]);
    guestSnapshot := JoinBoth(server, roomId, hostSocket, guestSocket, host, guest);
    advanced := QueueTwoAndAdvance(server, roomId, host, t1, t2);
    left := GuestLeaves(server, roomId, hostSocket, guestSocket, host, guest);
  }

  /** The guest disconnects from the one room both sockets joined. */
  method GuestLeaves(server: Server, roomId: RoomId, hostSocket: SocketId, guestSocket: SocketId,
                     host: UserInfo, guest: UserInfo)
    returns (left: OutEvent)
    requires server.Valid() && roomId != ""
    requires server.roomOrder == [roomId]
    requires server.usersInRooms == map[roomId := [Member(hostSocket, host), Member(guestSocket, guest)]]
    modifies server
    ensures left == Emit(ToRoomExcept(roomId, guestSocket), UserLeft(guestSocket))
  {
    ghost var reg := server.usersInRooms;
    assert HasEntry(reg[roomId], guestSocket) by {
      assert reg[roomId][1].socketId == guestSocket;
    }
    ScanOfOne(roomId);
    assert Lookup([roomId], reg, guestSocket) == Some(roomId);
    ghost var before := server.outbox;
    server.Disconnect(guestSocket);
    assert server.outbox == before + [Emit(ToRoomExcept(roomId, guestSocket), UserLeft(guestSocket))];
    left := server.outbox[|server.outbox| - 1];
  }

  /**
   * The pages' side: only the host's page asks for the next track, and the
   * guest's page, given the advance broadcast, shows exactly its state.
   */
  method PagesSession(roomId: RoomId, data: RoomData, host: UserInfo, guest: UserInfo,
                      current: Option<Track>, playing: bool, rest: seq<Track>)
    returns (hostAsked: seq<ClientEmit>, guestAsked: seq<ClientEmit>,
             guestView: (Option<Track>, bool, seq<Track>))
    requires data.host == host.id && host.id != guest.id
    ensures hostAsked == [JoinRoomEmit(roomId, host), PlayNextTrackEmit(roomId)]
    ensures guestAsked == [JoinRoomEmit(roomId, guest)]
    ensures guestView == (current, playing, rest)
  {
    var hostPage := new RoomClient(roomId);
    hostPage.Mount(Some(host));
    hostPage.LoadRoom(data);
    hostPage.HandleNextTrack();
    hostAsked := hostPage.emitted;

    var guestPage := new RoomClient(roomId);
    guestPage.Mount(Some(guest));
    guestPage.LoadRoom(data);
    guestPage.HandleNextTrack();
    guestPage.OnNewTrackPlaying(current, playing, rest);
    guestView := (guestPage.currentTrack, guestPage.isPlaying, guestPage.queue);
    guestAsked := guestPage.emitted;
  }

  /**
   * Both sides together: the guest's page is handed the advance event the
   * server broadcast, and so shows the first track playing with the second
   * queued.
   */
  method WholeSession(
    roomId: RoomId, stored: Room, data: RoomData, hostSocket: SocketId, guestSocket: SocketId,
    host: UserInfo, guest: UserInfo, t1: Track, t2: Track)
    returns (hostAsked: seq<ClientEmit>, guestView: (Option<Track>, bool, seq<Track>))
    requires hostSocket != guestSocket && roomId != ""
    requires stored.queue == []
    requires data.host == host.id && host.id != guest.id
    ensures hostAsked == [JoinRoomEmit(roomId, host), PlayNextTrackEmit(roomId)]
    ensures guestView == (Some(Stamp(t1, host)), true, [Stamp(t2, host)])
  {
    var _, advanced, _ := ServerSession(roomId, stored, hostSocket, guestSocket, host, guest, t1, t2);
    var shown := advanced.event;
    var guestAsked;
    hostAsked, guestAsked, guestView := PagesSession(roomId, data, host, guest,
                                                     shown.currentTrack, shown.isPlaying, shown.queue);
  }
}
