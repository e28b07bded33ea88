/**
 * The room REST controller: create a room, list the caller's rooms, open a
 * room by id, and join a room. The authenticated caller's id is an input
 * (`requester`); the room collection is the map `rooms`.
 *
 * A handler either answers with JSON (`Json`) or sets a status and throws
 * (`Raised`), which the error handler then turns into the error reply. A
 * database call that rejects throws with the status still at 200; the
 * input `dbFailure` carries its message when that happens.
 */
module RoomController {
  import opened Types
  import opened ErrorMiddleware

  datatype Body =
    | RoomJson(room: Room)
    | RoomsJson(rooms: map<RoomId, Room>)
    | MessageJson(message: string)

  datatype Reply =
    | Json(status: int, body: Body)
    | Raised(status: int, message: string)

  const NameRequired: string := "Пожалуйста, укажите название комнаты"
  const RoomNotFound: string := "Комната не найдена"
  const NoAccess: string := "У вас нет доступа к этой комнате"
  const AlreadyJoined: string := "Вы уже в этой комнате"
  const JoinedOk: string := "Вы успешно присоединились к комнате"

  /** No user appears twice among a room's participants. */
  predicate DistinctParticipants(room: Room)
  {
    forall i, j :: 0 <= i < j < |room.participants| ==> room.participants[i] != room.participants[j]
  }

  /** The invariant createRoom establishes and joinRoom keeps: the host participates, once each. */
  predicate WellFormedRoom(room: Room)
  {
    IsParticipant(room, room.host) && DistinctParticipants(room)
  }

  /** The new room document: the given name, the requester as host and sole participant, and the schema defaults. */
  function NewRoom(name: string, requester: UserId): (r: Room)
    ensures r.host == requester && r.participants == [requester]
    ensures r.queue == [] && r.currentTrack == None && !r.isPlaying
    ensures WellFormedRoom(r)
  {
    Room(name, requester, [requester], [], None, false)
  }

  /** The room after `joinRoom`: an existing participant leaves it as is, anyone else is appended once. */
  function Joined(room: Room, requester: UserId): (r: Room)
    ensures IsParticipant(r, requester)
    ensures IsParticipant(room, requester) ==> r == room
    ensures !IsParticipant(room, requester) ==>
      r.participants == room.participants + [requester] && r == room.(participants := r.participants)
  {
    if IsParticipant(room, requester) then room else room.(participants := room.participants + [requester])
  }

  /** `getRooms`: the rooms whose participants include the caller. */
  function GetRooms(rooms: map<RoomId, Room>, requester: UserId, dbFailure: Option<string>): (r: Reply)
    ensures dbFailure.Some? ==> r == Raised(200, dbFailure.value)
    ensures dbFailure.None? ==> r.Json? && r.status == 200 && r.body.RoomsJson?
    ensures dbFailure.None? ==> forall id ::
      id in r.body.rooms <==> id in rooms && IsParticipant(rooms[id], requester)
    ensures dbFailure.None? ==> forall id :: id in r.body.rooms ==> r.body.rooms[id] == rooms[id]
  {
    if dbFailure.Some? then Raised(200, dbFailure.value)
    else
      // `Room.find` yields an array, and every array is truthy: the 404 branch is never taken
      Json(200, RoomsJson(map id | id in rooms && IsParticipant(rooms[id], requester) :: rooms[id]))
  }

  /** `getRoomById`: 404 for a missing room, 403 for a non-participant, else the room. */
  function GetRoomById(rooms: map<RoomId, Room>, id: RoomId, requester: UserId, dbFailure: Option<string>): (r: Reply)
    ensures dbFailure.Some? ==> r == Raised(200, dbFailure.value)
    ensures dbFailure.None? && id !in rooms ==> r == Raised(404, RoomNotFound)
    ensures dbFailure.None? && id in rooms && !IsParticipant(rooms[id], requester) ==> r == Raised(403, NoAccess)
    ensures r.Json? <==> dbFailure.None? && id in rooms && IsParticipant(rooms[id], requester)
    ensures r.Json? ==> r == Json(200, RoomJson(rooms[id]))
  {
    if dbFailure.Some? then Raised(200, dbFailure.value)
    else if id !in rooms then Raised(404, RoomNotFound)
    else if IsParticipant(rooms[id], requester) then Json(200, RoomJson(rooms[id]))
    else Raised(403, NoAccess)
  }

  /** The rooms a caller can open by id are exactly the rooms listed for that caller. */
  lemma OpenableIffListed(rooms: map<RoomId, Room>, id: RoomId, requester: UserId)
    ensures GetRoomById(rooms, id, requester, None).Json? <==> id in GetRooms(rooms, requester, None).body.rooms
    ensures GetRoomById(rooms, id, requester, None).Json? ==>
      GetRoomById(rooms, id, requester, None).body.room == GetRooms(rooms, requester, None).body.rooms[id]
  {
  }

  /** Joining twice is joining once. */
  lemma JoinedIdempotent(room: Room, requester: UserId)
    ensures Joined(Joined(room, requester), requester) == Joined(room, requester)
  {
  }

  /** Joining keeps a well-formed room well-formed: no participant is duplicated. */
  lemma JoinedKeepsWellFormed(room: Room, requester: UserId)
    requires WellFormedRoom(room)
    ensures WellFormedRoom(Joined(room, requester))
  {
    var r := Joined(room, requester);
    if !IsParticipant(room, requester) {
      forall i, j | 0 <= i < j < |r.participants| ensures r.participants[i] != r.participants[j] {
        if j == |room.participants| {
          assert r.participants[i] == room.participants[i];
        }
      }
    }
  }

  /**
   * The error reply a failed open ends in: a database failure is 500, a
   * missing room 404, a non-participant 403, and the message is carried
   * through.
   */
  lemma OpenErrorReply(rooms: map<RoomId, Room>, id: RoomId, requester: UserId, dbFailure: Option<string>,
                       stack: Option<string>, nodeEnv: Option<string>)
    requires GetRoomById(rooms, id, requester, dbFailure).Raised?
    ensures var r := GetRoomById(rooms, id, requester, dbFailure);
      var e := ErrorHandler(r.status, Error(r.message, stack), nodeEnv);
      && (e.status == 500 <==> dbFailure.Some?)
      && (dbFailure.None? && id !in rooms ==> e == ErrorReply(404, ErrorBody(RoomNotFound, e.body.stack)))
      && (dbFailure.None? && id in rooms ==> e == ErrorReply(403, ErrorBody(NoAccess, e.body.stack)))
      && (dbFailure.Some? ==> e.body.message == dbFailure.value)
  {
  }

  /** A failed listing can only be a database failure, and it ends in 500 with the failure's message. */
  lemma ListErrorReply(rooms: map<RoomId, Room>, requester: UserId, dbFailure: Option<string>,
                       stack: Option<string>, nodeEnv: Option<string>)
    requires GetRooms(rooms, requester, dbFailure).Raised?
    ensures var r := GetRooms(rooms, requester, dbFailure);
      var e := ErrorHandler(r.status, Error(r.message, stack), nodeEnv);
      dbFailure.Some? && e.status == 500 && e.body.message == dbFailure.value
  {
  }

  class RoomStore {
    var rooms: map<RoomId, Room>

    ghost predicate Valid()
      reads this
    {
      forall id :: id in rooms ==> WellFormedRoom(rooms[id])
    }

    constructor ()
      ensures Valid() && rooms == map[]
    {
      rooms := map[];
    }

    /**
     * `createRoom`: a missing or empty name fails with 400 and creates
     * nothing; otherwise the room is stored under the id the database
     * assigns, with the caller as host and only participant, and returned
     * with 201.
     */
    method CreateRoom(requester: UserId, name: Option<string>, newId: RoomId, dbFailure: Option<string>)
      returns (reply: Reply)
      requires Valid()
      requires newId !in rooms
      modifies this
      ensures Valid()
      ensures !Truthy(name) ==> reply == Raised(400, NameRequired) && rooms == old(rooms)
      ensures Truthy(name) && dbFailure.Some? ==> reply == Raised(200, dbFailure.value) && rooms == old(rooms)
      ensures Truthy(name) && dbFailure.None? ==>
        && rooms == old(rooms)[newId := NewRoom(name.value, requester)]
        && reply == Json(201, RoomJson(rooms[newId]))
    {
      if !Truthy(name) {
        return Raised(400, NameRequired);
      }
      if dbFailure.Some? {
        return Raised(200, dbFailure.value);
      }
      var room := NewRoom(name.value, requester);
      rooms := rooms[newId := room];
      reply := Json(201, RoomJson(room));
    }

    /**
     * `joinRoom`: 404 for a missing room; an existing participant gets 200
     * and nothing changes; anyone else is appended to the participants,
     * the room is saved, and 200 is returned.
     */
    method JoinRoom(id: RoomId, requester: UserId, dbFailure: Option<string>) returns (reply: Reply)
      requires Valid()
      modifies this
      ensures Valid()
      ensures dbFailure.Some? ==> reply == Raised(200, dbFailure.value) && rooms == old(rooms)
      ensures dbFailure.None? && id !in old(rooms) ==> reply == Raised(404, RoomNotFound) && rooms == old(rooms)
      ensures dbFailure.None? && id in old(rooms) && IsParticipant(old(rooms)[id], requester) ==>
        reply == Json(200, MessageJson(AlreadyJoined)) && rooms == old(rooms)
      ensures dbFailure.None? && id in old(rooms) && !IsParticipant(old(rooms)[id], requester) ==>
        reply == Json(200, MessageJson(JoinedOk)) && rooms == old(rooms)[id := Joined(old(rooms)[id], requester)]
    {
      if dbFailure.Some? {
        return Raised(200, dbFailure.value);
      }
      if id !in rooms {
        return Raised(404, RoomNotFound);
      }
      var room := rooms[id];
      if requester in room.participants {
        return Json(200, MessageJson(AlreadyJoined));
      }
      JoinedKeepsWellFormed(room, requester);
      room := room.(participants := room.participants + [requester]);
      rooms := rooms[id := room];
      reply := Json(200, MessageJson(JoinedOk));
    }
  }

  /** The creator of a room can open it and is its host. */
  lemma CreatorCanOpen(rooms: map<RoomId, Room>, newId: RoomId, name: string, requester: UserId)
    ensures GetRoomById(rooms[newId := NewRoom(name, requester)], newId, requester, None)
         == Json(200, RoomJson(NewRoom(name, requester)))
  {
  }

  /** After a successful join the caller can open the room and sees it listed. */
  lemma JoinedCanOpen(rooms: map<RoomId, Room>, id: RoomId, requester: UserId)
    requires id in rooms
    ensures GetRoomById(rooms[id := Joined(rooms[id], requester)], id, requester, None).Json?
    ensures id in GetRooms(rooms[id := Joined(rooms[id], requester)], requester, None).body.rooms
  {
  }

  /** In a store of well-formed rooms every host can open every room it hosts. */
  lemma HostCanOpen(rooms: map<RoomId, Room>, id: RoomId)
    requires forall k :: k in rooms ==> WellFormedRoom(rooms[k])
    requires id in rooms
    ensures GetRoomById(rooms, id, rooms[id].host, None) == Json(200, RoomJson(rooms[id]))
  {
  }
}
