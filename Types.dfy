/**
 * Values shared by the SyncSound server and client: identifiers, users,
 * tracks and the persisted room record (the fields of the Room schema that
 * the room logic reads and writes).
 */
module Types {

  datatype Option<+T> = None | Some(value: T) {
    function GetOr(default: T): (r: T)
      ensures Some? ==> r == value
      ensures None? ==> r == default
    {
      match this
      case Some(v) => v
      case None => default
    }
  }

  /** Identifiers are opaque strings: socket ids, room ids (document ids) and user ids. */
  type SocketId = string
  type RoomId = string
  type UserId = string

  /**
   * The truthiness of a JavaScript string-valued field: absent
   * (undefined/null) and the empty string are falsy, every other string is
   * truthy.
   */
  predicate Truthy(s: Option<string>): (b: bool)
    ensures !b <==> s == None || s == Some("")
  {
    s.Some? && s.value != ""
  }

  /**
   * The user object a client holds after logging in (`_id`, `name`, and the
   * other fields such as email and token, kept opaque in `rest`).
   */
  datatype UserInfo = UserInfo(id: UserId, name: string, rest: string)

  /** The `{ _id, name }` projection the server attaches to chat messages and tracks. */
  datatype UserRef = UserRef(id: UserId, name: string)

  function RefOf(u: UserInfo): (r: UserRef)
    ensures r.id == u.id && r.name == u.name
  {
    UserRef(u.id, u.name)
  }

  /**
   * A track as the search endpoint produces it and the queue stores it;
   * `addedBy` is set when the track is enqueued.
   */
  datatype Track = Track(
    id: string,
    title: string,
    artworkUrl: string,
    duration: int,
    permalinkUrl: string,
    username: string,
    addedBy: Option<UserRef>)

  /** The submitted track with its adder's id and name attached. */
  function Stamp(trackData: Track, user: UserInfo): (r: Track)
    ensures r.addedBy == Some(RefOf(user))
    ensures r.(addedBy := trackData.addedBy) == trackData
  {
    trackData.(addedBy := Some(RefOf(user)))
  }

  /** The persisted room document. */
  datatype Room = Room(
    name: string,
    host: UserId,
    participants: seq<UserId>,
    queue: seq<Track>,
    currentTrack: Option<Track>,
    isPlaying: bool)

  /** Some participant of the room is the user. */
  predicate IsParticipant(room: Room, user: UserId): (b: bool)
    ensures b <==> exists i :: 0 <= i < |room.participants| && room.participants[i] == user
  {
    user in room.participants
  }
}
