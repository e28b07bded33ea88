/**
 * The room page of the client: the state it mirrors from the server
 * (queue, current track, play flag, chat), the socket listeners that
 * overwrite or extend that state, and the handlers that decide which
 * control events the page emits. The host-only rules live here, in the
 * handlers' guards; the server does not repeat them.
 */
module RoomPage {
  import opened Types

  /** A chat line as the 'newMessage' event delivers it. */
  datatype ChatLine = ChatLine(from: UserRef, message: string)

  /**
   * The room JSON the page loads over HTTP; documents may lack the
   * playback fields, hence the options.
   */
  datatype RoomData = RoomData(
    name: string,
    host: UserId,
    participants: seq<UserId>,
    queue: Option<seq<Track>>,
    currentTrack: Option<Track>,
    isPlaying: Option<bool>)

  /** What the page emits on its socket. */
  datatype ClientEmit =
    | JoinRoomEmit(roomId: RoomId, user: UserInfo)
    | ChatMessageEmit(roomId: RoomId, user: UserInfo, message: string)
    | AddTrackEmit(roomId: RoomId, trackData: Track, submitter: Option<UserInfo>)
    | PlayNextTrackEmit(roomId: RoomId)
    | TogglePlayEmit(roomId: RoomId, isPlaying: bool)

  // ---------------------------------------------------------------------
  // `String.prototype.trim`

  /** ECMAScript white space and line terminators, the characters `trim` removes. */
  predicate IsJsSpace(c: char)
  {
    || c == '\t' || c == '\n' || c == '\U{000B}' || c == '\U{000C}' || c == '\r' || c == ' '
    || c == '\U{00A0}' || c == '\U{1680}' || ('\U{2000}' <= c <= '\U{200A}')
    || c == '\U{2028}' || c == '\U{2029}' || c == '\U{202F}' || c == '\U{205F}'
    || c == '\U{3000}' || c == '\U{FEFF}'
  }

  ghost predicate AllSpace(s: string)
  {
    forall i :: 0 <= i < |s| ==> IsJsSpace(s[i])
  }

  /** The first index at or after `i` that does not hold white space. */
  function SkipSpaces(s: string, i: nat): (k: nat)
    requires i <= |s|
    ensures i <= k <= |s|
    ensures forall j :: i <= j < k ==> IsJsSpace(s[j])
    ensures k < |s| ==> !IsJsSpace(s[k])
    decreases |s| - i
  {
    if i == |s| || !IsJsSpace(s[i]) then i else SkipSpaces(s, i + 1)
  }

  /** The end of `s[..j]` once trailing white space is dropped. */
  function DropTrailing(s: string, j: nat): (k: nat)
    requires j <= |s|
    ensures k <= j
    ensures forall m :: k <= m < j ==> IsJsSpace(s[m])
    ensures k > 0 ==> !IsJsSpace(s[k - 1])
  {
    if j == 0 || !IsJsSpace(s[j - 1]) then j else DropTrailing(s, j - 1)
  }

  /**
   * `trim`: the slice of `s` left once its leading and trailing white space
   * is cut off; empty exactly when `s` is all white space, else starting and
   * ending with a non-space.
   */
  function Trim(s: string): (r: string)
    ensures exists a, b :: (0 <= a <= b <= |s| && r == s[a..b] && AllSpace(s[..a]) && AllSpace(s[b..]))
    ensures r == [] <==> AllSpace(s)
    ensures r != [] ==> !IsJsSpace(r[0]) && !IsJsSpace(r[|r| - 1])
  {
    var start := SkipSpaces(s, 0);
    if start == |s| then
      assert s[..|s|] == s && s[|s|..|s|] == [];
      []
    else
      var end := DropTrailing(s, |s|);
      assert AllSpace(s[..start]) && AllSpace(s[end..]);
      s[start..end]
  }

  // ---------------------------------------------------------------------
  // Host gating

  /**
   * The page compares the user's id with the room's host by optional
   * chaining, so both sides may be undefined, and a page with neither a
   * user nor a room yet also counts as host.
   */
  function IsHost(userInfo: Option<UserInfo>, room: Option<RoomData>): (r: bool)
    ensures userInfo.Some? && room.Some? ==> (r <==> userInfo.value.id == room.value.host)
    ensures userInfo.Some? != room.Some? ==> !r
    ensures userInfo.None? && room.None? ==> r
  {
    (if userInfo.Some? then Some(userInfo.value.id) else None)
      == (if room.Some? then Some(room.value.host) else None)
  }

  /** `handleTogglePlay`: the host flips the flag, and only while a track is current. */
  function ToggleRequest(isHost: bool, currentTrack: Option<Track>, isPlaying: bool): (r: Option<bool>)
    ensures r.Some? <==> isHost && currentTrack.Some?
    ensures r.Some? ==> r.value == !isPlaying
  {
    if isHost && currentTrack.Some? then Some(!isPlaying) else None
  }

  /** `handleNativePlay`: the host's player started while the room is paused. */
  function NativePlayRequest(isHost: bool, isPlaying: bool): (r: Option<bool>)
    ensures r.Some? <==> isHost && !isPlaying
    ensures r.Some? ==> r.value
  {
    if isHost && !isPlaying then Some(true) else None
  }

  /** `handleNativePause`: the host's player paused while the room is playing. */
  function NativePauseRequest(isHost: bool, isPlaying: bool): (r: Option<bool>)
    ensures r.Some? <==> isHost && isPlaying
    ensures r.Some? ==> !r.value
  {
    if isHost && isPlaying then Some(false) else None
  }

  /**
   * Every play/pause request the page makes asks for the opposite of the
   * flag it currently shows, and a non-host never makes one.
   */
  lemma RequestsFlipTheFlag(isHost: bool, currentTrack: Option<Track>, isPlaying: bool)
    ensures ToggleRequest(isHost, currentTrack, isPlaying).Some? ==> ToggleRequest(isHost, currentTrack, isPlaying).value != isPlaying
    ensures NativePlayRequest(isHost, isPlaying).Some? ==> NativePlayRequest(isHost, isPlaying).value != isPlaying
    ensures NativePauseRequest(isHost, isPlaying).Some? ==> NativePauseRequest(isHost, isPlaying).value != isPlaying
    ensures !isHost ==>
      (ToggleRequest(isHost, currentTrack, isPlaying).None?
       && NativePlayRequest(isHost, isPlaying).None? && NativePauseRequest(isHost, isPlaying).None?)
  {
  }

  class RoomClient {
    const roomId: RoomId
    var userInfo: Option<UserInfo>
    var room: Option<RoomData>
    var queue: seq<Track>
    var currentTrack: Option<Track>
    var isPlaying: bool
    var messages: seq<ChatLine>
    var newMessage: string
    /** Everything the page has emitted on its socket, in order. */
    var emitted: seq<ClientEmit>

    /** The initial `useState` values. */
    constructor (roomId: RoomId)
      ensures this.roomId == roomId
      ensures userInfo == None && room == None
      ensures queue == [] && currentTrack == None && !isPlaying
      ensures messages == [] && newMessage == "" && emitted == []
    {
      this.roomId := roomId;
      userInfo := None;
      room := None;
      queue := [];
      currentTrack := None;
      isPlaying := false;
      messages := [];
      newMessage := "";
      emitted := [];
    }

    function Host(): bool
      reads this
    {
      IsHost(userInfo, room)
    }

    /**
     * The mount effect: with a stored user the page keeps it and joins the
     * room on its socket; without one it only navigates to the login page.
     */
    method Mount(stored: Option<UserInfo>)
      modifies this`userInfo, this`emitted
      ensures stored.None? ==> userInfo == old(userInfo) && emitted == old(emitted)
      ensures stored.Some? ==> userInfo == stored && emitted == old(emitted) + [JoinRoomEmit(roomId, stored.value)]
    {
      if stored.None? {
        return;
      }
      userInfo := stored;
      emitted := emitted + [JoinRoomEmit(roomId, stored.value)];
    }

    /** The room data arrived: absent playback fields default to empty, none and paused. */
    method LoadRoom(data: RoomData)
      modifies this`room, this`queue, this`currentTrack, this`isPlaying
      ensures room == Some(data)
      ensures data.queue.None? ==> queue == []
      ensures data.queue.Some? ==> queue == data.queue.value
      ensures currentTrack == data.currentTrack
      ensures data.isPlaying.None? ==> !isPlaying
      ensures data.isPlaying.Some? ==> isPlaying == data.isPlaying.value
    {
      room := Some(data);
      queue := data.queue.GetOr([]);
      currentTrack := data.currentTrack;
      isPlaying := data.isPlaying.GetOr(false);
    }

    /** 'newMessage': appended at the end, earlier lines untouched. */
    method OnNewMessage(line: ChatLine)
      modifies this`messages
      ensures messages == old(messages) + [line]
      ensures messages[..|old(messages)|] == old(messages)
    {
      messages := messages + [line];
    }

    /** 'queueUpdated': replaces the queue only. */
    method OnQueueUpdated(newQueue: seq<Track>)
      modifies this`queue
      ensures queue == newQueue
    {
      queue := newQueue;
    }

    /** 'playerStateChanged': replaces the play flag only. */
    method OnPlayerStateChanged(playing: bool)
      modifies this`isPlaying
      ensures isPlaying == playing
    {
      isPlaying := playing;
    }

    /** 'newTrackPlaying': replaces current track, play flag and queue together. */
    method OnNewTrackPlaying(track: Option<Track>, playing: bool, newQueue: seq<Track>)
      modifies this`currentTrack, this`isPlaying, this`queue
      ensures currentTrack == track && isPlaying == playing && queue == newQueue
    {
      currentTrack := track;
      isPlaying := playing;
      queue := newQueue;
    }

    /** The chat input's change handler. */
    method TypeMessage(text: string)
      modifies this`newMessage
      ensures newMessage == text
    {
      newMessage := text;
    }

    /**
     * `sendMessageHandler`: a message that is not all white space, from a
     * page with a user, is emitted as typed (untrimmed) and the input is
     * cleared; otherwise nothing happens.
     */
    method SendMessage()
      modifies this`emitted, this`newMessage
      ensures var send := !AllSpace(old(newMessage)) && userInfo.Some?;
        && emitted == old(emitted) + (if send then [ChatMessageEmit(roomId, userInfo.value, old(newMessage))] else [])
        && newMessage == (if send then "" else old(newMessage))
    {
      if Trim(newMessage) != "" && userInfo.Some? {
        emitted := emitted + [ChatMessageEmit(roomId, userInfo.value, newMessage)];
        newMessage := "";
      }
    }

    /** `addToQueueHandler`: emitted as is, with whatever user the page holds. */
    method AddToQueue(track: Track)
      modifies this`emitted
      ensures emitted == old(emitted) + [AddTrackEmit(roomId, track, userInfo)]
    {
      emitted := emitted + [AddTrackEmit(roomId, track, userInfo)];
    }

    /** `handleNextTrack`: only the host asks for the next track. */
    method HandleNextTrack()
      modifies this`emitted
      ensures emitted == old(emitted) + (if Host() then [PlayNextTrackEmit(roomId)] else [])
    {
      if IsHost(userInfo, room) {
        emitted := emitted + [PlayNextTrackEmit(roomId)];
      }
    }

    /** `handleTogglePlay` */
    method HandleTogglePlay()
      modifies this`emitted
      ensures var req := ToggleRequest(Host(), currentTrack, isPlaying);
        emitted == old(emitted) + (if req.Some? then [TogglePlayEmit(roomId, req.value)] else [])
    {
      if IsHost(userInfo, room) && currentTrack.Some? {
        emitted := emitted + [TogglePlayEmit(roomId, !isPlaying)];
      }
    }

    /** `handleNativePlay` */
    method HandleNativePlay()
      modifies this`emitted
      ensures var req := NativePlayRequest(Host(), isPlaying);
        emitted == old(emitted) + (if req.Some? then [TogglePlayEmit(roomId, req.value)] else [])
    {
      if IsHost(userInfo, room) && !isPlaying {
        emitted := emitted + [TogglePlayEmit(roomId, true)];
      }
    }

    /** `handleNativePause` */
    method HandleNativePause()
      modifies this`emitted
      ensures var req := NativePauseRequest(Host(), isPlaying);
        emitted == old(emitted) + (if req.Some? then [TogglePlayEmit(roomId, req.value)] else [])
    {
      if IsHost(userInfo, room) && isPlaying {
        emitted := emitted + [TogglePlayEmit(roomId, false)];
      }
    }
  }
}
