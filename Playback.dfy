/**
 * The playback state of one room (`queue`, `currentTrack`, `isPlaying`) and
 * the three transitions the socket handlers apply to a loaded room document
 * before saving it: append to the queue, advance to the next track, and set
 * the play flag.
 */
module Playback {
  import opened Types

  /** Name, host and participants are untouched by every playback transition. */
  predicate SameMembership(a: Room, b: Room)
  {
    a.name == b.name && a.host == b.host && a.participants == b.participants
  }

  /** Adding a track: it goes at the tail of the queue. */
  function Enqueue(room: Room, track: Track): (r: Room)
    ensures r.queue == room.queue + [track]
    ensures r.currentTrack == room.currentTrack && r.isPlaying == room.isPlaying
    ensures SameMembership(r, room)
  {
    room.(queue := room.queue + [track])
  }

  /**
   * Playing the next track: the head of the queue, if any, becomes the
   * current track and leaves the queue; the room plays exactly when a track
   * is current.
   */
  function Advance(room: Room): (r: Room)
    ensures |room.queue| > 0 ==>
      r.currentTrack == Some(room.queue[0]) && r.queue == room.queue[1..] && r.isPlaying
    ensures |room.queue| == 0 ==> r.currentTrack == None && r.queue == [] && !r.isPlaying
    ensures SameMembership(r, room)
  {
    var next := if |room.queue| > 0 then Some(room.queue[0]) else None;
    var rest := if |room.queue| > 0 then room.queue[1..] else room.queue;
    room.(currentTrack := next, queue := rest, isPlaying := next.Some?)
  }

  /** The play/pause update writes the flag as given, whether or not a track is current. */
  function SetPlaying(room: Room, isPlaying: bool): (r: Room)
    ensures r.isPlaying == isPlaying
    ensures r.queue == room.queue && r.currentTrack == room.currentTrack
    ensures SameMembership(r, room)
  {
    room.(isPlaying := isPlaying)
  }

  /** A sequence of `addTrackToQueue` steps, one per track, in order. */
  function EnqueueAll(room: Room, tracks: seq<Track>): Room
    decreases |tracks|
  {
    if tracks == [] then room else EnqueueAll(Enqueue(room, tracks[0]), tracks[1..])
  }

  /** `n` successive `playNextTrack` steps. */
  function AdvanceTimes(room: Room, n: nat): Room
  {
    if n == 0 then room else Advance(AdvanceTimes(room, n - 1))
  }

  /** A room that is playing has a current track. */
  predicate PlayingHasTrack(room: Room)
  {
    room.isPlaying ==> room.currentTrack.Some?
  }

  /**
   * Successive appends lose nothing and keep their order: the queue ends as
   * the old queue followed by every appended track, and the current track
   * and the play flag are untouched.
   */
  lemma {:induction false} EnqueueAllAppends(room: Room, tracks: seq<Track>)
    ensures EnqueueAll(room, tracks).queue == room.queue + tracks
    ensures EnqueueAll(room, tracks).currentTrack == room.currentTrack
    ensures EnqueueAll(room, tracks).isPlaying == room.isPlaying
    ensures SameMembership(EnqueueAll(room, tracks), room)
    decreases |tracks|
  {
    if tracks != [] {
      var next := Enqueue(room, tracks[0]);
      EnqueueAllAppends(next, tracks[1..]);
      assert next.queue + tracks[1..] == room.queue + tracks;
    }
  }

  /**
   * The queue is first-in first-out: the n-th advance plays the n-th queued
   * track and leaves the tracks after it queued, and the room is playing.
   */
  lemma {:induction false} AdvancePlaysInOrder(room: Room, n: nat)
    requires 1 <= n <= |room.queue|
    ensures AdvanceTimes(room, n).currentTrack == Some(room.queue[n - 1])
    ensures AdvanceTimes(room, n).queue == room.queue[n..]
    ensures AdvanceTimes(room, n).isPlaying
    ensures SameMembership(AdvanceTimes(room, n), room)
  {
    if n > 1 {
      AdvancePlaysInOrder(room, n - 1);
      var before := AdvanceTimes(room, n - 1);
      assert before.queue[0] == room.queue[n - 1];
      assert before.queue[1..] == room.queue[n..];
    }
  }

  /** Advancing past the end of the queue stops playback with no current track. */
  lemma {:induction false} AdvancePastEndStops(room: Room, n: nat)
    requires n > |room.queue|
    ensures AdvanceTimes(room, n).currentTrack == None
    ensures AdvanceTimes(room, n).queue == []
    ensures !AdvanceTimes(room, n).isPlaying
  {
    if n - 1 == |room.queue| {
      if n - 1 > 0 {
        AdvancePlaysInOrder(room, n - 1);
      }
    } else {
      AdvancePastEndStops(room, n - 1);
    }
  }

  /**
   * Appending and advancing keep "playing implies a current track"; setting
   * the flag keeps it exactly when the flag is cleared or a track is current,
   * since the server does not refuse to play with no current track.
   */
  lemma PlayingHasTrackPreserved(room: Room, track: Track, isPlaying: bool)
    ensures PlayingHasTrack(room) ==> PlayingHasTrack(Enqueue(room, track))
    ensures PlayingHasTrack(Advance(room))
    ensures PlayingHasTrack(SetPlaying(room, isPlaying)) <==> (!isPlaying || room.currentTrack.Some?)
  {
  }

  /**
   * Two appends to a room with an empty queue and no current track, then an
   * advance: the first track plays and the second stays queued.
   */
  lemma EnqueueEnqueueAdvance(room: Room, t1: Track, t2: Track)
    requires room.queue == []
    ensures Advance(Enqueue(Enqueue(room, t1), t2)).currentTrack == Some(t1)
    ensures Advance(Enqueue(Enqueue(room, t1), t2)).queue == [t2]
    ensures Advance(Enqueue(Enqueue(room, t1), t2)).isPlaying
  {
  }
}
