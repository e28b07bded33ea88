/**
 * The track search endpoint: the query guard, and the mapping of each
 * video search result to the track record the client queues. The search
 * itself is an external call; its outcome is an input (`None` when it
 * rejects).
 */
module MusicSearch {
  import opened Types

  datatype Thumbnail = Thumbnail(url: Option<string>)
  datatype Channel = Channel(name: Option<string>)

  /** One video search result, with the fields the mapping reads. */
  datatype Video = Video(
    id: string,
    title: string,
    thumbnails: seq<Thumbnail>,
    durationInSec: int,
    url: string,
    channel: Option<Channel>)

  datatype SearchReply =
    | Tracks(tracks: seq<Track>)
    | Failed(status: int, text: string)

  const PlaceholderArtwork: string := "https://via.placeholder.com/40"
  const UnknownArtist: string := "Unknown Artist"
  const EmptyQuery: string := "Поисковый запрос не может быть пустым"
  const SearchFailed: string := "Не удалось выполнить поиск на YouTube"

  /** The first thumbnail's url when it is present and non-empty, else the placeholder image. */
  function ArtworkUrl(thumbnails: seq<Thumbnail>): (r: string)
    ensures |thumbnails| > 0 && Truthy(thumbnails[0].url) ==> r == thumbnails[0].url.value
    ensures !(|thumbnails| > 0 && Truthy(thumbnails[0].url)) ==> r == PlaceholderArtwork
    ensures r != ""
  {
    if |thumbnails| > 0 && Truthy(thumbnails[0].url) then thumbnails[0].url.value else PlaceholderArtwork
  }

  /** The channel's name when it is present and non-empty, else "Unknown Artist". */
  function ArtistName(channel: Option<Channel>): (r: string)
    ensures channel.Some? && Truthy(channel.value.name) ==> r == channel.value.name.value
    ensures !(channel.Some? && Truthy(channel.value.name)) ==> r == UnknownArtist
    ensures r != ""
  {
    if channel.Some? && Truthy(channel.value.name) then channel.value.name.value else UnknownArtist
  }

  /** The track built from one search result. */
  function ToTrack(v: Video): (r: Track)
    ensures TrackOf(r, v)
  {
    Track(v.id, v.title, ArtworkUrl(v.thumbnails), v.durationInSec * 1000, v.url, ArtistName(v.channel), None)
  }

  /**
   * What the reply promises of the track built from one result; a track
   * that meets it always has an artwork url and an artist name.
   */
  ghost predicate TrackOf(t: Track, v: Video): (b: bool)
    ensures b ==> t.artworkUrl != "" && t.username != ""
  {
    && t.id == v.id && t.title == v.title && t.permalinkUrl == v.url
    && t.duration == v.durationInSec * 1000
    && (|v.thumbnails| > 0 && Truthy(v.thumbnails[0].url) ==> t.artworkUrl == v.thumbnails[0].url.value)
    && (!(|v.thumbnails| > 0 && Truthy(v.thumbnails[0].url)) ==> t.artworkUrl == PlaceholderArtwork)
    && (v.channel.Some? && Truthy(v.channel.value.name) ==> t.username == v.channel.value.name.value)
    && (!(v.channel.Some? && Truthy(v.channel.value.name)) ==> t.username == UnknownArtist)
    && t.addedBy == None
  }

  /** One track per search result, in the results' order. */
  function MapResults(videos: seq<Video>): (r: seq<Track>)
    ensures |r| == |videos|
    ensures forall i :: 0 <= i < |r| ==> r[i] == ToTrack(videos[i])
  {
    if videos == [] then [] else [ToTrack(videos[0])] + MapResults(videos[1..])
  }

  /** `searchTracks`: 400 for a missing or empty query, 500 when the search rejects, else the mapped tracks. */
  function SearchTracks(query: Option<string>, results: Option<seq<Video>>): (r: SearchReply)
    ensures !Truthy(query) ==> r == Failed(400, EmptyQuery)
    ensures Truthy(query) && results.None? ==> r == Failed(500, SearchFailed)
    ensures Truthy(query) && results.Some? ==>
      && r.Tracks?
      && |r.tracks| == |results.value|
      && forall i :: 0 <= i < |r.tracks| ==> TrackOf(r.tracks[i], results.value[i])
  {
    if !Truthy(query) then Failed(400, EmptyQuery)
    else if results.None? then Failed(500, SearchFailed)
    else Tracks(MapResults(results.value))
  }

  /** The promise determines the track: the mapping is the only one that meets it. */
  lemma TrackOfDetermines(t: Track, v: Video)
    requires TrackOf(t, v)
    ensures t == ToTrack(v)
  {
  }

  /** The query guard answers before the search is consulted: its outcome cannot matter. */
  lemma EmptyQueryIgnoresSearch(query: Option<string>, a: Option<seq<Video>>, b: Option<seq<Video>>)
    requires !Truthy(query)
    ensures SearchTracks(query, a) == SearchTracks(query, b)
  {
  }
}
