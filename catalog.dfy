/**
 * The player's records (tracks and playlists) and the abstract media element
 * that playback commands are written to.
 */
module Catalog {
  import opened Wrappers

  /** One playable item. `isPlaying` is meaningful only on the selected track. */
  datatype Track = Track(
    name: string,
    image: string,
    url: string,
    duration: real,
    playlist: string,
    isPlaying: bool)

  /** An ordered, named list of tracks; the order defines next and previous. */
  datatype Playlist = Playlist(
    id: string,
    name: string,
    artist: string,
    thumbnail: string,
    tracks: seq<Track>)

  /** `{ ...t, isPlaying: b }`: the same track with only the flag replaced. */
  function WithPlaying(t: Track, b: bool): (r: Track)
    ensures r.isPlaying == b
    ensures r.(isPlaying := t.isPlaying) == t
  {
    t.(isPlaying := b)
  }

  /** The name the selection is compared by: `selectedTrack?.name`. */
  function NameOf(t: Option<Track>): Option<string>
  {
    match t
    case Some(x) => Some(x.name)
    case None => None
  }

  /**
   * `tracks.findIndex(({ name }) => name === target)`: the first index whose
   * track carries the name, or -1 when none does (an absent target never matches).
   */
  function IndexByName(tracks: seq<Track>, target: Option<string>): (i: int)
    ensures -1 <= i < |tracks|
    ensures i == -1 <==> forall j :: 0 <= j < |tracks| ==> Some(tracks[j].name) != target
    ensures i >= 0 ==> Some(tracks[i].name) == target
    ensures i >= 0 ==> forall j :: 0 <= j < i ==> Some(tracks[j].name) != target
  {
    if tracks == [] then -1
    else if Some(tracks[0].name) == target then 0
    else
      var k := IndexByName(tracks[1..], target);
      if k == -1 then -1 else k + 1
  }

  /** `tracks.find(t => t.name === selected?.name)` is truthy. */
  predicate HasTrackNamed(tracks: seq<Track>, selected: Option<Track>)
  {
    exists j :: 0 <= j < |tracks| && Some(tracks[j].name) == NameOf(selected)
  }

  /** No two tracks of the list share a name. */
  predicate DistinctNames(tracks: seq<Track>)
  {
    forall j, k :: 0 <= j < k < |tracks| ==> tracks[j].name != tracks[k].name
  }

  /** What the model reads of the media element: position, pause flag, volume, duration. */
  datatype Element = Element(currentTime: real, paused: bool, volume: real, duration: Option<real>)

  /** Playback has ended: the position has reached a known duration (the element has no `loop`). */
  predicate HasEnded(e: Element)
  {
    e.duration.Some? && e.currentTime >= e.duration.value
  }

  /**
   * `play()`: the element unpauses, and one whose playback has ended first seeks back
   * to the start, so the track plays again from 0.
   */
  function Played(e: Element): (r: Element)
    ensures !r.paused && r.volume == e.volume && r.duration == e.duration
    ensures HasEnded(e) ==> r.currentTime == 0.0
    ensures !HasEnded(e) ==> r.currentTime == e.currentTime
  {
    if HasEnded(e) then e.(currentTime := 0.0, paused := false) else e.(paused := false)
  }

  /**
   * The media element. `duration` is `None` while the browser reports NaN.
   * `play()` and `pause()` flip `paused` at once; the promise they return is not modelled.
   */
  class MediaElement {
    var currentTime: real
    var paused: bool
    var volume: real
    var duration: Option<real>

    constructor (d: Option<real>)
      ensures View() == Element(0.0, true, 1.0, d)
    {
      currentTime, paused, volume, duration := 0.0, true, 1.0, d;
    }

    function View(): Element
      reads this
    {
      Element(currentTime, paused, volume, duration)
    }

    method Play()
      modifies this
      ensures View() == Played(old(View()))
    {
      if duration.Some? && currentTime >= duration.value {
        currentTime := 0.0;
      }
      paused := false;
    }

    method Pause()
      modifies this
      ensures View() == old(View()).(paused := true)
    {
      paused := true;
    }

    /** The load that follows a new `src`: paused, back at 0, duration NaN until metadata arrive. */
    method LoadSource()
      modifies this
      ensures View() == old(View()).(currentTime := 0.0, paused := true, duration := None)
    {
      currentTime, paused, duration := 0.0, true, None;
    }
  }

  /** The value view of an element reference that may be null (`audioRef.current`). */
  function ViewOf(e: MediaElement?): Option<Element>
    reads e
  {
    if e == null then None else Some(e.View())
  }
}
