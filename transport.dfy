/**
 * The transport state machine of the player controls: play/pause, next,
 * previous with its play history, shuffle, repeat, the effect that mirrors the
 * selected track's flag onto the element, and the element's `ended` event.
 * Each operation is a function from the controls' state to the new state.
 */
module Transport {
  import opened Wrappers
  import opened Catalog

  /** What the controls read and write: the provider's selection, their own flags and history, the element. */
  datatype TransportState = TransportState(
    selectedPlaylist: Option<Playlist>,
    selectedTrack: Option<Track>,
    isPlaying: bool,
    isShuffle: bool,
    isRepeat: bool,
    playHistory: seq<Track>,
    element: Option<Element>)

  /** `audioRef.current?.play()`. */
  function PlayElement(e: Option<Element>): Option<Element>
  {
    if e.Some? then Some(Played(e.value)) else None
  }

  /** `audioRef.current?.pause()`. */
  function PauseElement(e: Option<Element>): Option<Element>
  {
    if e.Some? then Some(e.value.(paused := true)) else None
  }

  /** `getCurrentTrackIndex`: undefined without a playlist, else the index found by name (maybe -1). */
  function CurrentTrackIndex(s: TransportState): (r: Option<int>)
    ensures r.None? <==> s.selectedPlaylist.None?
    ensures r.Some? ==> -1 <= r.value < |s.selectedPlaylist.value.tracks|
  {
    if s.selectedPlaylist.None? then None
    else Some(IndexByName(s.selectedPlaylist.value.tracks, NameOf(s.selectedTrack)))
  }

  /** `i === len - 1 ? 0 : i + 1`. */
  function NextIndex(i: int, n: int): int
  {
    if i == n - 1 then 0 else i + 1
  }

  /** `tracks.filter((_, index) => index !== i)`. */
  function Others(tracks: seq<Track>, i: int): (r: seq<Track>)
    ensures 0 <= i < |tracks| ==> |r| == |tracks| - 1
    ensures !(0 <= i < |tracks|) ==> r == tracks
  {
    if 0 <= i < |tracks| then tracks[..i] + tracks[i + 1..] else tracks
  }

  /** The index in `tracks` of the `k`-th entry of `Others(tracks, i)`. */
  function SkipIndex(k: int, i: int): int
  {
    if 0 <= i && i <= k then k + 1 else k
  }

  /**
   * Whether `next` can be taken with `pick` as the random draw (`Math.floor(Math.random() * length)`).
   * It needs a non-empty track list and, under shuffle, a draw inside the candidates,
   * which a one-track playlist does not have.
   */
  predicate CanAdvance(s: TransportState, pick: nat)
  {
    s.selectedPlaylist.None? || s.selectedTrack.None? ||
    (|s.selectedPlaylist.value.tracks| > 0 &&
     (s.isShuffle ==> pick < |Others(s.selectedPlaylist.value.tracks, CurrentTrackIndex(s).value)|))
  }

  /** The track `next` moves to. `i ?? 0` never applies: with a playlist, the index is a number. */
  function ChosenNext(s: TransportState, pick: nat): Track
    requires s.selectedPlaylist.Some? && s.selectedTrack.Some? && CanAdvance(s, pick)
  {
    var tracks := s.selectedPlaylist.value.tracks;
    var i := CurrentTrackIndex(s).GetOr(0);
    if s.isShuffle then Others(tracks, i)[pick] else tracks[NextIndex(i, |tracks|)]
  }

  /** `togglePlay`: flips the controls' flag and the track's flag together and drives the element to match. */
  function TogglePlay(s: TransportState): (r: TransportState)
    ensures s.selectedTrack.None? ==> r == s
    ensures s.selectedTrack.Some? ==>
      r.isPlaying == !s.isPlaying && r.selectedTrack.Some? &&
      r.selectedTrack.value.isPlaying == r.isPlaying && r.selectedTrack.value.name == s.selectedTrack.value.name
    ensures r.selectedPlaylist == s.selectedPlaylist && r.playHistory == s.playHistory
  {
    if s.selectedTrack.None? then s
    else
      var next := !s.isPlaying;
      s.(isPlaying := next,
         selectedTrack := Some(WithPlaying(s.selectedTrack.value, next)),
         element := if next then PlayElement(s.element) else PauseElement(s.element))
  }

  /**
   * `<audio src={selectedTrack.url}>`: selecting a track with another url makes the
   * browser load the new source, which pauses the element, puts its position back to 0
   * and forgets the duration (NaN until the new metadata arrive). A track with the same
   * url leaves the attribute, and so the element, as it was.
   */
  function Retarget(e: Option<Element>, from: Track, to: Track): (r: Option<Element>)
    ensures r.Some? <==> e.Some?
    ensures e.Some? && from.url != to.url ==>
      (r.value.currentTime == 0.0 && r.value.paused && r.value.duration.None? && r.value.volume == e.value.volume)
    ensures from.url == to.url ==> r == e
  {
    if e.Some? && from.url != to.url then Some(e.value.(currentTime := 0.0, paused := true, duration := None))
    else e
  }

  /** `setSelectedTrack({ ...t, isPlaying: true })` with the element following the new source. */
  function SelectPlaying(s: TransportState, t: Track): TransportState
    requires s.selectedTrack.Some?
  {
    s.(selectedTrack := Some(WithPlaying(t, true)), element := Retarget(s.element, s.selectedTrack.value, t))
  }

  /** `handleNext`: remember the current track, then select the chosen one, playing. */
  function Next(s: TransportState, pick: nat): (r: TransportState)
    requires CanAdvance(s, pick)
    ensures s.selectedPlaylist.None? || s.selectedTrack.None? ==> r == s
    ensures s.selectedPlaylist.Some? && s.selectedTrack.Some? ==>
      r.playHistory == s.playHistory + [s.selectedTrack.value] &&
      r.selectedTrack.Some? && r.selectedTrack.value.isPlaying
    ensures r.selectedPlaylist == s.selectedPlaylist && r.isPlaying == s.isPlaying &&
      r.isShuffle == s.isShuffle && r.isRepeat == s.isRepeat
  {
    if s.selectedPlaylist.None? || s.selectedTrack.None? then s
    else
      SelectPlaying(s.(playHistory := s.playHistory + [s.selectedTrack.value]), ChosenNext(s, pick))
  }

  /** `previous` reads the first track only when the playlist has one. */
  predicate CanStepBack(s: TransportState)
  {
    s.selectedPlaylist.Some? ==> |s.selectedPlaylist.value.tracks| > 0
  }

  /** More than two seconds into the track: `previous` restarts it instead. */
  predicate PastRestartPoint(s: TransportState)
  {
    s.element.Some? && s.element.value.currentTime > 2.0
  }

  /** `handlePrev`: restart, else pop the history, else step back in the list without wrapping. */
  function Prev(s: TransportState): (r: TransportState)
    requires CanStepBack(s)
    ensures s.selectedTrack.None? ==> r == s
    ensures |r.playHistory| <= |s.playHistory| && r.playHistory == s.playHistory[..|r.playHistory|]
    ensures r.selectedPlaylist == s.selectedPlaylist && r.isPlaying == s.isPlaying &&
      r.isShuffle == s.isShuffle && r.isRepeat == s.isRepeat
  {
    if s.selectedTrack.None? then s
    else if PastRestartPoint(s) then s.(element := Some(s.element.value.(currentTime := 0.0)))
    else if |s.playHistory| > 0 then
      var last := s.playHistory[|s.playHistory| - 1];
      SelectPlaying(s.(playHistory := s.playHistory[..|s.playHistory| - 1]), last)
    else if s.selectedPlaylist.Some? then
      var i := CurrentTrackIndex(s).GetOr(0);
      var fallback := if i > 0 then i - 1 else 0;
      SelectPlaying(s, s.selectedPlaylist.value.tracks[fallback])
    else s
  }

  function ToggleShuffle(s: TransportState): TransportState
  {
    s.(isShuffle := !s.isShuffle)
  }

  function ToggleRepeat(s: TransportState): TransportState
  {
    s.(isRepeat := !s.isRepeat)
  }

  /** The effect run after each change of the selected track: adopt its flag and drive the element. */
  function SyncPlaying(s: TransportState): (r: TransportState)
    ensures r.isPlaying <==> s.selectedTrack.Some? && s.selectedTrack.value.isPlaying
    ensures r.element.Some? <==> s.element.Some?
    ensures r.element.Some? ==>
      r.element.value.paused == !r.isPlaying &&
      r.element.value.volume == s.element.value.volume && r.element.value.duration == s.element.value.duration
    ensures r.element.Some? && !(r.isPlaying && HasEnded(s.element.value)) ==>
      r.element.value.currentTime == s.element.value.currentTime
    ensures r.element.Some? && r.isPlaying && HasEnded(s.element.value) ==> r.element.value.currentTime == 0.0
    ensures r.(isPlaying := s.isPlaying, element := s.element) == s
  {
    if s.selectedTrack.Some? && s.selectedTrack.value.isPlaying then
      s.(isPlaying := true, element := PlayElement(s.element))
    else
      s.(isPlaying := false, element := PauseElement(s.element))
  }

  /** The `ended` listener is attached only while an element exists; it takes a draw for `next`. */
  predicate CanEnd(s: TransportState, pick: nat)
  {
    s.element.Some? && (!s.isRepeat ==> CanAdvance(s, pick))
  }

  /** `onEnd`: with repeat, rewind and play the same track; otherwise exactly `next`. */
  function Ended(s: TransportState, pick: nat): (r: TransportState)
    requires CanEnd(s, pick)
    ensures s.isRepeat ==>
      r.element.Some? && r.element.value.currentTime == 0.0 && !r.element.value.paused &&
      r.selectedTrack == s.selectedTrack && r.playHistory == s.playHistory
    ensures r.selectedPlaylist == s.selectedPlaylist && r.isRepeat == s.isRepeat && r.isShuffle == s.isShuffle
  {
    if s.isRepeat then s.(element := Some(Played(s.element.value.(currentTime := 0.0))))
    else Next(s, pick)
  }

  // ---------------------------------------------------------------- properties

  /**
   * `togglePlay` does nothing without a track; otherwise it flips the flag, writes the
   * same value into the track and nowhere else in it, and plays or pauses the element.
   */
  lemma TogglePlayEffect(s: TransportState)
    ensures s.selectedTrack.None? ==> TogglePlay(s) == s
    ensures s.selectedTrack.Some? ==>
      var t := TogglePlay(s);
      t.isPlaying == !s.isPlaying &&
      t.selectedTrack.Some? && t.selectedTrack.value.isPlaying == t.isPlaying &&
      t.selectedTrack.value.(isPlaying := s.selectedTrack.value.isPlaying) == s.selectedTrack.value &&
      (s.element.Some? ==> t.element.Some? && t.element.value.paused == !t.isPlaying) &&
      t.(isPlaying := s.isPlaying, selectedTrack := s.selectedTrack, element := s.element) == s
  {
  }

  /** The effect that follows a toggle finds the state already in step. */
  lemma TogglePlayIsSynced(s: TransportState)
    requires s.selectedTrack.Some?
    ensures SyncPlaying(TogglePlay(s)) == TogglePlay(s)
  {
  }

  /** Without shuffle the step is the successor modulo the playlist length. */
  lemma NextIndexIsModular(i: int, n: int)
    requires 0 <= i < n
    ensures NextIndex(i, n) == (i + 1) % n
    ensures 0 <= NextIndex(i, n) < n
  {
  }

  /** With distinct names the index found for a track's name is its own position. */
  lemma IndexOfOwnName(tracks: seq<Track>, j: int)
    requires DistinctNames(tracks) && 0 <= j < |tracks|
    ensures IndexByName(tracks, Some(tracks[j].name)) == j
  {
  }

  /**
   * `next` does nothing without a playlist and a track; otherwise it pushes the old track,
   * plays the chosen one and reloads the element when the chosen track has another url.
   */
  lemma NextEffect(s: TransportState, pick: nat)
    requires CanAdvance(s, pick)
    ensures s.selectedPlaylist.None? || s.selectedTrack.None? ==> Next(s, pick) == s
    ensures s.selectedPlaylist.Some? && s.selectedTrack.Some? ==>
      var t := Next(s, pick); var chosen := ChosenNext(s, pick);
      t.playHistory == s.playHistory + [s.selectedTrack.value] &&
      t.selectedTrack == Some(chosen.(isPlaying := true)) &&
      (chosen.url == s.selectedTrack.value.url ==> t.element == s.element) &&
      (chosen.url != s.selectedTrack.value.url && s.element.Some? ==>
        t.element == Some(s.element.value.(currentTime := 0.0, paused := true, duration := None))) &&
      t.(playHistory := s.playHistory, selectedTrack := s.selectedTrack, element := s.element) == s
  {
  }

  /** Without shuffle, from the track at `i`, `next` selects the track at `(i + 1) mod n`. */
  lemma NextInOrder(s: TransportState, i: int)
    requires !s.isShuffle && s.selectedPlaylist.Some? && s.selectedTrack.Some?
    requires var tracks := s.selectedPlaylist.value.tracks;
      DistinctNames(tracks) && 0 <= i < |tracks| && s.selectedTrack.value.name == tracks[i].name
    ensures var tracks := s.selectedPlaylist.value.tracks;
      Next(s, 0).selectedTrack == Some(tracks[(i + 1) % |tracks|].(isPlaying := true)) &&
      Next(s, 0).selectedTrack == Some(tracks[NextIndex(i, |tracks|)].(isPlaying := true))
    ensures Next(s, 0).playHistory == s.playHistory + [s.selectedTrack.value]
  {
    var tracks := s.selectedPlaylist.value.tracks;
    IndexOfOwnName(tracks, i);
    assert CurrentTrackIndex(s) == Some(i);
    NextIndexIsModular(i, |tracks|);
    assert ChosenNext(s, 0) == tracks[NextIndex(i, |tracks|)];
  }

  /** `k` successive `next` steps with the same draw. */
  function NextTimes(s: TransportState, k: nat): TransportState
    requires !s.isShuffle
    ensures NextTimes(s, k).selectedPlaylist == s.selectedPlaylist
    ensures !NextTimes(s, k).isShuffle
  {
    if k == 0 then s
    else
      var t := NextTimes(s, k - 1);
      if t.selectedPlaylist.Some? && t.selectedTrack.Some? && |t.selectedPlaylist.value.tracks| == 0 then t
      else Next(t, 0)
  }

  /**
   * Wrap-around: without shuffle, from the first track of a playlist of `n` tracks with
   * distinct names, `k <= n` nexts land on track `k` (track 0 when `k = n`) and push `k`
   * history entries.
   */
  lemma {:induction false} NextTimesWraps(s: TransportState, k: nat)
    requires !s.isShuffle && s.selectedPlaylist.Some? && s.selectedTrack.Some?
    requires var tracks := s.selectedPlaylist.value.tracks;
      |tracks| > 0 && DistinctNames(tracks) && s.selectedTrack.value.name == tracks[0].name &&
      k <= |tracks|
    ensures var tracks := s.selectedPlaylist.value.tracks; var t := NextTimes(s, k);
      var j := if k == |tracks| then 0 else k;
      t.selectedTrack.Some? && t.selectedTrack.value.name == tracks[j].name &&
      (k > 0 ==> t.selectedTrack == Some(tracks[j].(isPlaying := true))) &&
      |t.playHistory| == |s.playHistory| + k
  {
    if k > 0 {
      NextTimesWraps(s, k - 1);
      var t := NextTimes(s, k - 1);
      assert NextTimes(s, k) == Next(t, 0);
      WrapStep(s, t, k);
    }
  }

  /** One step of the wrap-around: from track `k - 1`, `next` lands on track `k mod n`. */
  lemma WrapStep(s: TransportState, t: TransportState, k: nat)
    requires !t.isShuffle && t.selectedPlaylist == s.selectedPlaylist && s.selectedPlaylist.Some?
    requires var tracks := s.selectedPlaylist.value.tracks;
      DistinctNames(tracks) && 0 < k <= |tracks| &&
      t.selectedTrack.Some? && t.selectedTrack.value.name == tracks[k - 1].name
    ensures var tracks := s.selectedPlaylist.value.tracks; var j := if k == |tracks| then 0 else k;
      Next(t, 0).selectedTrack == Some(tracks[j].(isPlaying := true)) &&
      |Next(t, 0).playHistory| == |t.playHistory| + 1
  {
    var tracks := s.selectedPlaylist.value.tracks;
    NextInOrder(t, k - 1);
    assert (k - 1 + 1) % |tracks| == (if k == |tracks| then 0 else k);
  }

  /** `n` nexts from the first of `n` tracks come back to the first track. */
  lemma NextFullCircle(s: TransportState)
    requires !s.isShuffle && s.selectedPlaylist.Some? && s.selectedTrack.Some?
    requires var tracks := s.selectedPlaylist.value.tracks;
      |tracks| > 0 && DistinctNames(tracks) && s.selectedTrack.value == tracks[0]
    ensures var tracks := s.selectedPlaylist.value.tracks;
      NextTimes(s, |tracks|).selectedTrack == Some(tracks[0].(isPlaying := true))
  {
    NextTimesWraps(s, |s.selectedPlaylist.value.tracks|);
  }

  /**
   * With duplicate names the walk is by name, not by position: whichever track of the
   * selected name is playing, `next` steps from the first track carrying that name.
   */
  lemma NextFromDuplicateName(s: TransportState, j: int)
    requires !s.isShuffle && s.selectedPlaylist.Some? && s.selectedTrack.Some?
    requires var tracks := s.selectedPlaylist.value.tracks;
      0 <= j < |tracks| && tracks[j].name == s.selectedTrack.value.name
    ensures var tracks := s.selectedPlaylist.value.tracks;
      var i := IndexByName(tracks, NameOf(s.selectedTrack));
      0 <= i <= j && tracks[i].name == tracks[j].name &&
      Next(s, 0).selectedTrack == Some(tracks[NextIndex(i, |tracks|)].(isPlaying := true))
  {
  }

  /** A selected name missing from the playlist gives index -1, which `?? 0` keeps: `next` starts at track 0. */
  lemma MissingNameNextSelectsFirst(s: TransportState)
    requires !s.isShuffle && s.selectedPlaylist.Some? && s.selectedTrack.Some?
    requires |s.selectedPlaylist.value.tracks| > 0
    requires !HasTrackNamed(s.selectedPlaylist.value.tracks, s.selectedTrack)
    ensures CurrentTrackIndex(s) == Some(-1)
    ensures Next(s, 0).selectedTrack == Some(s.selectedPlaylist.value.tracks[0].(isPlaying := true))
  {
  }

  /** The same -1 makes the `previous` fallback choose track 0. */
  lemma MissingNamePrevSelectsFirst(s: TransportState)
    requires s.selectedPlaylist.Some? && s.selectedTrack.Some? && CanStepBack(s)
    requires s.playHistory == [] && !PastRestartPoint(s)
    requires !HasTrackNamed(s.selectedPlaylist.value.tracks, s.selectedTrack)
    ensures Prev(s).selectedTrack == Some(s.selectedPlaylist.value.tracks[0].(isPlaying := true))
  {
  }

  /** The `k`-th candidate under shuffle is the track at `SkipIndex(k, i)`, which is never `i`. */
  lemma OthersAt(tracks: seq<Track>, i: int, k: int)
    requires 0 <= k < |Others(tracks, i)|
    ensures 0 <= SkipIndex(k, i) < |tracks| && SkipIndex(k, i) != i
    ensures Others(tracks, i)[k] == tracks[SkipIndex(k, i)]
  {
  }

  /** Under shuffle the chosen track is never the one at the current index. */
  lemma ShuffleAvoidsCurrent(s: TransportState, pick: nat)
    requires s.isShuffle && s.selectedPlaylist.Some? && s.selectedTrack.Some? && CanAdvance(s, pick)
    ensures var tracks := s.selectedPlaylist.value.tracks; var i := CurrentTrackIndex(s).value;
      var j := SkipIndex(pick, i);
      0 <= j < |tracks| && j != i && Next(s, pick).selectedTrack == Some(tracks[j].(isPlaying := true))
  {
    OthersAt(s.selectedPlaylist.value.tracks, CurrentTrackIndex(s).value, pick);
  }

  /** Under shuffle, a one-track playlist holding the selected track leaves no candidate to draw. */
  lemma ShuffleNeedsTwoTracks(s: TransportState, pick: nat)
    requires s.isShuffle && s.selectedPlaylist.Some? && s.selectedTrack.Some?
    requires |s.selectedPlaylist.value.tracks| == 1
    requires HasTrackNamed(s.selectedPlaylist.value.tracks, s.selectedTrack)
    ensures !CanAdvance(s, pick)
  {
  }

  /** Past two seconds, `previous` only rewinds: the track and the history stay. */
  lemma PrevRestarts(s: TransportState)
    requires CanStepBack(s) && s.selectedTrack.Some? && PastRestartPoint(s)
    ensures Prev(s).element == Some(s.element.value.(currentTime := 0.0))
    ensures Prev(s).(element := s.element) == s
  {
  }

  /** Otherwise `previous` pops the last history entry and plays it; only the selection, history and element change. */
  lemma PrevPopsHistory(s: TransportState)
    requires CanStepBack(s) && s.selectedTrack.Some? && !PastRestartPoint(s) && |s.playHistory| > 0
    ensures var last := s.playHistory[|s.playHistory| - 1];
      Prev(s).playHistory + [last] == s.playHistory &&
      Prev(s).selectedTrack == Some(last.(isPlaying := true)) &&
      Prev(s).element == Retarget(s.element, s.selectedTrack.value, last)
    ensures Prev(s).(selectedTrack := s.selectedTrack, playHistory := s.playHistory, element := s.element) == s
  {
  }

  /** With an empty history `previous` steps back to `max(i - 1, 0)` and never wraps. */
  lemma PrevStepsBackClamped(s: TransportState)
    requires CanStepBack(s) && s.selectedTrack.Some? && s.selectedPlaylist.Some?
    requires !PastRestartPoint(s) && s.playHistory == []
    ensures var tracks := s.selectedPlaylist.value.tracks; var i := CurrentTrackIndex(s).value;
      var j := if i - 1 > 0 then i - 1 else 0;
      Prev(s).selectedTrack == Some(tracks[j].(isPlaying := true)) && Prev(s).playHistory == [] &&
      Prev(s).element == Retarget(s.element, s.selectedTrack.value, tracks[j])
    ensures CurrentTrackIndex(s).value == 0 ==>
      Prev(s).selectedTrack == Some(s.selectedPlaylist.value.tracks[0].(isPlaying := true))
    ensures Prev(s).(selectedTrack := s.selectedTrack, element := s.element) == s
  {
  }

  /** `previous` with no selected track does nothing. */
  lemma PrevWithoutTrack(s: TransportState)
    requires CanStepBack(s) && s.selectedTrack.None?
    ensures Prev(s) == s
  {
  }

  /**
   * `previous` right after `next` brings back the track played before it and the history,
   * however long the old track had played: a chosen track with another url reloads the
   * element, so the restart branch cannot fire, and returning to the old url reloads it
   * again. Only when the chosen track has the same url does the element keep its position,
   * and past two seconds `previous` then just rewinds.
   */
  lemma NextThenPrev(s: TransportState, pick: nat)
    requires CanAdvance(s, pick) && CanStepBack(s)
    requires s.selectedPlaylist.Some? && s.selectedTrack.Some?
    ensures CanStepBack(Next(s, pick))
    ensures var old_ := s.selectedTrack.value; var sameUrl := ChosenNext(s, pick).url == old_.url;
      !sameUrl || !PastRestartPoint(s) ==>
        Prev(Next(s, pick)).(element := s.element) == s.(selectedTrack := Some(old_.(isPlaying := true))) &&
        (sameUrl ==> Prev(Next(s, pick)).element == s.element) &&
        (!sameUrl && s.element.Some? ==>
          Prev(Next(s, pick)).element == Some(s.element.value.(currentTime := 0.0, paused := true, duration := None)))
    ensures ChosenNext(s, pick).url == s.selectedTrack.value.url && PastRestartPoint(s) ==>
      Prev(Next(s, pick)) == Next(s, pick).(element := Some(s.element.value.(currentTime := 0.0)))
  {
    var t := Next(s, pick);
    assert t.playHistory[..|t.playHistory| - 1] == s.playHistory;
  }

  /** The shuffle and repeat toggles flip their own flag and nothing else, and undo themselves. */
  lemma TogglesTouchOnlyTheirFlag(s: TransportState)
    ensures ToggleShuffle(s).isShuffle == !s.isShuffle && ToggleShuffle(s).(isShuffle := s.isShuffle) == s
    ensures ToggleRepeat(s).isRepeat == !s.isRepeat && ToggleRepeat(s).(isRepeat := s.isRepeat) == s
    ensures ToggleShuffle(ToggleShuffle(s)) == s && ToggleRepeat(ToggleRepeat(s)) == s
  {
  }

  /** At the end of a track: with repeat, rewind and keep playing the same track; without, exactly `next`. */
  lemma EndedEffect(s: TransportState, pick: nat)
    requires CanEnd(s, pick)
    ensures s.isRepeat ==>
      Ended(s, pick).element == Some(s.element.value.(currentTime := 0.0, paused := false)) &&
      Ended(s, pick).selectedTrack == s.selectedTrack &&
      Ended(s, pick).playHistory == s.playHistory
    ensures !s.isRepeat ==> Ended(s, pick) == Next(s, pick)
  {
  }

  /**
   * After `next` and the effect that follows it, the controls play and the element is not
   * paused; a new url starts the element from 0, and so does the same url once the
   * element has reached its end (`play()` on an ended element seeks to the start).
   */
  lemma NextThenSyncPlays(s: TransportState, pick: nat)
    requires CanAdvance(s, pick) && s.selectedPlaylist.Some? && s.selectedTrack.Some?
    ensures SyncPlaying(Next(s, pick)).isPlaying
    ensures s.element.Some? ==>
      SyncPlaying(Next(s, pick)).element.Some? && !SyncPlaying(Next(s, pick)).element.value.paused
    ensures s.element.Some? && ChosenNext(s, pick).url != s.selectedTrack.value.url ==>
      SyncPlaying(Next(s, pick)).element.value.currentTime == 0.0
    ensures ChosenNext(s, pick).url == s.selectedTrack.value.url && s.element.Some? ==>
      SyncPlaying(Next(s, pick)).element == Some(Played(s.element.value))
    ensures s.element.Some? && HasEnded(s.element.value) ==>
      SyncPlaying(Next(s, pick)).element.value.currentTime == 0.0
  {
  }

  /**
   * A one-track playlist without repeat: when the track ends, `onEnd` takes `next` back to
   * the same track (same url, no reload), and the effect's `play()` starts it again from 0.
   */
  lemma EndedSingleTrackRestarts(s: TransportState)
    requires !s.isRepeat && !s.isShuffle && s.selectedPlaylist.Some? && s.selectedTrack.Some?
    requires s.selectedPlaylist.value.tracks == [s.selectedTrack.value]
    requires s.element.Some? && HasEnded(s.element.value)
    ensures CanEnd(s, 0)
    ensures var t := SyncPlaying(Ended(s, 0));
      t.isPlaying && t.selectedTrack == Some(s.selectedTrack.value.(isPlaying := true)) &&
      t.element == Some(s.element.value.(currentTime := 0.0, paused := false)) &&
      t.playHistory == s.playHistory + [s.selectedTrack.value]
  {
    assert CurrentTrackIndex(s) == Some(0);
    assert ChosenNext(s, 0) == s.selectedTrack.value;
  }
}
