/**
 * The open playlist's panel: the big play button, the track rows and their
 * playing indicator, and the handlers that change the selected track.
 */
module PlaylistDisplay {
  import opened Wrappers
  import opened Catalog
  import AudioProvider

  /** `toggleAudio`: flip the selected track's own flag, nothing else. */
  function ToggleAudio(selected: Option<Track>): (r: Option<Track>)
    ensures r.Some? <==> selected.Some?
    ensures r.Some? ==> r.value.isPlaying == !selected.value.isPlaying && r.value.name == selected.value.name
  {
    if selected.None? then None
    else Some(WithPlaying(selected.value, !selected.value.isPlaying))
  }

  /**
   * The big button: it toggles playback when the playlist holds a track named like the
   * selected one, and otherwise starts the playlist's first track.
   */
  function PlayButtonClick(playlist: Playlist, selected: Option<Track>): (r: Option<Track>)
    requires |playlist.tracks| > 0
    ensures r.Some? && HasTrackNamed(playlist.tracks, r)
    ensures !HasTrackNamed(playlist.tracks, selected) ==> r.value.isPlaying
  {
    if HasTrackNamed(playlist.tracks, selected) then ToggleAudio(selected)
    else Some(WithPlaying(playlist.tracks[0], true))
  }

  /** A click on a row selects that row's track, playing. */
  function RowClick(row: Track): (r: Option<Track>)
    ensures r.Some? && r.value.isPlaying && r.value.(isPlaying := row.isPlaying) == row
  {
    Some(WithPlaying(row, true))
  }

  /**
   * A click on a row's hover icon (play, or pause on the playing row): the icon's
   * `toggleAudio` runs, then the click bubbles to the row button, whose setter runs last,
   * so its value is the one the provider keeps.
   */
  function HoverIconClick(v: AudioProvider.PlaybackView, row: Track): (r: AudioProvider.PlaybackView)
    ensures r.selectedTrack.Some? && r.selectedTrack.value.isPlaying && r.selectedTrack.value.name == row.name
    ensures r.(selectedTrack := v.selectedTrack) == v
  {
    var afterIcon := AudioProvider.SetSelectedTrack(v, ToggleAudio(v.selectedTrack));
    AudioProvider.SetSelectedTrack(afterIcon, RowClick(row))
  }

  /** The animated indicator on a row: its name is the selected one's and that track plays. */
  predicate RowIsPlaying(row: Track, selected: Option<Track>)
  {
    selected.Some? && row.name == selected.value.name && selected.value.isPlaying
  }

  datatype PlayButton = ToggleButton(showsPause: bool) | StartButton

  datatype Panel =
    | NothingSelected
    | PlaylistPanel(button: PlayButton, rowsPlaying: seq<bool>)

  /** What the panel draws for the open playlist and the selected track. */
  function Render(playlist: Option<Playlist>, selected: Option<Track>): (r: Panel)
    ensures r.NothingSelected? <==> playlist.None?
    ensures r.PlaylistPanel? ==> |r.rowsPlaying| == |playlist.value.tracks|
    ensures r.PlaylistPanel? ==> (r.button.ToggleButton? <==> HasTrackNamed(playlist.value.tracks, selected))
    ensures r.PlaylistPanel? && r.button.ToggleButton? ==>
      selected.Some? && r.button.showsPause == selected.value.isPlaying
  {
    if playlist.None? then NothingSelected
    else
      var tracks := playlist.value.tracks;
      PlaylistPanel(
        if HasTrackNamed(tracks, selected) then ToggleButton(selected.value.isPlaying) else StartButton,
        seq(|tracks|, i requires 0 <= i < |tracks| => RowIsPlaying(tracks[i], selected)))
  }

  // ---------------------------------------------------------------- properties

  /** Without a selection `toggleAudio` does nothing; otherwise only the flag flips, and twice is nothing. */
  lemma ToggleAudioEffect(selected: Option<Track>)
    ensures selected.None? ==> ToggleAudio(selected) == None
    ensures selected.Some? ==>
      ToggleAudio(selected).Some? &&
      ToggleAudio(selected).value.isPlaying == !selected.value.isPlaying &&
      ToggleAudio(selected).value.(isPlaying := selected.value.isPlaying) == selected.value
    ensures ToggleAudio(ToggleAudio(selected)) == selected
  {
  }

  /** The button toggles a track of this playlist, or starts the first track when the selection is elsewhere. */
  lemma PlayButtonEffect(playlist: Playlist, selected: Option<Track>)
    requires |playlist.tracks| > 0
    ensures HasTrackNamed(playlist.tracks, selected) ==>
      PlayButtonClick(playlist, selected) == ToggleAudio(selected) &&
      NameOf(PlayButtonClick(playlist, selected)) == NameOf(selected)
    ensures !HasTrackNamed(playlist.tracks, selected) ==>
      PlayButtonClick(playlist, selected) == Some(playlist.tracks[0].(isPlaying := true))
  {
  }

  /** After clicking the start button the panel shows the pause form of the toggle button. */
  lemma StartButtonThenPause(playlist: Playlist, selected: Option<Track>)
    requires |playlist.tracks| > 0 && !HasTrackNamed(playlist.tracks, selected)
    ensures Render(Some(playlist), selected).button == StartButton
    ensures Render(Some(playlist), PlayButtonClick(playlist, selected)).button == ToggleButton(true)
  {
    assert Some(playlist.tracks[0].name) == NameOf(PlayButtonClick(playlist, selected));
  }

  /** After a row click, exactly the rows sharing that row's name show the indicator. */
  lemma RowClickLightsItsName(tracks: seq<Track>, k: int, playlist: Playlist)
    requires playlist.tracks == tracks && 0 <= k < |tracks|
    ensures var panel := Render(Some(playlist), RowClick(tracks[k]));
      panel.PlaylistPanel? && |panel.rowsPlaying| == |tracks| && panel.rowsPlaying[k] &&
      forall i :: 0 <= i < |tracks| ==> (panel.rowsPlaying[i] <==> tracks[i].name == tracks[k].name)
  {
  }

  /**
   * The hover icon acts exactly like a click on its row: the toggle it runs is overwritten,
   * so the pause icon shown on the playing row leaves that row playing.
   */
  lemma HoverIconIsRowClick(v: AudioProvider.PlaybackView, row: Track)
    ensures HoverIconClick(v, row) == AudioProvider.SetSelectedTrack(v, RowClick(row))
    ensures RowIsPlaying(row, v.selectedTrack) ==> RowIsPlaying(row, HoverIconClick(v, row).selectedTrack)
    ensures RowIsPlaying(row, HoverIconClick(v, row).selectedTrack)
  {
  }

  /** With no playlist open nothing playlist-specific is drawn. */
  lemma NoPlaylistNoPanel(selected: Option<Track>)
    ensures Render(None, selected) == NothingSelected
  {
  }

  /** The panel's handlers on the live provider: each replaces the selected track and nothing else. */
  method ToggleAudioOn(pb: AudioProvider.PlaybackState)
    modifies pb
    ensures pb.View() == AudioProvider.SetSelectedTrack(old(pb.View()), ToggleAudio(old(pb.selectedTrack)))
  {
    if pb.selectedTrack.None? {
      return;
    }
    pb.SelectTrack(Some(WithPlaying(pb.selectedTrack.value, !pb.selectedTrack.value.isPlaying)));
  }

  /** The big button of the open playlist: it is drawn only for `selectedPlaylist`. */
  method ClickPlayButton(pb: AudioProvider.PlaybackState, playlist: Playlist)
    requires pb.selectedPlaylist == Some(playlist) && |playlist.tracks| > 0
    modifies pb
    ensures pb.View() == AudioProvider.SetSelectedTrack(old(pb.View()), PlayButtonClick(playlist, old(pb.selectedTrack)))
  {
    var i := IndexByName(playlist.tracks, NameOf(pb.selectedTrack));
    if i >= 0 {
      ToggleAudioOn(pb);
    } else {
      pb.SelectTrack(Some(WithPlaying(playlist.tracks[0], true)));
    }
  }

  method ClickRow(pb: AudioProvider.PlaybackState, row: Track)
    modifies pb
    ensures pb.View() == AudioProvider.SetSelectedTrack(old(pb.View()), RowClick(row))
  {
    pb.SelectTrack(Some(WithPlaying(row, true)));
  }

  /** The row's hover icon: the icon's handler, then the row button's as the click bubbles. */
  method ClickHoverIcon(pb: AudioProvider.PlaybackState, row: Track)
    modifies pb
    ensures pb.View() == HoverIconClick(old(pb.View()), row)
  {
    ToggleAudioOn(pb);
    ClickRow(pb, row);
  }
}
