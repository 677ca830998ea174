/**
 * The player controls as a stateful object: their own flags and play history,
 * the shared playback provider they select tracks through, and the media
 * element. Every handler is specified by the transport function it performs.
 */
module AudioControls {
  import opened Wrappers
  import opened Catalog
  import AudioProvider
  import Transport

  class Controller {
    var isPlaying: bool
    var isShuffle: bool
    var isRepeat: bool
    var playHistory: seq<Track>
    const playback: AudioProvider.PlaybackState
    const audio: MediaElement?

    function View(): Transport.TransportState
      reads this, playback, audio
    {
      Transport.TransportState(
        playback.selectedPlaylist, playback.selectedTrack,
        isPlaying, isShuffle, isRepeat, playHistory, ViewOf(audio))
    }

    /** The catalog and the mount flag of the provider are never touched by the controls. */
    twostate predicate CatalogKept()
      reads playback
    {
      playback.playlists == old(playback.playlists) && playback.loaded == old(playback.loaded)
    }

    constructor (pb: AudioProvider.PlaybackState, el: MediaElement?)
      ensures playback == pb && audio == el
      ensures !isPlaying && !isShuffle && !isRepeat && playHistory == []
    {
      playback, audio := pb, el;
      isPlaying, isShuffle, isRepeat, playHistory := false, false, false, [];
    }

    method TogglePlay()
      modifies this, playback, audio
      ensures View() == Transport.TogglePlay(old(View())) && CatalogKept()
    {
      if playback.selectedTrack.None? {
        return;
      }
      var next := !isPlaying;
      isPlaying := next;
      playback.SelectTrack(Some(WithPlaying(playback.selectedTrack.value, next)));
      if audio != null {
        if next {
          audio.Play();
        } else {
          audio.Pause();
        }
      }
    }

    /**
     * `setSelectedTrack({ ...t, isPlaying: true })`, followed by the render that moves the
     * element's `src` to the new url (a reload only when the url changes).
     */
    method SelectPlaying(t: Track)
      requires playback.selectedTrack.Some?
      modifies playback, audio
      ensures View() == Transport.SelectPlaying(old(View()), t) && CatalogKept()
    {
      var from := playback.selectedTrack.value;
      playback.SelectTrack(Some(WithPlaying(t, true)));
      if audio != null && from.url != t.url {
        audio.LoadSource();
      }
    }

    method HandleNext(pick: nat)
      requires Transport.CanAdvance(View(), pick)
      modifies this, playback, audio
      ensures View() == Transport.Next(old(View()), pick) && CatalogKept()
    {
      if playback.selectedPlaylist.None? || playback.selectedTrack.None? {
        return;
      }
      var tracks := playback.selectedPlaylist.value.tracks;
      var i := IndexByName(tracks, Some(playback.selectedTrack.value.name));
      var nextTrack: Track;
      if isShuffle {
        var others := Transport.Others(tracks, i);
        nextTrack := others[pick];
      } else {
        var nextIndex := if i == |tracks| - 1 then 0 else i + 1;
        nextTrack := tracks[nextIndex];
      }
      playHistory := playHistory + [playback.selectedTrack.value];
      SelectPlaying(nextTrack);
    }

    method HandlePrev()
      requires Transport.CanStepBack(View())
      modifies this, playback, audio
      ensures View() == Transport.Prev(old(View())) && CatalogKept()
    {
      if playback.selectedTrack.None? {
        return;
      }
      if audio != null && audio.currentTime > 2.0 {
        audio.currentTime := 0.0;
        return;
      }
      if |playHistory| > 0 {
        var last := playHistory[|playHistory| - 1];
        playHistory := playHistory[..|playHistory| - 1];
        SelectPlaying(last);
      } else if playback.selectedPlaylist.Some? {
        var tracks := playback.selectedPlaylist.value.tracks;
        var i := IndexByName(tracks, Some(playback.selectedTrack.value.name));
        var fallback := if i > 0 then i - 1 else 0;
        SelectPlaying(tracks[fallback]);
      }
    }

    method HandleShuffle()
      modifies this
      ensures View() == Transport.ToggleShuffle(old(View()))
    {
      isShuffle := !isShuffle;
    }

    method HandleRepeat()
      modifies this
      ensures View() == Transport.ToggleRepeat(old(View()))
    {
      isRepeat := !isRepeat;
    }

    /** The effect that runs after every change of the selected track. */
    method PlaySyncEffect()
      modifies this, audio
      ensures View() == Transport.SyncPlaying(old(View()))
    {
      if playback.selectedTrack.Some? && playback.selectedTrack.value.isPlaying {
        isPlaying := true;
        if audio != null { audio.Play(); }
      } else {
        isPlaying := false;
        if audio != null { audio.Pause(); }
      }
    }

    /** The element's `ended` event; the listener exists only while there is an element. */
    method OnEnd(pick: nat)
      requires Transport.CanEnd(View(), pick)
      modifies this, playback, audio
      ensures View() == Transport.Ended(old(View()), pick) && CatalogKept()
    {
      if isRepeat {
        audio.currentTime := 0.0;
        audio.Play();
      } else {
        HandleNext(pick);
      }
    }
  }
}
