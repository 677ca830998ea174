/**
 * The playback state provider: the catalog, the open playlist and the active
 * track, filled once from the bundled catalog when the provider mounts.
 */
module AudioProvider {
  import opened Wrappers
  import opened Catalog

  datatype PlaybackView = PlaybackView(
    playlists: seq<Playlist>,
    selectedPlaylist: Option<Playlist>,
    selectedTrack: Option<Track>,
    loaded: bool)

  /** No playlists and no selection before the catalog is loaded. */
  const Initial := PlaybackView([], None, None, false)

  /** The first track of a playlist, or nothing (`tracks[0]` of an empty list is undefined). */
  function FirstTrack(p: Playlist): (r: Option<Track>)
    ensures r.Some? <==> |p.tracks| > 0
    ensures r.Some? ==> r.value == p.tracks[0]
  {
    if |p.tracks| > 0 then Some(p.tracks[0]) else None
  }

  /**
   * The mount effect: the catalog, its first playlist and that playlist's first
   * track as it is in the catalog. Its dependency list is empty, so it runs once:
   * once `loaded` is set it has no further effect.
   */
  function Load(v: PlaybackView, catalog: seq<Playlist>): (r: PlaybackView)
    requires |catalog| > 0
    ensures r.loaded
    ensures v.loaded ==> r == v
    ensures !v.loaded ==>
      r.playlists == catalog && r.selectedPlaylist == Some(catalog[0]) &&
      (r.selectedTrack.Some? <==> |catalog[0].tracks| > 0)
  {
    if v.loaded then v
    else PlaybackView(catalog, Some(catalog[0]), FirstTrack(catalog[0]), true)
  }

  function SetSelectedPlaylist(v: PlaybackView, p: Option<Playlist>): PlaybackView
  {
    v.(selectedPlaylist := p)
  }

  function SetSelectedTrack(v: PlaybackView, t: Option<Track>): PlaybackView
  {
    v.(selectedTrack := t)
  }

  /** Loading from the initial state selects the first playlist and its first track, unaltered. */
  lemma LoadSelectsFirst(catalog: seq<Playlist>)
    requires |catalog| > 0 && |catalog[0].tracks| > 0
    ensures var v := Load(Initial, catalog);
      v.playlists == catalog &&
      v.selectedPlaylist == Some(catalog[0]) &&
      v.selectedTrack == Some(catalog[0].tracks[0]) &&
      v.selectedTrack.value.isPlaying == catalog[0].tracks[0].isPlaying
  {
  }

  /** A second run of the mount effect, whatever catalog it sees, changes nothing. */
  lemma LoadRunsOnce(v: PlaybackView, c1: seq<Playlist>, c2: seq<Playlist>)
    requires |c1| > 0 && |c2| > 0
    ensures Load(Load(v, c1), c2) == Load(v, c1)
  {
  }

  /** The two setters touch disjoint parts of the state: each leaves the other alone and they commute. */
  lemma SettersIndependent(v: PlaybackView, p: Option<Playlist>, t: Option<Track>)
    ensures SetSelectedPlaylist(v, p).selectedTrack == v.selectedTrack
    ensures SetSelectedTrack(v, t).selectedPlaylist == v.selectedPlaylist
    ensures SetSelectedTrack(SetSelectedPlaylist(v, p), t) == SetSelectedPlaylist(SetSelectedTrack(v, t), p)
    ensures SetSelectedPlaylist(v, p).playlists == v.playlists && SetSelectedTrack(v, t).playlists == v.playlists
  {
  }

  /** The provider's three state fields, plus whether the mount effect has run. */
  class PlaybackState {
    var playlists: seq<Playlist>
    var selectedPlaylist: Option<Playlist>
    var selectedTrack: Option<Track>
    var loaded: bool

    function View(): PlaybackView
      reads this
    {
      PlaybackView(playlists, selectedPlaylist, selectedTrack, loaded)
    }

    constructor ()
      ensures View() == Initial
    {
      playlists, selectedPlaylist, selectedTrack, loaded := [], None, None, false;
    }

    /** The mount effect; the catalog must hold a playlist, since `playlists[0].tracks` is read. */
    method LoadCatalog(catalog: seq<Playlist>)
      requires |catalog| > 0
      modifies this
      ensures View() == Load(old(View()), catalog)
    {
      if !loaded {
        playlists := catalog;
        selectedPlaylist := Some(catalog[0]);
        selectedTrack := if |catalog[0].tracks| > 0 then Some(catalog[0].tracks[0]) else None;
        loaded := true;
      }
    }

    method SelectPlaylist(p: Option<Playlist>)
      modifies this
      ensures View() == SetSelectedPlaylist(old(View()), p)
    {
      selectedPlaylist := p;
    }

    method SelectTrack(t: Option<Track>)
      modifies this
      ensures View() == SetSelectedTrack(old(View()), t)
    {
      selectedTrack := t;
    }
  }
}
