/**
 * The keyboard shortcuts: a key, lower-cased, selects one action; the action
 * adjusts the element and the volume store or calls one transport handler,
 * and reports itself on the HUD. Keys typed into a text field are ignored.
 */
module Shortcuts {
  import opened Wrappers
  import opened Text
  import opened Catalog
  import Transport
  import VolumeStore
  import Hud
  import AudioControls

  /** The volume change of one arrow press. */
  const VolumeStep: real := 0.05

  /** The seek of one arrow press, in seconds. */
  const SeekStep: real := 5.0

  datatype Action =
    | VolumeUp | VolumeDown | SeekForward | SeekBackward | PlayPause
    | Shuffle | Repeat | NextTrack | PrevTrack | Mute | NoAction

  /** The `switch` on `e.key.toLowerCase()`. */
  function ActionOf(key: string): Action
  {
    var k := Lower(key);
    if k == "arrowup" then VolumeUp
    else if k == "arrowdown" then VolumeDown
    else if k == "arrowright" then SeekForward
    else if k == "arrowleft" then SeekBackward
    else if k == " " then PlayPause
    else if k == "s" then Shuffle
    else if k == "r" then Repeat
    else if k == "n" then NextTrack
    else if k == "p" then PrevTrack
    else if k == "m" then Mute
    else NoAction
  }

  /** The event target is a text field (its tag name, when it has one). */
  predicate TypingTarget(tag: Option<string>)
  {
    tag == Some("INPUT") || tag == Some("TEXTAREA")
  }

  /** Everything a key press can reach. */
  datatype Player = Player(
    transport: Transport.TransportState,
    volume: VolumeStore.VolumeState,
    hud: Hud.HudState)

  /** `Math.min(1, v + 0.05)`. */
  function Raised(v: real): real
  {
    if v + VolumeStep < 1.0 then v + VolumeStep else 1.0
  }

  /** `Math.max(0, v - 0.05)`. */
  function Lowered(v: real): real
  {
    if v - VolumeStep > 0.0 then v - VolumeStep else 0.0
  }

  /** The element with its volume set, when there is one. */
  function SetElementVolume(e: Option<Element>, v: real): Option<Element>
  {
    if e.Some? then Some(e.value.(volume := v)) else None
  }

  /** The element moved by `delta` seconds, unclamped, when there is one. */
  function Seek(e: Option<Element>, delta: real): Option<Element>
  {
    if e.Some? then Some(e.value.(currentTime := e.value.currentTime + delta)) else None
  }

  /** The draw for `next` and the catalog for `previous` are usable if those handlers run. */
  predicate CanHandle(p: Player, key: string, pick: nat)
  {
    (ActionOf(key) == NextTrack ==> Transport.CanAdvance(p.transport, pick)) &&
    (ActionOf(key) == PrevTrack ==> Transport.CanStepBack(p.transport))
  }

  /** Set the volume everywhere it shows: element, store and HUD level. */
  function ApplyVolume(p: Player, v: real): Player
  {
    Player(
      p.transport.(element := SetElementVolume(p.transport.element, v)),
      VolumeStore.SetVolumeSpec(p.volume, v),
      Hud.Show(p.hud, "Volume", Some(v)))
  }

  /** The message shown after play/pause: what the element reports afterwards. */
  function PlayPauseMessage(t: Transport.TransportState): string
  {
    if t.element.Some? && t.element.value.paused then "Paused" else "Playing"
  }

  /** What one action does, outside a text field. */
  function Perform(p: Player, action: Action, pick: nat): Player
    requires action == NextTrack ==> Transport.CanAdvance(p.transport, pick)
    requires action == PrevTrack ==> Transport.CanStepBack(p.transport)
  {
    match action
    case VolumeUp => ApplyVolume(p, Raised(p.volume.volume))
    case VolumeDown => ApplyVolume(p, Lowered(p.volume.volume))
    case SeekForward =>
      if p.transport.element.Some? then
        p.(transport := p.transport.(element := Seek(p.transport.element, SeekStep)),
           hud := Hud.Show(p.hud, "Forward 5s", None))
      else p
    case SeekBackward =>
      p.(transport := p.transport.(element := Seek(p.transport.element, -SeekStep)),
         hud := Hud.Show(p.hud, "Backward 5s", None))
    case PlayPause =>
      var t := Transport.TogglePlay(p.transport);
      p.(transport := t, hud := Hud.Show(p.hud, PlayPauseMessage(t), None))
    case Shuffle =>
      p.(transport := Transport.ToggleShuffle(p.transport), hud := Hud.Show(p.hud, "Shuffle Toggled", None))
    case Repeat =>
      p.(transport := Transport.ToggleRepeat(p.transport), hud := Hud.Show(p.hud, "Repeat Toggled", None))
    case NextTrack =>
      p.(transport := Transport.Next(p.transport, pick), hud := Hud.Show(p.hud, "Next Track", None))
    case PrevTrack =>
      p.(transport := Transport.Prev(p.transport), hud := Hud.Show(p.hud, "Previous Track", None))
    case Mute =>
      var (v, nowMuted) := VolumeStore.ToggleMuteSpec(p.volume);
      p.(volume := v, hud := Hud.Show(p.hud, if nowMuted then "Muted" else "Unmuted", None))
    case NoAction => p
  }

  /** `handleKey`: ignore text fields, otherwise perform the key's action. */
  function HandleKey(p: Player, key: string, tag: Option<string>, pick: nat): (r: Player)
    requires TypingTarget(tag) || CanHandle(p, key, pick)
    ensures TypingTarget(tag) || ActionOf(key) == NoAction ==> r == p
    ensures r.transport.selectedPlaylist == p.transport.selectedPlaylist
    ensures r.hud.clock == p.hud.clock
  {
    if TypingTarget(tag) then p else Perform(p, ActionOf(key), pick)
  }

  // ---------------------------------------------------------------- properties

  /** A key typed into an input or a text area changes nothing. */
  lemma TypingIsIgnored(p: Player, key: string, tag: Option<string>, pick: nat)
    requires TypingTarget(tag)
    ensures HandleKey(p, key, tag, pick) == p
  {
  }

  /** Keys are compared lower-cased: a key and its lower-case form act alike ("S" and "s"). */
  lemma KeysIgnoreCase(key: string)
    ensures ActionOf(key) == ActionOf(Lower(key))
  {
    LowerIdempotent(key);
  }

  lemma UpperAndLowerS()
    ensures ActionOf("S") == ActionOf("s") == Shuffle
  {
    assert Lower("S") == "s";
    assert Lower("s") == "s";
  }

  /**
   * Arrow up and arrow down compute one value, `min(1, v + 0.05)` or `max(0, v - 0.05)`,
   * and send it to the element, the store and the HUD level alike; from a valid store it lies in [0,1].
   */
  lemma VolumeKeys(p: Player, key: string, tag: Option<string>, pick: nat)
    requires !TypingTarget(tag) && (ActionOf(key) == VolumeUp || ActionOf(key) == VolumeDown)
    requires VolumeStore.Valid(p.volume)
    ensures var q := HandleKey(p, key, tag, pick);
      var v := if ActionOf(key) == VolumeUp then Raised(p.volume.volume) else Lowered(p.volume.volume);
      0.0 <= v <= 1.0 &&
      q.volume.volume == v &&
      q.hud.level == Some(v) && q.hud.message == Some("Volume") &&
      (p.transport.element.Some? ==> q.transport.element == Some(p.transport.element.value.(volume := v))) &&
      VolumeStore.Valid(q.volume)
  {
    var v := if ActionOf(key) == VolumeUp then Raised(p.volume.volume) else Lowered(p.volume.volume);
    VolumeStore.SetVolumeClamps(p.volume, v);
    VolumeStore.SetVolumePreservesValid(p.volume, v);
  }

  /** At 0.90, arrow up gives 0.95 in the store and on the HUD. */
  lemma ArrowUpFromNinety(p: Player)
    requires p.volume == VolumeStore.VolumeState(0.9, 0.9, false)
    ensures HandleKey(p, "ArrowUp", None, 0).volume.volume == 0.95
    ensures HandleKey(p, "ArrowUp", None, 0).hud.level == Some(0.95)
  {
    assert Lower("ArrowUp") == "arrowup";
  }

  /**
   * Arrow right seeks +5 s and reports it only if there is an element; arrow left seeks
   * -5 s if there is one but always reports. Neither clamps the position.
   */
  lemma SeekKeys(p: Player, key: string, tag: Option<string>, pick: nat)
    requires !TypingTarget(tag)
    ensures ActionOf(key) == SeekForward ==>
      var q := HandleKey(p, key, tag, pick);
      (p.transport.element.None? ==> q == p) &&
      (p.transport.element.Some? ==>
        q.transport.element.Some? &&
        q.transport.element.value.currentTime == p.transport.element.value.currentTime + 5.0 &&
        q.hud.message == Some("Forward 5s"))
    ensures ActionOf(key) == SeekBackward ==>
      var q := HandleKey(p, key, tag, pick);
      q.hud.message == Some("Backward 5s") &&
      (p.transport.element.Some? ==>
        q.transport.element.Some? &&
        q.transport.element.value.currentTime == p.transport.element.value.currentTime - 5.0) &&
      (p.transport.element.None? ==> q.transport == p.transport)
  {
  }

  /** Space toggles play once; the HUD says "Paused" exactly when the element then reports paused. */
  lemma SpaceKey(p: Player, key: string, tag: Option<string>, pick: nat)
    requires !TypingTarget(tag) && ActionOf(key) == PlayPause
    ensures var q := HandleKey(p, key, tag, pick);
      q.transport == Transport.TogglePlay(p.transport) &&
      q.volume == p.volume &&
      (q.hud.message == Some("Paused") <==> q.transport.element.Some? && q.transport.element.value.paused) &&
      (p.transport.element.None? ==> q.hud.message == Some("Playing"))
  {
  }

  /** "s", "r", "n" and "p" each call their one handler and show their fixed message. */
  lemma HandlerKeys(p: Player, key: string, tag: Option<string>, pick: nat)
    requires !TypingTarget(tag) && CanHandle(p, key, pick)
    ensures var q := HandleKey(p, key, tag, pick);
      (ActionOf(key) == Shuffle ==>
        q == Player(Transport.ToggleShuffle(p.transport), p.volume, Hud.Show(p.hud, "Shuffle Toggled", None))) &&
      (ActionOf(key) == Repeat ==>
        q == Player(Transport.ToggleRepeat(p.transport), p.volume, Hud.Show(p.hud, "Repeat Toggled", None))) &&
      (ActionOf(key) == NextTrack ==>
        q == Player(Transport.Next(p.transport, pick), p.volume, Hud.Show(p.hud, "Next Track", None))) &&
      (ActionOf(key) == PrevTrack ==>
        q == Player(Transport.Prev(p.transport), p.volume, Hud.Show(p.hud, "Previous Track", None)))
  {
  }

  /** "m" toggles mute exactly once and reports the new state. */
  lemma MuteKey(p: Player, key: string, tag: Option<string>, pick: nat)
    requires !TypingTarget(tag) && ActionOf(key) == Mute
    ensures var q := HandleKey(p, key, tag, pick);
      q.volume == VolumeStore.ToggleMuteSpec(p.volume).0 &&
      q.transport == p.transport &&
      q.hud.message == Some(if q.volume.isMuted then "Muted" else "Unmuted")
  {
    VolumeStore.ToggleMuteEffect(p.volume);
  }

  /** Any other key calls nothing and shows nothing. */
  lemma OtherKeys(p: Player, key: string, tag: Option<string>, pick: nat)
    requires ActionOf(key) == NoAction
    ensures HandleKey(p, key, tag, pick) == p
  {
  }

  /** No key press breaks the volume store's invariant. */
  lemma HandleKeyKeepsVolumeValid(p: Player, key: string, tag: Option<string>, pick: nat)
    requires TypingTarget(tag) || CanHandle(p, key, pick)
    requires VolumeStore.Valid(p.volume)
    ensures VolumeStore.Valid(HandleKey(p, key, tag, pick).volume)
  {
    if !TypingTarget(tag) {
      match ActionOf(key) {
        case VolumeUp => VolumeKeys(p, key, tag, pick);
        case VolumeDown => VolumeKeys(p, key, tag, pick);
        case Mute => VolumeStore.ToggleMutePreservesValid(p.volume);
        case _ =>
      }
    }
  }

  /** The state a key press reaches, read off the live objects. */
  function PlayerOf(controls: AudioControls.Controller, store: VolumeStore.Store, hud: Hud.Provider): Player
    reads controls, controls.playback, controls.audio, store, hud
  {
    Player(controls.View(), store.View(), hud.View())
  }

  /** The `keydown` listener on the live objects. */
  method OnKeyDown(
    controls: AudioControls.Controller, store: VolumeStore.Store, hud: Hud.Provider,
    key: string, tag: Option<string>, pick: nat)
    requires TypingTarget(tag) || CanHandle(PlayerOf(controls, store, hud), key, pick)
    modifies controls, controls.playback, controls.audio, store, hud
    ensures PlayerOf(controls, store, hud) == HandleKey(old(PlayerOf(controls, store, hud)), key, tag, pick)
    ensures controls.CatalogKept()
  {
    if TypingTarget(tag) {
      return;
    }
    var action := ActionOf(key);
    if action == VolumeUp || action == VolumeDown {
      var v := if action == VolumeUp then Raised(store.volume) else Lowered(store.volume);
      SetVolumeEverywhere(controls, store, hud, v);
    } else if action == SeekForward || action == SeekBackward {
      SeekBy(controls, store, hud, action == SeekForward);
    } else if action == Mute {
      var nowMuted := store.ToggleMute();
      hud.ShowHUD(if nowMuted then "Muted" else "Unmuted", None);
    } else if action != NoAction {
      RunHandler(controls, store, hud, action, pick);
    }
  }

  /** Space, "s", "r", "n" and "p": call the one transport handler, then report. */
  method RunHandler(
    controls: AudioControls.Controller, store: VolumeStore.Store, hud: Hud.Provider,
    action: Action, pick: nat)
    requires action in {PlayPause, Shuffle, Repeat, NextTrack, PrevTrack}
    requires action == NextTrack ==> Transport.CanAdvance(controls.View(), pick)
    requires action == PrevTrack ==> Transport.CanStepBack(controls.View())
    modifies controls, controls.playback, controls.audio, hud
    ensures PlayerOf(controls, store, hud) == Perform(old(PlayerOf(controls, store, hud)), action, pick)
    ensures controls.CatalogKept()
  {
    if action == PlayPause {
      controls.TogglePlay();
      var audio := controls.audio;
      hud.ShowHUD(if audio != null && audio.paused then "Paused" else "Playing", None);
    } else if action == Shuffle {
      controls.HandleShuffle();
      hud.ShowHUD("Shuffle Toggled", None);
    } else if action == Repeat {
      controls.HandleRepeat();
      hud.ShowHUD("Repeat Toggled", None);
    } else if action == NextTrack {
      controls.HandleNext(pick);
      hud.ShowHUD("Next Track", None);
    } else {
      controls.HandlePrev();
      hud.ShowHUD("Previous Track", None);
    }
  }

  /** Arrow up or down: write one value to the element, the store and the HUD. */
  method SetVolumeEverywhere(
    controls: AudioControls.Controller, store: VolumeStore.Store, hud: Hud.Provider, v: real)
    modifies controls.audio, store, hud
    ensures PlayerOf(controls, store, hud) == ApplyVolume(old(PlayerOf(controls, store, hud)), v)
  {
    var audio := controls.audio;
    if audio != null { audio.volume := v; }
    store.SetVolume(v);
    hud.ShowHUD("Volume", Some(v));
  }

  /** Arrow right (+5 s, reported only with an element) or arrow left (-5 s, always reported). */
  method SeekBy(
    controls: AudioControls.Controller, store: VolumeStore.Store, hud: Hud.Provider, forward: bool)
    modifies controls.audio, hud
    ensures PlayerOf(controls, store, hud) ==
      Perform(old(PlayerOf(controls, store, hud)), if forward then SeekForward else SeekBackward, 0)
  {
    var audio := controls.audio;
    if forward {
      if audio != null {
        audio.currentTime := audio.currentTime + SeekStep;
        hud.ShowHUD("Forward 5s", None);
      }
    } else {
      if audio != null { audio.currentTime := audio.currentTime - SeekStep; }
      hud.ShowHUD("Backward 5s", None);
    }
  }
}
