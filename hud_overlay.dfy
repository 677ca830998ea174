/**
 * The HUD overlay: what the screen shows for a message and a volume level.
 * A level, when present, wins over the message.
 */
module HudOverlay {
  import opened Wrappers
  import Hud

  datatype Overlay =
    | Nothing
    | VolumeBar(widthPercent: real, labelPercent: int)
    | MessageText(text: string)

  /** A message is truthy when present and non-empty. */
  predicate Truthy(message: Option<string>)
  {
    message.Some? && message.value != ""
  }

  /** `Math.round`: halves round up. */
  function Round(x: real): int
  {
    (x + 0.5).Floor
  }

  function Render(message: Option<string>, level: Option<real>): (r: Overlay)
    ensures r.Nothing? <==> !Truthy(message) && level.None?
    ensures level.Some? ==> r.VolumeBar? && r.widthPercent == level.value * 100.0
    ensures level.None? && Truthy(message) ==> r == MessageText(message.value)
  {
    if !Truthy(message) && level.None? then Nothing
    else if level.Some? then VolumeBar(level.value * 100.0, Round(level.value * 100.0))
    else MessageText(message.value)
  }

  /**
   * Nothing is drawn exactly when the message is falsy and the level is null; a level
   * draws the bar even over a message; otherwise the message text is drawn.
   */
  lemma RenderCases(message: Option<string>, level: Option<real>)
    ensures Render(message, level).Nothing? <==> !Truthy(message) && level.None?
    ensures level.Some? ==> Render(message, level).VolumeBar?
    ensures level.None? && Truthy(message) ==> Render(message, level) == MessageText(message.value)
  {
  }

  /** For a level in [0,1] the bar is level*100 percent wide and its label is that width rounded. */
  lemma VolumeBarLabel(message: Option<string>, v: real)
    requires 0.0 <= v <= 1.0
    ensures var o := Render(message, Some(v));
      o.VolumeBar? && o.widthPercent == v * 100.0 &&
      0 <= o.labelPercent <= 100 &&
      o.widthPercent - 0.5 < o.labelPercent as real <= o.widthPercent + 0.5
  {
  }

  /** The overlay of a HUD state. */
  function View(h: Hud.HudState): Overlay
  {
    Render(h.message, h.level)
  }

  /** A message shown without a level is drawn when no earlier level is still held. */
  lemma ShowMessageDrawn(h: Hud.HudState, message: string)
    requires h.level.None? && message != ""
    ensures View(Hud.Show(h, message, None)) == MessageText(message)
  {
  }

  /** A level left over from an earlier volume change hides a later plain message. */
  lemma HeldLevelHidesMessage(h: Hud.HudState, message: string, v: real)
    ensures View(Hud.Show(Hud.Show(h, "Volume", Some(v)), message, None)).VolumeBar?
  {
  }

  /** After the full delay with no further call the overlay draws nothing. */
  lemma ShowThenWaitDrawsNothing(h: Hud.HudState, message: string, volume: Option<real>)
    ensures View(Hud.Elapse(Hud.Show(h, message, volume), Hud.ClearDelay)) == Nothing
  {
    Hud.ShowThenWait(h, message, volume);
  }
}
