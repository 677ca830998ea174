/**
 * The HUD provider: a transient message and volume level that every `showHUD`
 * call sets and schedules to be wiped 1500 ms later. Time is an explicit
 * millisecond clock; the scheduled clears are the due times still pending.
 */
module Hud {
  import opened Wrappers

  /** The delay before a scheduled clear fires, in milliseconds. */
  const ClearDelay: int := 1500

  datatype HudState = HudState(
    message: Option<string>,
    level: Option<real>,
    clock: int,
    pending: seq<int>)

  /** Both fields are null when the provider mounts, and no clear is scheduled. */
  const Initial := HudState(None, None, 0, [])

  /** Every pending clear is due after now and at most one delay from now. */
  predicate Valid(h: HudState)
  {
    forall i :: 0 <= i < |h.pending| ==> h.clock < h.pending[i] <= h.clock + ClearDelay
  }

  /** `showHUD(message, volume?)`: set the message, set the level only when one is given, schedule a clear. */
  function Show(h: HudState, message: string, volume: Option<real>): (r: HudState)
    ensures r.message == Some(message)
    ensures r.level == (if volume.Some? then volume else h.level)
    ensures r.clock == h.clock && |r.pending| == |h.pending| + 1
    ensures r.pending[..|h.pending|] == h.pending && r.pending[|h.pending|] == h.clock + ClearDelay
  {
    h.(message := Some(message),
       level := if volume.Some? then volume else h.level,
       pending := h.pending + [h.clock + ClearDelay])
  }

  /** Some scheduled clear is due by time `t`. */
  predicate SomeDue(pending: seq<int>, t: int)
  {
    exists i :: 0 <= i < |pending| && pending[i] <= t
  }

  /** The clears still pending after every one due by `t` has fired. */
  function StillPending(pending: seq<int>, t: int): (r: seq<int>)
    ensures forall x :: x in r <==> x in pending && x > t
    ensures |r| <= |pending|
  {
    if pending == [] then []
    else (if pending[0] > t then [pending[0]] else []) + StillPending(pending[1..], t)
  }

  /**
   * `dt` milliseconds pass. Every clear that falls due fires and sets both fields
   * to null, whichever call scheduled it; firing several is the same as firing one.
   */
  function Elapse(h: HudState, dt: nat): (r: HudState)
    ensures r.clock == h.clock + dt && |r.pending| <= |h.pending|
    ensures SomeDue(h.pending, r.clock) ==> r.message.None? && r.level.None?
    ensures !SomeDue(h.pending, r.clock) ==> r.(clock := h.clock) == h
  {
    var t := h.clock + dt;
    if SomeDue(h.pending, t) then HudState(None, None, t, StillPending(h.pending, t))
    else h.(clock := t)
  }

  /** Whether anything is on screen is decided by the overlay; "hidden" here means both fields null. */
  predicate Hidden(h: HudState)
  {
    h.message.None? && h.level.None?
  }

  lemma InitialHidden()
    ensures Hidden(Initial) && Valid(Initial)
  {
  }

  /**
   * `showHUD` always sets the message, replaces the level only when a volume is given,
   * and adds exactly one clear due one delay from now without cancelling earlier ones.
   */
  lemma ShowEffect(h: HudState, message: string, volume: Option<real>)
    ensures var g := Show(h, message, volume);
      g.message == Some(message) &&
      (volume.Some? ==> g.level == volume) &&
      (volume.None? ==> g.level == h.level) &&
      g.clock == h.clock &&
      |g.pending| == |h.pending| + 1 &&
      g.pending[..|h.pending|] == h.pending &&
      g.pending[|h.pending|] == h.clock + ClearDelay
  {
    assert Show(h, message, volume).pending[..|h.pending|] == h.pending;
  }

  lemma ShowPreservesValid(h: HudState, message: string, volume: Option<real>)
    requires Valid(h)
    ensures Valid(Show(h, message, volume))
  {
  }

  lemma ElapsePreservesValid(h: HudState, dt: nat)
    requires Valid(h)
    ensures Valid(Elapse(h, dt))
  {
    var t := h.clock + dt;
    var r := StillPending(h.pending, t);
    forall i | 0 <= i < |r| ensures t < r[i] <= t + ClearDelay {
      assert r[i] in r;
      var j :| 0 <= j < |h.pending| && h.pending[j] == r[i];
    }
  }

  /** A firing clear wipes both fields; with nothing due, time passes and nothing else changes. */
  lemma ElapseEffect(h: HudState, dt: nat)
    ensures var g := Elapse(h, dt);
      g.clock == h.clock + dt &&
      (SomeDue(h.pending, h.clock + dt) ==> Hidden(g)) &&
      (!SomeDue(h.pending, h.clock + dt) ==> g.message == h.message && g.level == h.level && g.pending == h.pending)
  {
  }

  /** A message shown and left alone for the full delay is gone afterwards. */
  lemma ShowThenWait(h: HudState, message: string, volume: Option<real>)
    ensures Hidden(Elapse(Show(h, message, volume), ClearDelay))
  {
    var g := Show(h, message, volume);
    assert g.pending[|g.pending| - 1] == h.clock + ClearDelay;
  }

  /**
   * The race of the uncancelled timer: "A" is shown, `d` ms later "B" is shown, and
   * when A's clear fires only `ClearDelay - d` ms later, B is already gone.
   */
  lemma EarlierClearHidesLaterMessage(h: HudState, a: string, b: string, d: nat)
    requires h.pending == [] && 0 < d < ClearDelay
    ensures var g := Show(Elapse(Show(h, a, None), d), b, None);
      g.message == Some(b) &&
      Hidden(Elapse(g, ClearDelay - d))
  {
    var s1 := Show(h, a, None);
    assert s1.pending == [h.clock + ClearDelay];
    assert !SomeDue(s1.pending, h.clock + d);
    var g := Show(Elapse(s1, d), b, None);
    assert g.pending[0] == h.clock + ClearDelay;
  }

  /** The provider's state, updated in place; the clock and the pending clears model `setTimeout`. */
  class Provider {
    var hudMessage: Option<string>
    var volumeLevel: Option<real>
    var clock: int
    var pending: seq<int>

    function View(): HudState
      reads this
    {
      HudState(hudMessage, volumeLevel, clock, pending)
    }

    constructor ()
      ensures View() == Initial
    {
      hudMessage, volumeLevel, clock, pending := None, None, 0, [];
    }

    method ShowHUD(message: string, volume: Option<real>)
      modifies this
      ensures View() == Show(old(View()), message, volume)
    {
      hudMessage := Some(message);
      if volume.Some? {
        volumeLevel := volume;
      }
      pending := pending + [clock + ClearDelay];
    }

    /** The timer event: `dt` ms pass and every clear due by then fires. */
    method Tick(dt: nat)
      modifies this
      ensures View() == Elapse(old(View()), dt)
    {
      var t := clock + dt;
      var due, rest := ScanPending(pending, t);
      clock := t;
      if due {
        hudMessage, volumeLevel := None, None;
        pending := rest;
      }
    }
  }

  /** One pass over the scheduled clears: is any due by `t`, and which remain. */
  method ScanPending(pending: seq<int>, t: int) returns (due: bool, rest: seq<int>)
    ensures due == SomeDue(pending, t)
    ensures rest == StillPending(pending, t)
  {
    due, rest := false, [];
    var i := 0;
    while i < |pending|
      invariant 0 <= i <= |pending|
      invariant due <==> SomeDue(pending[..i], t)
      invariant rest == StillPending(pending[..i], t)
    {
      assert pending[..i + 1] == pending[..i] + [pending[i]];
      StillPendingAppend(pending[..i], pending[i], t);
      if pending[i] <= t {
        due := true;
      } else {
        rest := rest + [pending[i]];
      }
      i := i + 1;
    }
    assert pending[..i] == pending;
  }

  lemma {:induction false} StillPendingAppend(ps: seq<int>, x: int, t: int)
    ensures StillPending(ps + [x], t) == StillPending(ps, t) + (if x > t then [x] else [])
  {
    if ps == [] {
      assert [x][1..] == [];
    } else {
      assert (ps + [x])[1..] == ps[1..] + [x];
      StillPendingAppend(ps[1..], x, t);
    }
  }
}
