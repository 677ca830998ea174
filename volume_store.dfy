/**
 * The volume store: the current volume, the volume to come back to after
 * unmuting, and the mute flag, with a clamping setter and a mute toggle.
 */
module VolumeStore {

  /** `Math.max(0, Math.min(1, v))`. */
  function Clamp01(v: real): (r: real)
    ensures 0.0 <= r <= 1.0
    ensures 0.0 <= v <= 1.0 ==> r == v
    ensures v < 0.0 ==> r == 0.0
    ensures v > 1.0 ==> r == 1.0
  {
    if v < 0.0 then 0.0 else if v > 1.0 then 1.0 else v
  }

  datatype VolumeState = VolumeState(volume: real, unmuteVolume: real, isMuted: bool)

  /** The store's state when the provider mounts. */
  const Initial := VolumeState(1.0, 1.0, false)

  /** The store's invariant: volumes in range, something to unmute to, and muted exactly at zero. */
  predicate Valid(s: VolumeState)
  {
    0.0 <= s.volume <= 1.0 && 0.0 < s.unmuteVolume <= 1.0 && (s.isMuted <==> s.volume == 0.0)
  }

  /** `handleSetVolume(v)`. */
  function SetVolumeSpec(s: VolumeState, v: real): (r: VolumeState)
    ensures r.volume == Clamp01(v)
    ensures r.isMuted <==> r.volume == 0.0
    ensures r.unmuteVolume == (if r.volume > 0.0 then r.volume else s.unmuteVolume)
  {
    var clamped := Clamp01(v);
    if clamped > 0.0 then VolumeState(clamped, clamped, false)
    else s.(volume := clamped, isMuted := true)
  }

  /** `toggleMute()`: the new state and the returned new mute flag. */
  function ToggleMuteSpec(s: VolumeState): (r: (VolumeState, bool))
    ensures r.1 == !s.isMuted && r.0.isMuted == r.1
    ensures !s.isMuted ==> r.0.volume == 0.0 && r.0.unmuteVolume == s.volume
    ensures s.isMuted ==> r.0.unmuteVolume == s.unmuteVolume && r.0.volume != 0.0
  {
    if s.isMuted then
      (s.(volume := if s.unmuteVolume == 0.0 then 1.0 else s.unmuteVolume, isMuted := false), false)
    else
      (s.(unmuteVolume := s.volume, volume := 0.0, isMuted := true), true)
  }

  lemma InitialValid()
    ensures Valid(Initial)
  {
  }

  /** Whatever is asked for, the stored volume lies in [0,1] and mute holds exactly at zero. */
  lemma SetVolumeClamps(s: VolumeState, v: real)
    ensures var t := SetVolumeSpec(s, v);
      t.volume == Clamp01(v) && (t.isMuted <==> t.volume == 0.0)
    ensures var t := SetVolumeSpec(s, v);
      (t.volume > 0.0 ==> t.unmuteVolume == t.volume) &&
      (t.volume == 0.0 ==> t.unmuteVolume == s.unmuteVolume)
  {
  }

  lemma SetVolumePreservesValid(s: VolumeState, v: real)
    requires Valid(s)
    ensures Valid(SetVolumeSpec(s, v))
  {
  }

  /** Muting saves the volume, silences and reports true; unmuting restores and reports false. */
  lemma ToggleMuteEffect(s: VolumeState)
    ensures var (t, nowMuted) := ToggleMuteSpec(s);
      nowMuted == t.isMuted && nowMuted == !s.isMuted
    ensures var (t, nowMuted) := ToggleMuteSpec(s);
      !s.isMuted ==> t == VolumeState(0.0, s.volume, true)
    ensures var (t, nowMuted) := ToggleMuteSpec(s);
      s.isMuted ==> t == VolumeState(if s.unmuteVolume == 0.0 then 1.0 else s.unmuteVolume, s.unmuteVolume, false)
  {
  }

  lemma ToggleMutePreservesValid(s: VolumeState)
    requires Valid(s)
    ensures Valid(ToggleMuteSpec(s).0)
  {
  }

  /** Two toggles with no `setVolume` between them give back the volume and the mute flag. */
  lemma ToggleMuteTwice(s: VolumeState)
    requires Valid(s)
    ensures var t := ToggleMuteSpec(ToggleMuteSpec(s).0).0;
      t.volume == s.volume && t.isMuted == s.isMuted
    ensures var (t, m1) := ToggleMuteSpec(s); var (u, m2) := ToggleMuteSpec(t); m2 == !m1
  {
  }

  /** Operations a user can trigger on the store. */
  datatype Op = Set(v: real) | Toggle

  function Apply(s: VolumeState, op: Op): VolumeState
  {
    match op
    case Set(v) => SetVolumeSpec(s, v)
    case Toggle => ToggleMuteSpec(s).0
  }

  function Run(s: VolumeState, ops: seq<Op>): VolumeState
    decreases |ops|
  {
    if ops == [] then s else Run(Apply(s, ops[0]), ops[1..])
  }

  /** From the initial state, every sequence of operations keeps the invariant. */
  lemma {:induction false} RunKeepsValid(s: VolumeState, ops: seq<Op>)
    requires Valid(s)
    ensures Valid(Run(s, ops))
    decreases |ops|
  {
    if ops != [] {
      match ops[0] {
        case Set(v) => SetVolumePreservesValid(s, v);
        case Toggle => ToggleMutePreservesValid(s);
      }
      RunKeepsValid(Apply(s, ops[0]), ops[1..]);
    }
  }

  lemma ReachableValid(ops: seq<Op>)
    ensures Valid(Run(Initial, ops))
  {
    RunKeepsValid(Initial, ops);
  }

  /** The store as the provider holds it: three state fields updated in place. */
  class Store {
    var volume: real
    var unmuteVolume: real
    var isMuted: bool

    function View(): VolumeState
      reads this
    {
      VolumeState(volume, unmuteVolume, isMuted)
    }

    constructor ()
      ensures View() == Initial && Valid(View())
    {
      volume, unmuteVolume, isMuted := 1.0, 1.0, false;
    }

    method SetVolume(v: real)
      modifies this
      ensures View() == SetVolumeSpec(old(View()), v)
      ensures old(Valid(View())) ==> Valid(View())
    {
      var clamped := if v < 0.0 then 0.0 else if v > 1.0 then 1.0 else v;
      volume := clamped;
      if clamped > 0.0 {
        unmuteVolume := clamped;
        isMuted := false;
      } else {
        isMuted := true;
      }
      if Valid(old(View())) { SetVolumePreservesValid(old(View()), v); }
    }

    method ToggleMute() returns (nowMuted: bool)
      modifies this
      ensures (View(), nowMuted) == ToggleMuteSpec(old(View()))
      ensures old(Valid(View())) ==> Valid(View())
    {
      if isMuted {
        volume := if unmuteVolume == 0.0 then 1.0 else unmuteVolume;
        isMuted := false;
        nowMuted := false;
      } else {
        unmuteVolume := volume;
        volume := 0.0;
        isMuted := true;
        nowMuted := true;
      }
      if Valid(old(View())) { ToggleMutePreservesValid(old(View())); }
    }
  }
}
