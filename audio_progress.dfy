/**
 * The progress bar: the elapsed time and duration it shows, the clamped fill
 * percentage, the slider that seeks, and the once-a-second poll while playing.
 */
module AudioProgress {
  import opened Wrappers
  import opened Catalog

  function Max(a: real, b: real): (r: real)
    ensures r >= a && r >= b && (r == a || r == b)
  {
    if a >= b then a else b
  }

  function Min(a: real, b: real): (r: real)
    ensures r <= a && r <= b && (r == a || r == b)
  {
    if a <= b then a else b
  }

  /**
   * `selectedTrack?.duration || duration`: the track's own duration unless there is
   * no track or it is 0, in which case the duration polled from the element.
   */
  function ShownDuration(trackDuration: Option<real>, duration: real): real
  {
    if trackDuration.Some? && trackDuration.value != 0.0 then trackDuration.value else duration
  }

  /** `Math.max(selectedTrack?.duration || duration || 0, 1)`. */
  function SafeDuration(trackDuration: Option<real>, duration: real): (r: real)
    ensures r >= 1.0
  {
    Max(ShownDuration(trackDuration, duration), 1.0)
  }

  /** `Math.min(100, Math.max(0, (currentTime / safeDuration) * 100))`. */
  function Percent(currentTime: real, trackDuration: Option<real>, duration: real): (r: real)
    ensures 0.0 <= r <= 100.0
  {
    Min(100.0, Max(0.0, currentTime / SafeDuration(trackDuration, duration) * 100.0))
  }

  /** The three-way choice: a non-zero track duration, else a non-zero polled one, else 1, never below 1. */
  lemma SafeDurationChoice(trackDuration: Option<real>, duration: real)
    ensures trackDuration.Some? && trackDuration.value != 0.0 ==>
      SafeDuration(trackDuration, duration) == Max(trackDuration.value, 1.0)
    ensures (trackDuration.None? || trackDuration.value == 0.0) && duration != 0.0 ==>
      SafeDuration(trackDuration, duration) == Max(duration, 1.0)
    ensures (trackDuration.None? || trackDuration.value == 0.0) && duration == 0.0 ==>
      SafeDuration(trackDuration, duration) == 1.0
  {
  }

  /** Inside the track the fill is the elapsed share of it; before it 0, past its end 100. */
  lemma PercentValue(currentTime: real, trackDuration: Option<real>, duration: real)
    ensures var d := SafeDuration(trackDuration, duration);
      (0.0 <= currentTime <= d ==> Percent(currentTime, trackDuration, duration) == currentTime / d * 100.0) &&
      (currentTime <= 0.0 ==> Percent(currentTime, trackDuration, duration) == 0.0) &&
      (currentTime >= d ==> Percent(currentTime, trackDuration, duration) == 100.0)
  {
    DivideCompare(currentTime, SafeDuration(trackDuration, duration));
  }

  /** Dividing by a positive duration keeps the comparison with that duration, against 1. */
  lemma DivideCompare(t: real, d: real)
    requires d > 0.0
    ensures t >= d ==> t / d >= 1.0
    ensures t <= d ==> t / d <= 1.0
  {
    var q := t / d;
    assert q * d == t;
    if q < 1.0 {
      assert (1.0 - q) * d > 0.0;
    }
    if q > 1.0 {
      assert (q - 1.0) * d > 0.0;
    }
  }

  /** The fill never moves backwards as the elapsed time grows. */
  lemma PercentMonotone(t1: real, t2: real, trackDuration: Option<real>, duration: real)
    requires t1 <= t2
    ensures Percent(t1, trackDuration, duration) <= Percent(t2, trackDuration, duration)
  {
    var d := SafeDuration(trackDuration, duration);
    assert t1 / d <= t2 / d;
  }

  /** `audio.duration || 0`: NaN (`None`) and 0 both give 0. */
  function PolledDuration(d: Option<real>): (r: real)
    ensures d.None? ==> r == 0.0
    ensures d.Some? ==> r == d.value
  {
    if d.None? || d.value == 0.0 then 0.0 else d.value
  }

  datatype ProgressView = ProgressView(currentTime: real, duration: real)

  const InitialProgress := ProgressView(0.0, 0.0)

  /** A slider change: the shown time takes the slider value; the element seeks to it. */
  function Change(v: ProgressView, e: Option<Element>, value: real): (r: (ProgressView, Option<Element>))
    ensures r.0.currentTime == value && r.0.duration == v.duration
    ensures r.1.Some? <==> e.Some?
    ensures r.1.Some? ==> r.1.value.currentTime == value && r.1.value.(currentTime := e.value.currentTime) == e.value
  {
    (v.(currentTime := value), if e.None? then None else Some(e.value.(currentTime := value)))
  }

  /** One tick of the poll: only set up while playing and only with an element. */
  function Poll(v: ProgressView, e: Option<Element>, isPlaying: bool): (r: ProgressView)
    ensures !(e.Some? && isPlaying) ==> r == v
    ensures e.Some? && isPlaying ==>
      r.currentTime == e.value.currentTime && r.duration == e.value.duration.GetOr(0.0)
  {
    if e.Some? && isPlaying then ProgressView(e.value.currentTime, PolledDuration(e.value.duration))
    else v
  }

  /** After a slider change the bar and the element agree on the time, and nothing else moves. */
  lemma ChangeAgrees(v: ProgressView, e: Option<Element>, value: real)
    ensures Change(v, e, value).0.currentTime == value
    ensures Change(v, e, value).0.duration == v.duration
    ensures e.Some? ==> Change(v, e, value).1 == Some(e.value.(currentTime := value))
    ensures e.None? ==> Change(v, e, value).1 == None
  {
  }

  /** A paused player or a missing element is never polled; a poll copies the element's time. */
  lemma PollEffect(v: ProgressView, e: Option<Element>, isPlaying: bool)
    ensures !isPlaying || e.None? ==> Poll(v, e, isPlaying) == v
    ensures isPlaying && e.Some? ==>
      Poll(v, e, isPlaying).currentTime == e.value.currentTime &&
      (e.value.duration.None? ==> Poll(v, e, isPlaying).duration == 0.0)
  {
  }

  /** A seek followed by a poll while playing leaves the shown time at the slider value. */
  lemma ChangeThenPoll(v: ProgressView, e: Element, value: real)
    ensures var (w, f) := Change(v, Some(e), value);
      Poll(w, f, true).currentTime == value
  {
  }

  /** The bar's state as the component holds it. */
  class Progress {
    var currentTime: real
    var duration: real

    function View(): ProgressView
      reads this
    {
      ProgressView(currentTime, duration)
    }

    constructor ()
      ensures View() == InitialProgress
    {
      currentTime, duration := 0.0, 0.0;
    }

    method HandleChange(audio: MediaElement?, value: real)
      modifies this, audio
      ensures (View(), ViewOf(audio)) == Change(old(View()), old(ViewOf(audio)), value)
    {
      if audio != null {
        audio.currentTime := value;
      }
      currentTime := value;
    }

    method OnInterval(audio: MediaElement?, isPlaying: bool)
      modifies this
      ensures View() == Poll(old(View()), ViewOf(audio), isPlaying)
    {
      if audio != null && isPlaying {
        currentTime := audio.currentTime;
        duration := if audio.duration.None? || audio.duration.value == 0.0 then 0.0 else audio.duration.value;
      }
    }

    /** The fill shown for the selected track's duration. */
    function FillPercent(trackDuration: Option<real>): (r: real)
      reads this
      ensures 0.0 <= r <= 100.0
    {
      Percent(currentTime, trackDuration, duration)
    }
  }
}
