/**
 * String and time helpers: stripping quote characters from a search query,
 * cleaning it, and splitting or formatting a number of seconds.
 */
module Utils {
  import opened Wrappers
  import opened Text
  import opened Sequences

  /** The entries removed from a query: two plain double quotes and the three-character mojibake "â€œ". */
  const UnwantedCharacters: seq<string> := ["\"", "\"", "\U{E2}\U{20AC}\U{153}"]

  /** `unwantedCharacters.includes(l)` for one character `l` of the split string. */
  predicate IsUnwanted(c: char)
  {
    [c] in UnwantedCharacters
  }

  /** Only the double quote is ever removed: the three-character entry cannot equal one character. */
  lemma OnlyQuoteIsUnwanted(c: char)
    ensures IsUnwanted(c) <==> c == '"'
  {
    assert |UnwantedCharacters[2]| == 3;
  }

  /** `s.split("").filter(l => !unwantedCharacters.includes(l)).join("")`. */
  function StripUnwanted(s: string): (r: string)
    ensures |r| <= |s|
    ensures forall i :: 0 <= i < |r| ==> !IsUnwanted(r[i])
  {
    if s == [] then []
    else (if IsUnwanted(s[0]) then [] else [s[0]]) + StripUnwanted(s[1..])
  }

  /** `removeUnwantedCharacters`: undefined for undefined or empty input, otherwise the filtered text. */
  function RemoveUnwantedCharacters(s: Option<string>): (r: Option<string>)
    ensures r.None? <==> s.None? || s.value == ""
    ensures r.Some? ==> r.value == StripUnwanted(s.value)
  {
    if s.None? || s.value == "" then None else Some(StripUnwanted(s.value))
  }

  /** The filter deletes exactly the double quotes and keeps everything else in order. */
  lemma {:induction false} StripUnwantedKeepsOrder(s: string)
    ensures IsSubsequence(StripUnwanted(s), s)
    ensures forall i :: 0 <= i < |StripUnwanted(s)| ==> StripUnwanted(s)[i] != '"'
    ensures multiset(StripUnwanted(s)) == multiset(s)[ '"' := 0 ]
  {
    if s != [] {
      StripUnwantedKeepsOrder(s[1..]);
      OnlyQuoteIsUnwanted(s[0]);
      assert s == [s[0]] + s[1..];
      var r := StripUnwanted(s[1..]);
      if IsUnwanted(s[0]) {
        assert StripUnwanted(s) == r;
        SubsequenceSkip(r, s[1..], s[0]);
      } else {
        assert StripUnwanted(s) == [s[0]] + r;
        assert ([s[0]] + r)[1..] == r;
      }
      forall i | 0 <= i < |StripUnwanted(s)| ensures StripUnwanted(s)[i] != '"' {
        OnlyQuoteIsUnwanted(StripUnwanted(s)[i]);
      }
    }
  }

  /** Filtering twice removes nothing more than filtering once. */
  lemma {:induction false} StripUnwantedIdempotent(s: string)
    ensures StripUnwanted(StripUnwanted(s)) == StripUnwanted(s)
  {
    if s != [] {
      StripUnwantedIdempotent(s[1..]);
      var r := StripUnwanted(s[1..]);
      if !IsUnwanted(s[0]) {
        var t := [s[0]] + r;
        assert StripUnwanted(s) == t;
        assert t[0] == s[0] && t[1..] == r;
        assert StripUnwanted(t) == [s[0]] + StripUnwanted(r);
      } else {
        assert StripUnwanted(s) == r;
      }
    }
  }

  /**
   * Applying `removeUnwantedCharacters` to its own result changes nothing, except that an
   * input made only of double quotes first yields "" and then undefined.
   */
  lemma RemoveUnwantedCharactersTwice(s: Option<string>)
    ensures var once := RemoveUnwantedCharacters(s);
      once.Some? && once.value != "" ==> RemoveUnwantedCharacters(once) == once
    ensures var once := RemoveUnwantedCharacters(s);
      once == Some("") ==> RemoveUnwantedCharacters(once) == None
  {
    if s.Some? { StripUnwantedIdempotent(s.value); }
  }

  /**
   * `cleanInput`: the quote-stripped query passed through the HTML encoder, with ""
   * for an undefined or empty outcome. The encoder (a DOM round trip) is a parameter;
   * like `encodeHTML` it is applied only to a non-empty string.
   */
  function CleanInput(query: string, encodeHTML: string -> string): (r: string)
    ensures StripUnwanted(query) == "" ==> r == ""
    ensures StripUnwanted(query) != "" ==> r == encodeHTML(StripUnwanted(query))
  {
    match RemoveUnwantedCharacters(Some(query))
    case None => ""
    case Some(stripped) => if stripped == "" then "" else encodeHTML(stripped)
  }

  /** With an encoder that leaves text alone, a cleaned query never contains a double quote. */
  lemma CleanInputHasNoQuote(query: string)
    ensures var r := CleanInput(query, s => s); forall i :: 0 <= i < |r| ==> r[i] != '"'
  {
    StripUnwantedKeepsOrder(query);
  }

  /** `Math.trunc`: rounding toward zero. */
  function Trunc(x: real): int
  {
    if x >= 0.0 then x.Floor else -((-x).Floor)
  }

  /** JavaScript's `x % y`: the remainder takes the sign of the dividend. */
  function JsRem(x: real, y: real): real
    requires y != 0.0
  {
    x - y * Trunc(x / y) as real
  }

  datatype MinutesSeconds = MinutesSeconds(minutes: int, seconds: real)

  /** `secondsToMinutesSeconds`: `Math.floor(s / 60)` and `s % 60`. */
  function SecondsToMinutesSeconds(s: real): (r: MinutesSeconds)
    ensures s >= 0.0 ==> r.minutes as real * 60.0 + r.seconds == s
    ensures s >= 0.0 ==> 0.0 <= r.seconds < 60.0
  {
    MinutesSeconds((s / 60.0).Floor, JsRem(s, 60.0))
  }

  /** For a negative input that is not a multiple of 60 the two fields do not add back up. */
  lemma SecondsToMinutesSecondsNegative()
    ensures SecondsToMinutesSeconds(-30.0) == MinutesSeconds(-1, -30.0)
  {
    assert (-30.0 / 60.0).Floor == -1;
    assert Trunc(-30.0 / 60.0) == 0;
  }

  /** `str.padStart(2, "0")`. */
  function PadStart2(str: string): (r: string)
    ensures |str| >= 2 ==> r == str
    ensures |str| < 2 ==> |r| == 2 && r[2 - |str|..] == str
    ensures |str| < 2 ==> forall k :: 0 <= k < 2 - |str| ==> r[k] == '0'
  {
    if |str| >= 2 then str else seq(2 - |str|, _ => '0') + str
  }

  /** `formatTime`: minutes, a colon and the whole seconds padded to two digits, as in "4:26". */
  function FormatTime(seconds: real): (r: string)
    ensures |r| >= 4
  {
    var mins := (seconds / 60.0).Floor;
    var secs := JsRem(seconds, 60.0).Floor;
    var m := IntToString(mins);
    assert (m + ":" + PadStart2(IntToString(secs)))[|m|] == ':';
    m + ":" + PadStart2(IntToString(secs))
  }

  /** For a whole number `n` and a real `x`, `n <= x < n + 1` pins `n` as the floor of `x`. */
  lemma FloorUnique(x: real, n: int)
    requires n as real <= x < n as real + 1.0
    ensures x.Floor == n
  {
  }

  /**
   * For a non-negative time, the text is decimal minutes, ':' and exactly two second
   * digits below 60, and reading those fields back gives the whole seconds of the input.
   */
  lemma FormatTimeReadsBack(seconds: real)
    requires seconds >= 0.0
    ensures var str := FormatTime(seconds); var k := |str|;
      k >= 4 && str[k - 3] == ':' && AllDigits(str[..k - 3]) &&
      IsDigit(str[k - 2]) && IsDigit(str[k - 1]) &&
      DigitValue(str[k - 2]) * 10 + DigitValue(str[k - 1]) < 60 &&
      DecimalValue(str[..k - 3]) * 60 + DigitValue(str[k - 2]) * 10 + DigitValue(str[k - 1])
        == seconds.Floor
  {
    var mins := (seconds / 60.0).Floor;
    var rem := JsRem(seconds, 60.0);
    var secs := rem.Floor;
    assert Trunc(seconds / 60.0) == mins;
    assert mins >= 0;
    assert 0.0 <= rem < 60.0;
    assert 0 <= secs < 60;
    FloorUnique(seconds, mins * 60 + secs);
    var ms := NatToString(mins);
    var ss := NatToString(secs);
    NatToStringRoundTrip(mins);
    var two: string;
    if secs < 10 {
      two := ['0', DigitChar(secs)];
      assert PadStart2(ss) == two;
    } else {
      two := [DigitChar(secs / 10), DigitChar(secs % 10)];
      assert ss == NatToString(secs / 10) + [DigitChar(secs % 10)];
      assert PadStart2(ss) == two;
    }
    var str := ms + ":" + two;
    assert FormatTime(seconds) == str;
    assert str[..|str| - 3] == ms;
  }
}
