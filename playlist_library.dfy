/**
 * The library sidebar: the debounced search over the playlists, the thumbnail
 * play button, the name click that opens a playlist, and the playing indicator.
 */
module PlaylistLibrary {
  import opened Wrappers
  import opened Text
  import opened Sequences
  import opened Catalog
  import Utils
  import AudioProvider
  import PlaylistDisplay

  // ------------------------------------------------------------------ parseInt

  /** The characters `parseInt` skips before the number: ECMAScript white space and line terminators. */
  predicate IsJsSpace(c: char)
  {
    c == '\t' || c == '\n' || c == '\U{000B}' || c == '\U{000C}' || c == '\r' || c == ' ' ||
    c == '\U{00A0}' || c == '\U{1680}' || ('\U{2000}' <= c <= '\U{200A}') ||
    c == '\U{2028}' || c == '\U{2029}' || c == '\U{202F}' || c == '\U{205F}' ||
    c == '\U{3000}' || c == '\U{FEFF}'
  }

  /** The string without its leading white space. */
  function TrimStart(s: string): (r: string)
    ensures |r| <= |s|
    ensures r == [] || !IsJsSpace(r[0])
  {
    if s != [] && IsJsSpace(s[0]) then TrimStart(s[1..]) else s
  }

  /** Trimming removes a prefix made only of white space and keeps the rest as it was. */
  lemma {:induction false} TrimStartSkipsSpace(s: string)
    ensures var r := TrimStart(s);
      r == s[|s| - |r|..] && forall i :: 0 <= i < |s| - |r| ==> IsJsSpace(s[i])
  {
    if s != [] && IsJsSpace(s[0]) {
      TrimStartSkipsSpace(s[1..]);
    }
  }

  /** A digit of base 10 or base 16 (either case of letter). */
  predicate IsRadixDigit(c: char, hex: bool)
  {
    IsDigit(c) || (hex && (('a' <= c <= 'f') || ('A' <= c <= 'F')))
  }

  function RadixDigitValue(c: char, hex: bool): (d: nat)
    requires IsRadixDigit(c, hex)
    ensures d < (if hex then 16 else 10)
  {
    if IsDigit(c) then DigitValue(c)
    else if 'a' <= c <= 'f' then c as int - 'a' as int + 10
    else c as int - 'A' as int + 10
  }

  /** The longest prefix made of digits of the base. */
  function DigitPrefix(s: string, hex: bool): (r: string)
    ensures |r| <= |s| && r == s[..|r|]
    ensures forall i :: 0 <= i < |r| ==> IsRadixDigit(r[i], hex)
    ensures |r| < |s| ==> !IsRadixDigit(s[|r|], hex)
  {
    if s != [] && IsRadixDigit(s[0], hex) then [s[0]] + DigitPrefix(s[1..], hex) else []
  }

  /** The number a string of base-10 or base-16 digits denotes, most significant first. */
  function RadixValue(s: string, hex: bool): nat
    requires forall i :: 0 <= i < |s| ==> IsRadixDigit(s[i], hex)
  {
    if s == [] then 0
    else RadixValue(s[..|s| - 1], hex) * (if hex then 16 else 10) + RadixDigitValue(s[|s| - 1], hex)
  }

  /** The value of the leading digits of the base, or `None` when there is no digit. */
  function LeadingValue(s: string, hex: bool): (r: Option<nat>)
    ensures r.None? <==> DigitPrefix(s, hex) == []
  {
    var digits := DigitPrefix(s, hex);
    if digits == [] then None else Some(RadixValue(digits, hex))
  }

  /** "0x" or "0X": the number that follows is read in base 16. */
  predicate HasHexPrefix(u: string)
  {
    |u| >= 2 && u[0] == '0' && (u[1] == 'x' || u[1] == 'X')
  }

  /** The unsigned part: base 16 after a hex prefix, base 10 otherwise. */
  function ParseUnsigned(u: string): Option<nat>
  {
    if HasHexPrefix(u) then LeadingValue(u[2..], true) else LeadingValue(u, false)
  }

  function Negated(o: Option<nat>): (r: Option<int>)
    ensures r.None? <==> o.None?
    ensures o.Some? ==> r.value == 0 - o.value as int
  {
    if o.None? then None else var n: int := o.value; Some(-n)
  }

  /** One optional sign, then the unsigned part. */
  function ParseSigned(t: string): (r: Option<int>)
    ensures r.None? <==> ParseUnsigned(if t != [] && (t[0] == '-' || t[0] == '+') then t[1..] else t).None?
  {
    if t != [] && t[0] == '-' then
      Negated(ParseUnsigned(t[1..]))
    else if t != [] && t[0] == '+' then ParseUnsigned(t[1..])
    else ParseUnsigned(t)
  }

  /**
   * `parseInt(s)` with no radix: skip white space, read one sign, switch to base 16
   * after "0x" or "0X", then read the longest run of digits; no digit at all is NaN,
   * modelled as `None`.
   */
  function ParseInt(s: string): (r: Option<int>)
    ensures r.Some? ==> exists k :: 0 <= k < |s| && IsDigit(s[k])
  {
    TrimStartSkipsSpace(s);
    ParseSigned(TrimStart(s))
  }

  lemma {:induction false} RadixValueDecimal(s: string)
    requires AllDigits(s)
    ensures RadixValue(s, false) == DecimalValue(s)
  {
    if s != [] {
      RadixValueDecimal(s[..|s| - 1]);
    }
  }

  lemma {:induction false} DigitPrefixStops(d: string, t: string)
    requires AllDigits(d) && (t == [] || !IsDigit(t[0]))
    ensures DigitPrefix(d + t, false) == d
  {
    if d != [] {
      assert (d + t)[1..] == d[1..] + t;
      DigitPrefixStops(d[1..], t);
      assert d == [d[0]] + d[1..];
    }
  }

  /** The digits of `n`, then text that does not continue them, read back as `n`. */
  lemma {:induction false} ParseUnsignedReadsNat(n: nat, t: string)
    requires t == [] || (!IsDigit(t[0]) && (n == 0 ==> t[0] != 'x' && t[0] != 'X'))
    ensures ParseUnsigned(NatToString(n) + t) == Some(n)
  {
    var d := NatToString(n);
    DigitPrefixStops(d, t);
    RadixValueDecimal(d);
    NatToStringRoundTrip(n);
    if |d| >= 2 {
      assert (d + t)[1] == d[1];
    } else if t != [] {
      assert (d + t)[1] == t[0];
    }
    assert !HasHexPrefix(d + t);
  }

  /** Text that does not start with white space is not trimmed. */
  lemma TrimStartKeeps(s: string)
    requires s != [] && !IsJsSpace(s[0])
    ensures TrimStart(s) == s
  {
  }

  /** After the sign, a negative number's digits are read as for its magnitude. */
  lemma ParseSignedMinus(u: string)
    ensures ParseSigned("-" + u) == Negated(ParseUnsigned(u))
  {
    assert ("-" + u)[1..] == u;
  }

  /** Without a sign the digits of `n` are read as `n`. */
  lemma ParseSignedReadsNat(n: nat, t: string)
    requires t == [] || (!IsDigit(t[0]) && (n == 0 ==> t[0] != 'x' && t[0] != 'X'))
    ensures ParseSigned(NatToString(n) + t) == Some(n)
  {
    ParseUnsignedReadsNat(n, t);
    assert IsDigit((NatToString(n) + t)[0]);
  }

  /** A non-negative number's text, followed by text that does not continue it. */
  lemma {:induction false} ParseIntReadsNat(n: nat, t: string)
    requires t == [] || (!IsDigit(t[0]) && (n == 0 ==> t[0] != 'x' && t[0] != 'X'))
    ensures ParseInt(NatToString(n) + t) == Some(n)
  {
    var u := NatToString(n) + t;
    ParseSignedReadsNat(n, t);
    assert IsDigit(u[0]);
    TrimStartKeeps(u);
  }

  /** A negative number's text: a minus sign, then the text of its magnitude. */
  lemma {:induction false} ParseIntReadsNegative(n: nat, t: string)
    requires t == [] || !IsDigit(t[0])
    requires n > 0
    ensures ParseInt("-" + (NatToString(n) + t)) == Some(-(n as int))
  {
    var u := NatToString(n) + t;
    ParseUnsignedReadsNat(n, t);
    ParseSignedMinus(u);
    TrimStartKeeps("-" + u);
  }

  /**
   * `parseInt` reads back what `toString` writes, whatever non-digit text follows
   * (except an "x" right after a lone "0", which switches to base 16).
   */
  lemma {:induction false} ParseIntReadsToString(i: int, t: string)
    requires t == [] || (!IsDigit(t[0]) && (i == 0 ==> t[0] != 'x' && t[0] != 'X'))
    ensures ParseInt(IntToString(i) + t) == Some(i)
  {
    if i < 0 {
      var n: nat := -i;
      assert IntToString(i) + t == "-" + (NatToString(n) + t);
      ParseIntReadsNegative(n, t);
    } else {
      ParseIntReadsNat(i, t);
    }
  }

  /** "0x" switches to base 16, with digits in either case. */
  lemma ParseIntHex()
    ensures ParseInt("0x1F") == Some(31)
  {
    TrimStartKeeps("0x1F");
    assert HasHexPrefix("0x1F") && "0x1F"[2..] == "1F";
    assert DigitPrefix("1F"[1..], true) == "F";
    assert DigitPrefix("1F", true) == "1F";
    assert "1F"[..1] == "1";
    assert RadixValue("1F", true) == 31;
  }

  /** A hex prefix with no digit after it is NaN. */
  lemma ParseIntBareHexPrefix()
    ensures ParseInt("0x") == None
  {
    TrimStartKeeps("0x");
    assert HasHexPrefix("0x") && "0x"[2..] == [];
    assert ParseUnsigned("0x") == None;
  }

  /** Text with no leading digit, the empty string included, is NaN. */
  lemma ParseIntNoDigits()
    ensures ParseInt("rock") == None
    ensures ParseInt("") == None
  {
    TrimStartKeeps("rock");
    assert !HasHexPrefix("rock");
    assert DigitPrefix("rock", false) == [];
    assert ParseUnsigned("rock") == None;
    assert ParseUnsigned("") == None;
  }

  /** Leading space and a sign are read, and the text after the digits is ignored. */
  lemma ParseIntPrefix()
    ensures ParseInt(" -7 songs") == Some(-7)
  {
    assert " -7 songs"[1..] == "-7 songs";
    TrimStartKeeps("-7 songs");
    assert TrimStart(" -7 songs") == "-7 songs";
    ParseSignedMinus("7 songs");
    assert "-7 songs" == "-" + "7 songs";
    assert DigitPrefix("7 songs"[1..], false) == [];
    assert DigitPrefix("7 songs", false) == "7";
    assert RadixValue("7", false) == 7;
  }

  // ------------------------------------------------------------------- search

  /**
   * The search predicate on one playlist: its lower-cased name contains the
   * lower-cased query, or some track's name does, or its track count equals
   * `parseInt(query)`.
   */
  predicate Keep(p: Playlist, query: string)
  {
    Contains(Lower(p.name), Lower(query)) ||
    (exists j :: 0 <= j < |p.tracks| && Contains(Lower(p.tracks[j].name), Lower(query))) ||
    ParseInt(query) == Some(|p.tracks|)
  }

  /** `playlists.filter(...)` with the search predicate. */
  function Filter(playlists: seq<Playlist>, query: string): (r: seq<Playlist>)
    ensures |r| <= |playlists|
  {
    if playlists == [] then []
    else (if Keep(playlists[0], query) then [playlists[0]] else []) + Filter(playlists[1..], query)
  }

  /** `filterPlaylists`: the query is cleaned first, then the full list is filtered. */
  function FilterPlaylists(playlists: seq<Playlist>, query: string, encodeHTML: string -> string): seq<Playlist>
  {
    Filter(playlists, Utils.CleanInput(query, encodeHTML))
  }

  /** The result keeps the original order: it is the full list with some playlists deleted. */
  lemma {:induction false} FilterIsSubsequence(playlists: seq<Playlist>, query: string)
    ensures IsSubsequence(Filter(playlists, query), playlists)
  {
    if playlists != [] {
      FilterIsSubsequence(playlists[1..], query);
      var rest := Filter(playlists[1..], query);
      assert playlists == [playlists[0]] + playlists[1..];
      if Keep(playlists[0], query) {
        assert ([playlists[0]] + rest)[1..] == rest;
      } else {
        assert Filter(playlists, query) == rest;
        SubsequenceSkip(rest, playlists[1..], playlists[0]);
      }
    }
  }

  /** A playlist is in the result exactly when it is in the list and matches the query. */
  lemma {:induction false} FilterMembership(playlists: seq<Playlist>, query: string, p: Playlist)
    ensures p in Filter(playlists, query) <==> p in playlists && Keep(p, query)
  {
    if playlists != [] {
      FilterMembership(playlists[1..], query, p);
      assert playlists == [playlists[0]] + playlists[1..];
    }
  }

  /** The empty query is contained in every name, so it keeps every playlist. */
  lemma {:induction false} EmptyQueryKeepsAll(playlists: seq<Playlist>)
    ensures Filter(playlists, "") == playlists
  {
    if playlists != [] {
      ContainsEmpty(Lower(playlists[0].name));
      EmptyQueryKeepsAll(playlists[1..]);
    }
  }

  /**
   * A query that cleans to "" makes the early `setCopyOfPlaylists([...playlists])`
   * and the filtered list that replaces it the same list.
   */
  lemma BlankQueryShowsFullList(playlists: seq<Playlist>, query: string, encodeHTML: string -> string)
    requires Utils.StripUnwanted(query) == ""
    ensures FilterPlaylists(playlists, query, encodeHTML) == playlists
  {
    EmptyQueryKeepsAll(playlists);
  }

  /** Typing a playlist's track count finds it. */
  lemma TrackCountFindsPlaylist(p: Playlist)
    ensures Keep(p, NatToString(|p.tracks|))
  {
    ParseIntReadsToString(|p.tracks|, "");
    assert IntToString(|p.tracks|) + "" == NatToString(|p.tracks|);
  }

  // ------------------------------------------------------- the debounced search

  /** Milliseconds between the last keystroke and the search. */
  const DebounceDelay := 500

  /** The sidebar's search state, with the clock and the one armed debounce timer. */
  datatype SearchView = SearchView(
    copyOfPlaylists: seq<Playlist>,
    searchQuery: string,
    clock: int,
    debounceDue: Option<int>)

  const InitialSearch := SearchView([], "", 0, None)

  /** The effect on `playlists`: the shown list becomes a copy of the full list. */
  function SyncCopy(v: SearchView, playlists: seq<Playlist>): SearchView
  {
    v.(copyOfPlaylists := playlists)
  }

  /** A keystroke: the armed timer, if any, is cleared and a new one is set. */
  function Input(v: SearchView): SearchView
  {
    v.(debounceDue := Some(v.clock + DebounceDelay))
  }

  /**
   * `dt` milliseconds pass. When the timer comes due it reads the input box's value
   * at that moment, filters the full list with it and stores it as the search query.
   */
  function Elapse(v: SearchView, dt: nat, playlists: seq<Playlist>, inputValue: string,
                  encodeHTML: string -> string): (r: SearchView)
    ensures r.clock == v.clock + dt
    ensures v.debounceDue.Some? && v.debounceDue.value <= r.clock ==>
      r.debounceDue.None? && r.searchQuery == inputValue &&
      IsSubsequence(r.copyOfPlaylists, playlists)
    ensures !(v.debounceDue.Some? && v.debounceDue.value <= r.clock) ==> r.(clock := v.clock) == v
  {
    FilterIsSubsequence(playlists, Utils.CleanInput(inputValue, encodeHTML));
    var now := v.clock + dt;
    if v.debounceDue.Some? && v.debounceDue.value <= now then
      SearchView(FilterPlaylists(playlists, inputValue, encodeHTML), inputValue, now, None)
    else
      v.(clock := now)
  }

  /** The "Couldn't find" message: a search was made and nothing is listed. */
  predicate ShowsNotFound(v: SearchView)
  {
    v.searchQuery != "" && |v.copyOfPlaylists| == 0
  }

  /** The search runs a full delay after the keystroke, not before. */
  lemma InputWaitsForDelay(v: SearchView, dt: nat, playlists: seq<Playlist>, inputValue: string,
                           encodeHTML: string -> string)
    ensures dt < DebounceDelay ==>
      Elapse(Input(v), dt, playlists, inputValue, encodeHTML).copyOfPlaylists == v.copyOfPlaylists
    ensures dt >= DebounceDelay ==>
      Elapse(Input(v), dt, playlists, inputValue, encodeHTML).copyOfPlaylists
        == FilterPlaylists(playlists, inputValue, encodeHTML)
  {
  }

  /** A second keystroke within the delay cancels the first search: it never runs on its own. */
  lemma RetypingCancelsEarlierSearch(v: SearchView, d: nat, dt: nat, playlists: seq<Playlist>,
                                     inputValue: string, encodeHTML: string -> string)
    requires d < DebounceDelay && dt < DebounceDelay
    ensures var w := Input(Elapse(Input(v), d, playlists, inputValue, encodeHTML));
      Elapse(w, dt, playlists, inputValue, encodeHTML).copyOfPlaylists == v.copyOfPlaylists &&
      Elapse(w, dt, playlists, inputValue, encodeHTML).searchQuery == v.searchQuery
  {
  }

  /**
   * A search starts from the full list, never from the list shown before, so
   * successive searches do not compound: the result is the same whatever was shown.
   */
  lemma SearchesDoNotCompound(v: SearchView, w: SearchView, dt: nat, playlists: seq<Playlist>,
                              inputValue: string, encodeHTML: string -> string)
    requires v.debounceDue.Some? && v.debounceDue.value <= v.clock + dt
    requires w.debounceDue.Some? && w.debounceDue.value <= w.clock + dt
    ensures Elapse(v, dt, playlists, inputValue, encodeHTML).copyOfPlaylists
         == Elapse(w, dt, playlists, inputValue, encodeHTML).copyOfPlaylists
    ensures IsSubsequence(Elapse(v, dt, playlists, inputValue, encodeHTML).copyOfPlaylists, playlists)
  {
    FilterIsSubsequence(playlists, Utils.CleanInput(inputValue, encodeHTML));
  }

  /** The sidebar's search state as the component holds it. */
  class Library {
    var copyOfPlaylists: seq<Playlist>
    var searchQuery: string
    var clock: int
    var debounceDue: Option<int>

    function View(): SearchView
      reads this
    {
      SearchView(copyOfPlaylists, searchQuery, clock, debounceDue)
    }

    constructor ()
      ensures View() == InitialSearch
    {
      copyOfPlaylists := [];
      searchQuery := "";
      clock := 0;
      debounceDue := None;
    }

    method OnPlaylistsChanged(playlists: seq<Playlist>)
      modifies this
      ensures View() == SyncCopy(old(View()), playlists)
    {
      copyOfPlaylists := playlists;
    }

    method OnInput()
      modifies this
      ensures View() == Input(old(View()))
    {
      debounceDue := Some(clock + DebounceDelay);
    }

    method Tick(dt: nat, playlists: seq<Playlist>, inputValue: string, encodeHTML: string -> string)
      modifies this
      ensures View() == Elapse(old(View()), dt, playlists, inputValue, encodeHTML)
    {
      clock := clock + dt;
      if debounceDue.Some? && debounceDue.value <= clock {
        copyOfPlaylists := FilterPlaylists(playlists, inputValue, encodeHTML);
        searchQuery := inputValue;
        debounceDue := None;
      }
    }
  }

  // --------------------------------------------------- thumbnail and indicator

  /** The bell and the pause icon: the playlist holds a track named like the selected one, and it plays. */
  predicate PlaylistIsPlaying(playlist: Playlist, selected: Option<Track>)
  {
    selected.Some? && selected.value.isPlaying && HasTrackNamed(playlist.tracks, selected)
  }

  /**
   * The thumbnail button: nothing without a selected track; a toggle when the
   * playlist holds a track of that name; otherwise its first track, playing.
   */
  function ThumbnailClick(playlist: Playlist, selected: Option<Track>): (r: Option<Track>)
    requires selected.None? || |playlist.tracks| > 0
    ensures selected.None? ==> r.None?
    ensures selected.Some? ==> HasTrackNamed(playlist.tracks, r)
  {
    if selected.None? then selected
    else if HasTrackNamed(playlist.tracks, selected) then
      Some(WithPlaying(selected.value, !selected.value.isPlaying))
    else Some(WithPlaying(playlist.tracks[0], true))
  }

  /** The library's indicator lights exactly when one of the playlist's rows would show it. */
  lemma IndicatorMatchesRows(playlist: Playlist, selected: Option<Track>)
    ensures PlaylistIsPlaying(playlist, selected) <==>
      exists j :: 0 <= j < |playlist.tracks| && PlaylistDisplay.RowIsPlaying(playlist.tracks[j], selected)
  {
    if PlaylistIsPlaying(playlist, selected) {
      var j :| 0 <= j < |playlist.tracks| && Some(playlist.tracks[j].name) == NameOf(selected);
      assert PlaylistDisplay.RowIsPlaying(playlist.tracks[j], selected);
    }
  }

  /**
   * The thumbnail does what the open playlist's big button does, except that it
   * does nothing at all when no track is selected.
   */
  lemma ThumbnailMatchesPlayButton(playlist: Playlist, selected: Option<Track>)
    requires |playlist.tracks| > 0
    ensures selected.None? ==> ThumbnailClick(playlist, selected) == None
    ensures selected.Some? ==>
      ThumbnailClick(playlist, selected) == PlaylistDisplay.PlayButtonClick(playlist, selected)
  {
  }

  /**
   * With a track selected, a thumbnail click flips that playlist's indicator when
   * it holds the track, and otherwise lights it.
   */
  lemma ThumbnailFlipsIndicator(playlist: Playlist, selected: Option<Track>)
    requires selected.Some? && |playlist.tracks| > 0
    ensures HasTrackNamed(playlist.tracks, selected) ==>
      (PlaylistIsPlaying(playlist, ThumbnailClick(playlist, selected)) <==> !PlaylistIsPlaying(playlist, selected))
    ensures !HasTrackNamed(playlist.tracks, selected) ==>
      PlaylistIsPlaying(playlist, ThumbnailClick(playlist, selected))
  {
    if !HasTrackNamed(playlist.tracks, selected) {
      assert Some(playlist.tracks[0].name) == NameOf(ThumbnailClick(playlist, selected));
    }
  }

  /** Clicking a playlist's name opens it and leaves the selected track as it was. */
  lemma NameClickKeepsTrack(v: AudioProvider.PlaybackView, playlist: Playlist)
    ensures AudioProvider.SetSelectedPlaylist(v, Some(playlist)).selectedPlaylist == Some(playlist)
    ensures AudioProvider.SetSelectedPlaylist(v, Some(playlist)).selectedTrack == v.selectedTrack
  {
  }

  method ClickThumbnail(pb: AudioProvider.PlaybackState, playlist: Playlist)
    requires pb.selectedTrack.None? || |playlist.tracks| > 0
    modifies pb
    ensures pb.View() == AudioProvider.SetSelectedTrack(old(pb.View()), ThumbnailClick(playlist, old(pb.selectedTrack)))
  {
    var selected := pb.selectedTrack;
    if selected.None? {
      return;
    }
    if IndexByName(playlist.tracks, NameOf(selected)) >= 0 {
      pb.SelectTrack(Some(WithPlaying(selected.value, !selected.value.isPlaying)));
    } else {
      pb.SelectTrack(Some(WithPlaying(playlist.tracks[0], true)));
    }
  }

  method ClickName(pb: AudioProvider.PlaybackState, playlist: Playlist)
    modifies pb
    ensures pb.View() == AudioProvider.SetSelectedPlaylist(old(pb.View()), Some(playlist))
  {
    pb.SelectPlaylist(Some(playlist));
  }
}
