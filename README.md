# Music player playback core in Dafny

This project models the playback-control logic of a React music player, with the
components and hooks left out. The media element is a record of `currentTime`,
`paused`, `volume` and `duration`. The element can also be a small class whose fields
the handlers assign. Randomness is a draw the caller supplies (`pick`). Timers are
explicit events on a millisecond clock.

Modules, following the program's files:

- `Transport` (pure) and `AudioControls` (the `Controller` class) model the player controls:
  - play/pause;
  - next, either in order with wrap-around or shuffled while avoiding the current index;
  - previous: restart past two seconds, else pop the play history, else step back without wrapping;
  - the shuffle and repeat toggles;
  - the effect that mirrors the selected track's flag onto the element;
  - the `ended` handler;
  - the reload the `<audio src>` binding causes: selecting a track with another url puts the element back at 0, paused, with no duration yet;
  - `play()` on an element that has reached its end, which starts it again from 0.
  Tracks are identified by name, as in the program. So a missing name gives index -1, and that index is used as is.
- `VolumeStore` models the volume provider: a clamping setter that remembers the last positive volume, and a mute toggle. Its invariant is that the volume is in [0,1], the unmute volume is in (0,1], and the store is muted exactly when the volume is 0.
- `Shortcuts` models the keyboard hook. A lower-cased key selects one action. The action changes the element, the store or one transport handler, then reports on the HUD. Keys typed into INPUT and TEXTAREA are ignored.
- `Hud` and `HudOverlay` model the heads-up display:
  - `showHUD` sets the message and, when given, the level;
  - each call schedules its own uncancelled clear 1500 ms later;
  - the overlay draws nothing, the volume bar (which wins) or the message.
- `AudioProvider` models the shared selection state: the one-time load of the catalog and the two independent setters.
- `PlaylistDisplay` models the open playlist's big play button, the row clicks, the row's hover play/pause icon (whose click bubbles to the row, so it always acts as a row click) and the per-row playing indicator.
- `PlaylistLibrary` models the sidebar:
  - the debounced search, whose predicate is substring on the lower-cased name, on any track name, or track count equal to `parseInt`;
  - the thumbnail button, the name click and the playlist indicator.
- `Utils` models `removeUnwantedCharacters`, `cleanInput`, `secondsToMinutesSeconds` and `formatTime`. `Text` holds ASCII lower-casing, substring search and decimal digits.
- `AudioProgress` models the progress bar: the safe duration, the clamped percentage, the slider and the poll that runs while playing.
- `Catalog`, `Sequences` and `Wrappers` hold the shared data types and helpers.

## Model

| member | source | states |
|---|---|---|
| Transport.CurrentTrackIndex | src/context/AudioControls.tsx:34-36 | undefined exactly when no playlist is open; otherwise an index in [-1, n), where -1 means no track has the selected name |
| Catalog.IndexByName | src/context/AudioControls.tsx:35 | `findIndex` by name: -1 exactly when no track has the name, else the first index holding it |
| Catalog.Played | src/context/AudioControls.tsx:99 | `play()` unpauses and keeps volume and duration; an element whose position has reached its duration seeks to 0 first, any other keeps its position |
| Transport.TogglePlay | src/context/AudioControls.tsx:21-31 | no-op without a track; otherwise the controls' flag flips, the track (same name) carries the new flag, and the playlist and history stay |
| Transport.Retarget | src/components/Footer.tsx:62 | a selected track with another url reloads the element: paused, position 0, duration NaN, volume kept; the same url leaves the element as it was |
| Transport.Next | src/context/AudioControls.tsx:39-59 | no-op without a playlist and a track; otherwise the history grows by exactly the old track and a playing track is selected; the playlist and the three flags stay |
| Transport.Prev | src/context/AudioControls.tsx:62-89 | no-op without a track; the history only ever loses entries from its end; the playlist and the three flags stay |
| Transport.SyncPlaying | src/context/AudioControls.tsx:95-105 | the controls play exactly when the selected track's flag says so and the element's pause flag follows; playing an element that has reached its end puts it back at 0, otherwise the position, volume, duration and the rest of the state stay |
| Transport.Ended | src/context/AudioControls.tsx:113-120 | with repeat, the element is back at 0 and playing with track and history kept; the playlist and flags always stay |
| Transport.TogglePlayEffect | src/context/AudioControls.tsx:21-31 | no-op without a track; otherwise flips `isPlaying`, writes the same value into the track's flag and nowhere else in the track, plays/pauses the element and leaves the rest of the state unchanged |
| Transport.TogglePlayIsSynced | src/context/AudioControls.tsx:21-105 | the sync effect after a toggle finds the state already in step (it changes nothing) |
| Transport.NextIndexIsModular | src/context/AudioControls.tsx:50 | `i === len-1 ? 0 : i+1` equals `(i+1) mod n` and stays in [0,n) for i in [0,n) |
| Transport.IndexOfOwnName | src/context/AudioControls.tsx:35 | with distinct names, the index found for a track's name is that track's position |
| Transport.NextEffect | src/context/AudioControls.tsx:39-59 | no-op without a playlist and a track; otherwise appends exactly the pre-switch track to the history, selects the chosen track with `isPlaying = true`, reloads the element (position 0, paused, duration NaN) exactly when the url changes, and changes nothing else |
| Transport.NextInOrder | src/context/AudioControls.tsx:48-58 | without shuffle, from the track at i, `next` selects track `(i+1) mod n`, playing, and pushes the old track |
| Transport.NextTimesWraps | src/context/AudioControls.tsx:39-59 | without shuffle, k ≤ n nexts from track 0 land on track k (track 0 when k = n) and grow the history by k |
| Transport.NextFullCircle | src/context/AudioControls.tsx:48-52 | n nexts from the first of n tracks return to the first track |
| Transport.NextFromDuplicateName | src/context/AudioControls.tsx:35-51 | without shuffle, for any track j carrying the selected name, the index used is the first i ≤ j with that name, and `next` selects track `NextIndex(i, n)`, playing |
| Transport.MissingNameNextSelectsFirst | src/context/AudioControls.tsx:35-51 | a name missing from the playlist gives index -1, which `?? 0` does not replace, so `next` selects track 0 |
| Transport.MissingNamePrevSelectsFirst | src/context/AudioControls.tsx:76-81 | the same -1 makes the `previous` fallback select track 0 |
| Transport.OthersAt | src/context/AudioControls.tsx:46 | the k-th shuffle candidate is the track at `SkipIndex(k, i)`, which is never the current index |
| Transport.ShuffleAvoidsCurrent | src/context/AudioControls.tsx:44-58 | under shuffle the selected track is a track at an index other than the current one, playing |
| Transport.ShuffleNeedsTwoTracks | src/context/AudioControls.tsx:46-47 | a one-track playlist holding the selected track leaves no shuffle candidate, so no draw is valid |
| Transport.PrevRestarts | src/context/AudioControls.tsx:66-69 | past 2 s, `previous` sets `currentTime` to 0 and changes neither the track nor the history |
| Transport.PrevPopsHistory | src/context/AudioControls.tsx:71-75 | otherwise, with a history, it pops the last entry and selects it, playing; the element reloads when the url changes; the playlist, flags and `isPlaying` stay |
| Transport.PrevStepsBackClamped | src/context/AudioControls.tsx:76-81 | with an empty history it selects `max(i-1, 0)`, playing, and never wraps from track 0; the element reloads when the url changes; everything else stays |
| Transport.PrevWithoutTrack | src/context/AudioControls.tsx:63 | `previous` with no selected track does nothing |
| Transport.NextThenPrev | src/context/AudioControls.tsx:55-75 | `previous` right after `next` restores the previous track (playing) and the history, however long the old track played, when the next track has another url (the reload puts the position at 0); with the same url, past 2 s it only rewinds |
| Transport.TogglesTouchOnlyTheirFlag | src/context/AudioControls.tsx:92-93 | shuffle and repeat toggles flip only their own flag and undo themselves |
| Transport.EndedEffect | src/context/AudioControls.tsx:113-120 | at the end of a track: with repeat, rewind to 0 and play with track and history unchanged; without repeat, exactly `next` |
| Transport.NextThenSyncPlays | src/context/AudioControls.tsx:95-99 | after `next` and the sync effect, the controls play and the element is unpaused: from 0 when the url changed or the element had ended, otherwise from where it was |
| Transport.EndedSingleTrackRestarts | src/context/AudioControls.tsx:95-119 | in a one-track playlist without repeat, the end of the track leads through `next` and the sync effect back to the same track, playing from 0, with the track pushed on the history |
| AudioControls.Controller.TogglePlay | src/context/AudioControls.tsx:21-31 | the new controller, provider and element state is `Transport.TogglePlay` of the old; the catalog is untouched |
| AudioControls.Controller.SelectPlaying | src/context/AudioControls.tsx:58 | the provider's selection becomes the track, playing, and the element reloads exactly when the url changes (`Transport.SelectPlaying`) |
| AudioControls.Controller.HandleNext | src/context/AudioControls.tsx:39-59 | the new state is `Transport.Next` of the old state with the supplied draw |
| AudioControls.Controller.HandlePrev | src/context/AudioControls.tsx:62-89 | the new state is `Transport.Prev` of the old |
| AudioControls.Controller.HandleShuffle | src/context/AudioControls.tsx:92 | the new state is `Transport.ToggleShuffle` of the old |
| AudioControls.Controller.HandleRepeat | src/context/AudioControls.tsx:93 | the new state is `Transport.ToggleRepeat` of the old |
| AudioControls.Controller.PlaySyncEffect | src/context/AudioControls.tsx:95-105 | the new state is `Transport.SyncPlaying` of the old, including the restart of an ended element by `play()` |
| AudioControls.Controller.OnEnd | src/context/AudioControls.tsx:113-120 | the new state is `Transport.Ended` of the old |
| VolumeStore.Clamp01 | src/context/AudioVolumeProvider.tsx:11 | the result lies in [0,1], equals v inside it, 0 below and 1 above |
| VolumeStore.InitialValid | src/context/AudioVolumeProvider.tsx:5-7 | the initial (1, 1, false) satisfies the store invariant |
| VolumeStore.SetVolumeSpec | src/context/AudioVolumeProvider.tsx:10-19 | the volume is the clamped value, muted exactly at 0, and the unmute volume follows only a positive value |
| VolumeStore.ToggleMuteSpec | src/context/AudioVolumeProvider.tsx:22-37 | the returned flag is the new mute state, the opposite of the old; muting saves the volume and sets 0; unmuting keeps the saved volume and sets a non-zero volume |
| VolumeStore.SetVolumeClamps | src/context/AudioVolumeProvider.tsx:10-19 | the stored volume is the clamped value, muted exactly when it is 0; a positive value becomes the unmute volume, 0 leaves it unchanged |
| VolumeStore.SetVolumePreservesValid | src/context/AudioVolumeProvider.tsx:10-19 | `setVolume` keeps the invariant |
| VolumeStore.ToggleMuteEffect | src/context/AudioVolumeProvider.tsx:22-37 | muting saves the volume, sets it to 0 and returns true; unmuting restores the saved volume (1 if it is 0) and returns false; the returned flag is the new mute state |
| VolumeStore.ToggleMutePreservesValid | src/context/AudioVolumeProvider.tsx:22-37 | `toggleMute` keeps the invariant |
| VolumeStore.ToggleMuteTwice | src/context/AudioVolumeProvider.tsx:22-37 | two toggles restore the volume and the mute flag, and return opposite flags |
| VolumeStore.RunKeepsValid | src/context/AudioVolumeProvider.tsx:10-37 | any sequence of setter and toggle calls from a valid state keeps the invariant |
| VolumeStore.ReachableValid | src/context/AudioVolumeProvider.tsx:5-37 | every state reachable from the initial one satisfies the invariant |
| VolumeStore.Store.SetVolume | src/context/AudioVolumeProvider.tsx:10-19 | the three fields become `SetVolumeSpec` of the old ones, and the invariant is kept |
| VolumeStore.Store.ToggleMute | src/context/AudioVolumeProvider.tsx:22-37 | the fields and the returned flag are `ToggleMuteSpec` of the old fields, and the invariant is kept |
| Shortcuts.TypingIsIgnored | src/hooks/useKeyboardShortcuts.ts:27-31 | a key whose target is INPUT or TEXTAREA changes nothing |
| Shortcuts.KeysIgnoreCase | src/hooks/useKeyboardShortcuts.ts:33 | a key and its lower-cased form select the same action |
| Shortcuts.UpperAndLowerS | src/hooks/useKeyboardShortcuts.ts:33-71 | "S" and "s" both select shuffle |
| Shortcuts.VolumeKeys | src/hooks/useKeyboardShortcuts.ts:34-49 | arrow up/down compute `min(1, v+0.05)` / `max(0, v-0.05)` in [0,1] and send that one value to the element, the store and the HUD level, keeping the store invariant |
| Shortcuts.ArrowUpFromNinety | src/hooks/useKeyboardShortcuts.ts:34-41 | from 0.9, arrow up stores and shows 0.95 |
| Shortcuts.SeekKeys | src/hooks/useKeyboardShortcuts.ts:50-61 | arrow right adds 5 s and reports only with an element; arrow left subtracts 5 s with an element but always reports; neither clamps |
| Shortcuts.SpaceKey | src/hooks/useKeyboardShortcuts.ts:62-66 | space calls `togglePlay` once; the HUD says "Paused" exactly when the element then reports paused, and "Playing" without an element |
| Shortcuts.HandlerKeys | src/hooks/useKeyboardShortcuts.ts:67-86 | "s", "r", "n", "p" each call exactly their one handler and show their fixed message |
| Shortcuts.MuteKey | src/hooks/useKeyboardShortcuts.ts:87-92 | "m" toggles mute once and shows "Muted"/"Unmuted" from the returned flag |
| Shortcuts.OtherKeys | src/hooks/useKeyboardShortcuts.ts:33-93 | any other key calls nothing and shows nothing |
| Shortcuts.HandleKey | src/hooks/useKeyboardShortcuts.ts:26-93 | a text-field target or an unbound key changes nothing; no key changes the open playlist or the HUD clock |
| Shortcuts.HandleKeyKeepsVolumeValid | src/hooks/useKeyboardShortcuts.ts:26-93 | no key press breaks the volume store invariant |
| Shortcuts.OnKeyDown | src/hooks/useKeyboardShortcuts.ts:26-93 | on the live objects, the new controller, store and HUD state is `HandleKey` of the old |
| Hud.InitialHidden | src/context/AudioHUDProvider.tsx:5-6 | initially both fields are null and no clear is pending |
| Hud.Show | src/context/AudioHUDProvider.tsx:9-17 | the message is set, the level only when a volume is given, and one clear due 1500 ms later is appended to the pending ones |
| Hud.Elapse | src/context/AudioHUDProvider.tsx:13-16 | the clock advances by dt and no clear is added; a due clear nulls message and level; otherwise only the clock moves |
| Hud.ShowEffect | src/context/AudioHUDProvider.tsx:9-17 | `showHUD` always sets the message, replaces the level only when a volume is given, and appends exactly one clear due 1500 ms later, keeping the earlier ones |
| Hud.ShowPreservesValid | src/context/AudioHUDProvider.tsx:9-17 | every pending clear stays due within the next 1500 ms |
| Hud.ElapsePreservesValid | src/context/AudioHUDProvider.tsx:13-16 | the same holds as time passes and clears fire |
| Hud.ElapseEffect | src/context/AudioHUDProvider.tsx:13-16 | a firing clear nulls both fields whichever call scheduled it; with none due only the clock moves |
| Hud.ShowThenWait | src/context/AudioHUDProvider.tsx:13-16 | 1500 ms after a call, the HUD is empty |
| Hud.EarlierClearHidesLaterMessage | src/context/AudioHUDProvider.tsx:13-16 | a clear scheduled by an earlier call hides a later message before that message's own 1500 ms |
| Hud.StillPending | src/context/AudioHUDProvider.tsx:13-16 | the clears left are exactly those due after the given time |
| Hud.ScanPending | src/context/AudioHUDProvider.tsx:13-16 | one loop over the pending clears returns whether any is due and exactly those still pending |
| Hud.Provider.ShowHUD | src/context/AudioHUDProvider.tsx:9-17 | the fields become `Show` of the old ones |
| Hud.Provider.Tick | src/context/AudioHUDProvider.tsx:13-16 | the fields become `Elapse` of the old ones |
| HudOverlay.RenderCases | src/components/audio/HUDOverlay.tsx:8-25 | draws nothing exactly when the message is falsy and the level null; a level draws the bar even over a message; otherwise the message |
| HudOverlay.Render | src/components/audio/HUDOverlay.tsx:8-25 | nothing exactly for a falsy message and a null level; a level draws the bar at level·100 % even over a message; else the message text |
| HudOverlay.VolumeBarLabel | src/components/audio/HUDOverlay.tsx:17-20 | for a level in [0,1] the bar is level·100 % wide and the label is that width rounded, in [0,100] |
| HudOverlay.ShowMessageDrawn | src/components/audio/HUDOverlay.tsx:22-25 | a message shown with no level held is drawn as text |
| HudOverlay.HeldLevelHidesMessage | src/components/audio/HUDOverlay.tsx:12-21 | a level left by a volume change hides a later plain message |
| HudOverlay.ShowThenWaitDrawsNothing | src/components/audio/HUDOverlay.tsx:8 | 1500 ms after a call with nothing else, the overlay is empty |
| AudioProvider.LoadSelectsFirst | src/context/AudioProvider.tsx:7-14 | loading from the empty initial state installs the catalog, its first playlist and that playlist's first track with the catalog's own flag |
| AudioProvider.Load | src/context/AudioProvider.tsx:11-15 | marks the provider loaded; a second run changes nothing; the first installs the catalog and its first playlist, with a track exactly when that playlist has one |
| AudioProvider.LoadRunsOnce | src/context/AudioProvider.tsx:11-15 | a second load changes nothing |
| AudioProvider.SettersIndependent | src/context/AudioProvider.tsx:8-24 | each setter leaves the other selection and the catalog unchanged, and the two commute |
| AudioProvider.PlaybackState.LoadCatalog | src/context/AudioProvider.tsx:11-15 | the fields become `Load` of the old ones |
| AudioProvider.PlaybackState.SelectPlaylist | src/context/AudioProvider.tsx:23 | only the selected playlist changes |
| AudioProvider.PlaybackState.SelectTrack | src/context/AudioProvider.tsx:24 | only the selected track changes |
| PlaylistDisplay.ToggleAudioEffect | src/components/PlaylistDisplay.tsx:58-61 | no-op without a track; otherwise flips only `isPlaying`; twice is nothing |
| PlaylistDisplay.ToggleAudio | src/components/PlaylistDisplay.tsx:58-61 | a track stays selected exactly when one was; its flag flips and its name stays |
| PlaylistDisplay.PlayButtonClick | src/components/PlaylistDisplay.tsx:122-139 | afterwards a track of this playlist is selected; the start branch selects it playing |
| PlaylistDisplay.RowClick | src/components/PlaylistDisplay.tsx:235 | selects the row's track, unchanged except that it plays |
| PlaylistDisplay.Render | src/components/PlaylistDisplay.tsx:64-139 | a panel exactly when a playlist is open, one indicator per row, and the toggle button (pause form exactly when the track plays) exactly when the playlist holds the selected name |
| PlaylistDisplay.HoverIconClick | src/components/PlaylistDisplay.tsx:234-261 | the icon's toggle then the row's setter: the row's track ends selected and playing; nothing but the selected track changes |
| PlaylistDisplay.HoverIconIsRowClick | src/components/PlaylistDisplay.tsx:234-261 | the hover icon acts exactly like a click on its row, so the pause icon on the playing row leaves it playing |
| PlaylistDisplay.PlayButtonEffect | src/components/PlaylistDisplay.tsx:122-139 | with a track of the selected name in the playlist, the button toggles that track; otherwise it selects the first track, playing |
| PlaylistDisplay.StartButtonThenPause | src/components/PlaylistDisplay.tsx:122-139 | the start button, once clicked, gives way to the toggle button showing pause |
| PlaylistDisplay.RowClickLightsItsName | src/components/PlaylistDisplay.tsx:235-242 | after clicking a row, exactly the rows with that row's name show the indicator |
| PlaylistDisplay.NoPlaylistNoPanel | src/components/PlaylistDisplay.tsx:64-66 | with no playlist open nothing playlist-specific is drawn |
| PlaylistDisplay.ToggleAudioOn | src/components/PlaylistDisplay.tsx:58-61 | the provider's selected track becomes `ToggleAudio` of the old one, nothing else changes |
| PlaylistDisplay.ClickPlayButton | src/components/PlaylistDisplay.tsx:122-139 | for the open playlist (the button is drawn only for it), the selected track becomes `PlayButtonClick` of the old one |
| PlaylistDisplay.ClickRow | src/components/PlaylistDisplay.tsx:235 | the selected track becomes the row's track, playing |
| PlaylistDisplay.ClickHoverIcon | src/components/PlaylistDisplay.tsx:234-261 | the provider's state becomes `HoverIconClick` of the old one |
| PlaylistLibrary.TrimStartSkipsSpace | src/components/PlaylistLibrary.tsx:112 | `parseInt` skips exactly the leading white space: what it drops is all white space, and the rest is kept as it was |
| PlaylistLibrary.DigitPrefix | src/components/PlaylistLibrary.tsx:112 | the longest prefix of digits of the base |
| PlaylistLibrary.ParseInt | src/components/PlaylistLibrary.tsx:112 | a number is read only from text that holds a decimal digit |
| PlaylistLibrary.ParseIntReadsToString | src/components/PlaylistLibrary.tsx:112 | `parseInt` reads back any integer's decimal text followed by text that does not start with a digit, except an "x" or "X" after a lone "0" (`parseInt("0x1")` is 1) |
| PlaylistLibrary.ParseIntHex | src/components/PlaylistLibrary.tsx:112 | "0x1F" parses as 31 |
| PlaylistLibrary.ParseIntBareHexPrefix | src/components/PlaylistLibrary.tsx:112 | "0x" alone is NaN |
| PlaylistLibrary.ParseIntNoDigits | src/components/PlaylistLibrary.tsx:112 | "rock" and "" are NaN |
| PlaylistLibrary.ParseIntPrefix | src/components/PlaylistLibrary.tsx:112 | " -7 songs" parses as -7 |
| PlaylistLibrary.FilterIsSubsequence | src/components/PlaylistLibrary.tsx:104-116 | the search result is an order-preserving sub-list of the full list |
| PlaylistLibrary.Filter | src/components/PlaylistLibrary.tsx:105-114 | the result is never longer than the list; its order and members are stated by the two lemmas beside it |
| PlaylistLibrary.FilterMembership | src/components/PlaylistLibrary.tsx:105-114 | a playlist is in the result exactly when it is in the list and its name, a track name or its track count matches the query |
| PlaylistLibrary.EmptyQueryKeepsAll | src/components/PlaylistLibrary.tsx:108 | the empty query keeps every playlist, in order |
| PlaylistLibrary.BlankQueryShowsFullList | src/components/PlaylistLibrary.tsx:99-116 | a query that cleans to "" leaves the full list shown, as the early reset does |
| PlaylistLibrary.TrackCountFindsPlaylist | src/components/PlaylistLibrary.tsx:112 | typing a playlist's track count keeps it |
| PlaylistLibrary.InputWaitsForDelay | src/components/PlaylistLibrary.tsx:84-95 | the search runs only once 500 ms have passed since the keystroke |
| PlaylistLibrary.Elapse | src/components/PlaylistLibrary.tsx:84-95 | the clock advances; a due timer disarms, stores the input's value as the query and shows a sub-list of the full list; otherwise only the clock moves |
| PlaylistLibrary.RetypingCancelsEarlierSearch | src/components/PlaylistLibrary.tsx:85-94 | a keystroke within the delay cancels the pending search |
| PlaylistLibrary.SearchesDoNotCompound | src/components/PlaylistLibrary.tsx:104-116 | a search result does not depend on the list shown before it, and is a sub-list of the full list |
| PlaylistLibrary.Library.Tick | src/components/PlaylistLibrary.tsx:84-95 | the fields become `Elapse` of the old ones |
| PlaylistLibrary.Library.OnInput | src/components/PlaylistLibrary.tsx:84-95 | the armed timer is replaced by one due 500 ms from now |
| PlaylistLibrary.Library.OnPlaylistsChanged | src/components/PlaylistLibrary.tsx:60-63 | the shown list becomes a copy of the full list |
| PlaylistLibrary.IndicatorMatchesRows | src/components/PlaylistLibrary.tsx:135-137 | the playlist indicator is lit exactly when one of its rows would show the playing indicator |
| PlaylistLibrary.ThumbnailMatchesPlayButton | src/components/PlaylistLibrary.tsx:123-129 | the thumbnail does nothing without a selected track, otherwise exactly what the big play button does |
| PlaylistLibrary.ThumbnailClick | src/components/PlaylistLibrary.tsx:123-129 | without a track nothing is selected; with one, afterwards a track of this playlist is selected |
| PlaylistLibrary.ThumbnailFlipsIndicator | src/components/PlaylistLibrary.tsx:123-137 | a thumbnail click flips that playlist's indicator when it holds the track, else lights it |
| PlaylistLibrary.NameClickKeepsTrack | src/components/PlaylistLibrary.tsx:149-172 | clicking a name opens that playlist and keeps the selected track |
| PlaylistLibrary.ClickThumbnail | src/components/PlaylistLibrary.tsx:123-129 | the selected track becomes `ThumbnailClick` of the old one |
| PlaylistLibrary.ClickName | src/components/PlaylistLibrary.tsx:149-172 | only the selected playlist changes |
| Utils.OnlyQuoteIsUnwanted | src/utils.ts:2-7 | the three-character entry never matches one character: only `"` is removed |
| Utils.StripUnwanted | src/utils.ts:5-8 | the result is no longer than the input and contains no unwanted character |
| Utils.RemoveUnwantedCharacters | src/utils.ts:3-9 | undefined exactly for undefined or empty input, otherwise the filtered text |
| Utils.StripUnwantedKeepsOrder | src/utils.ts:5-8 | the filter deletes exactly the double quotes and keeps every other character in order |
| Utils.StripUnwantedIdempotent | src/utils.ts:5-8 | filtering twice equals filtering once |
| Utils.RemoveUnwantedCharactersTwice | src/utils.ts:3-9 | idempotent, except that all-quote input gives "" and then undefined |
| Utils.CleanInput | src/utils.ts:21-23 | never undefined: "" when the stripped query is empty, else the encoded stripped query |
| Utils.CleanInputHasNoQuote | src/utils.ts:21-23 | with an encoder that keeps text, the cleaned query has no `"` |
| Utils.SecondsToMinutesSeconds | src/utils.ts:26-30 | for s ≥ 0, minutes·60 + seconds = s and 0 ≤ seconds < 60 |
| Utils.SecondsToMinutesSecondsNegative | src/utils.ts:26-30 | for -30 the floor and the sign-of-dividend remainder give (-1, -30), which do not add back |
| Utils.PadStart2 | src/utils.ts:36 | a shorter string is padded to length 2 with "0" characters in front of it; strings of length 2 or more are kept |
| Utils.FormatTime | src/utils.ts:33-37 | the text is at least four characters (minutes, ":", two second characters); its reading back is `FormatTimeReadsBack` |
| Utils.FormatTimeReadsBack | src/utils.ts:33-37 | for t ≥ 0 the text is decimal minutes, ":", two digits below 60, and those fields give back the whole seconds of t |
| Text.NatToStringRoundTrip | src/utils.ts:36 | reading the decimal text of `toString` gives back the number |
| AudioProgress.SafeDuration | src/components/audio/AudioProgress.tsx:42 | the safe duration is at least 1 |
| AudioProgress.SafeDurationChoice | src/components/audio/AudioProgress.tsx:42 | a non-zero track duration, else a non-zero polled duration, else 1, each raised to at least 1 |
| AudioProgress.Percent | src/components/audio/AudioProgress.tsx:45 | the percentage lies in [0,100] |
| AudioProgress.PercentValue | src/components/audio/AudioProgress.tsx:45 | within the track it is the elapsed share ·100, before it 0, past the end 100 |
| AudioProgress.PercentMonotone | src/components/audio/AudioProgress.tsx:45 | the fill never decreases as the time grows |
| AudioProgress.PolledDuration | src/components/audio/AudioProgress.tsx:32 | NaN gives 0, any number is kept |
| AudioProgress.Change | src/components/audio/AudioProgress.tsx:17-23 | the shown time is the slider value, the duration stays, and the element (when there is one) seeks to the same value with nothing else changed |
| AudioProgress.Poll | src/components/audio/AudioProgress.tsx:26-39 | no change while paused or without an element; otherwise the element's time and its duration, NaN as 0 |
| AudioProgress.ChangeAgrees | src/components/audio/AudioProgress.tsx:17-23 | a slider change sets the element's position and the shown time to the same value and changes nothing else |
| AudioProgress.PollEffect | src/components/audio/AudioProgress.tsx:26-39 | no poll while paused or without an element; a poll copies the element's time, and NaN duration becomes 0 |
| AudioProgress.ChangeThenPoll | src/components/audio/AudioProgress.tsx:17-39 | a seek followed by a poll leaves the shown time at the slider value |
| AudioProgress.Progress.HandleChange | src/components/audio/AudioProgress.tsx:17-23 | the shown time and the element become `Change` of the old ones |
| AudioProgress.Progress.OnInterval | src/components/audio/AudioProgress.tsx:30-38 | the fields become `Poll` of the old ones |

## Left out

- Transport.Next: requires a non-empty track list, and under shuffle a draw among the remaining tracks. On an empty playlist, or a one-track playlist under shuffle, the program reads an undefined track and spreads it into a track object. That garbage selection is not modelled.
- Transport.Prev: requires a non-empty track list for the fallback step, for the same reason.
- PlaylistDisplay.PlayButtonClick: requires a non-empty track list. The start branch of an empty playlist reads `tracks[0]`, which is undefined.
- PlaylistLibrary.ThumbnailClick: requires a non-empty track list when a track is selected, for the same reason.
- AudioProvider.Load: requires a non-empty catalog, because `playlists[0].tracks` is read.
- PlaylistDisplay.RowClick, PlaylistDisplay.PlayButtonClick, PlaylistLibrary.ThumbnailClick: these act on the provider's selection only. The element reload that a new url causes is modelled for the controls' selections (`Transport.Retarget`), not for these clicks.
- Transport.Retarget: the new source's metadata arriving later (the duration becoming a number again) is not modelled.
- Async `play()`/`pause()` promises and autoplay rejection are not modelled: the element's `paused` flips at once.
- The browser clamps `currentTime` to the media's range; that clamping is not modelled. The seek and slider values are stored as given.
- React effect scheduling and the staleness of captured closures are not modelled. The sync effect is a separate step (`PlaySyncEffect`), run when the caller chooses.
- Each `setState` takes effect immediately in the model. The double `setCopyOfPlaylists` in the search is modelled by its final value, which is the same list when the query is blank.
- `Math.random` is the caller's draw `pick`; `setTimeout` and `setInterval` are explicit clock events.
- Floating point is modelled with exact reals. IEEE-754 rounding (`0.9 + 0.05`) and NaN do not appear; a NaN duration is `None`.
- PlaylistLibrary.ParseInt: digit strings longer than the 53-bit mantissa are read exactly, not rounded.
- `toLowerCase` lowers ASCII letters only. Unicode case mapping is not modelled.
- `split("")` splits into UTF-16 code units; the model splits into characters.
- `encodeHTML` (a DOM round trip) is a parameter of `cleanInput` and of the search. Its output is not interpreted.
- Shortcuts.HandleKey: the `preventDefault()` each handled key calls (which stops page scrolling and a focused button reacting to space) is not modelled, since the model has no page or focus.
- The element-volume sync component, the footer, the navbar, tooltips, pills and the layout and sort menus are presentation only and are not modelled.
- The mobile name click's `togglePlaylistDisplay(true)` is also not modelled, since it only changes layout.
