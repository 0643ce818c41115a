# Audio player: a Dafny model

This project models the logic of a small browser audio player widget. Two
parts are modelled:

- The clock formatter of `js/utils.js`. `formatTime` pads a number below ten
  with a `"0"`. `toMinAndSec` turns a duration in seconds into `MM:SS` text.
- The state machine of the `AudioPlayer` class in `js/AudioPlayer/index.js`.
  This covers the `state` object (play, repeat, scrub and mute flags, volume,
  current track, filtered list, catalog) and the handlers that change it:
  - catalog construction;
  - track selection;
  - next and prev with wrap-around over the rendered list, and auto-advance
    when a track ends;
  - play/pause;
  - scrubbing and seeking;
  - volume and mute;
  - the search filter.

Module layout:

- `Options`: the `Option` datatype.
- `Numerals`: the decimal text of a natural number, as a template string
  writes it, and reading it back.
- `TimeFormat`: `formatTime` and `toMinAndSec`, with lemmas about field
  ranges, padding and the round trip from text back to whole seconds.
- `Text`: `trim`, `toLowerCase` and `includes`, which the search uses.
- `Playlist`: the input descriptors, the catalog entries, and the media
  element each entry plays through (a class whose `currentTime`, `volume` and
  `paused` fields the handlers assign). It also holds the pure list
  operations: lookup by id, previous and next sibling, and the search filter.
- `Player`: the `AudioPlayer` class. Its fields are the `state` object, its
  methods are the handlers, and its ghost `Valid()` invariant holds between
  any two handler calls:
  - ids and media elements are distinct;
  - the current track is in the catalog;
  - the filtered list is an order-preserving sublist of the catalog;
  - only the current track's element can be playing, and only while
    `isPlaying` is set;
  - unless muted, the current track plays at the stored volume.
- `Scenarios`: handler sequences. Next then prev returns to the start, two
  mute toggles restore the volume, and a search leaves playback alone.

Modelling conventions:

- Volumes and slider positions are whole percentages (0..100) instead of
  fractions. Media positions and durations are whole seconds, except in
  `toMinAndSec`, which is modelled over non-negative reals with `Floor`.
- The outcome of a `play()` promise, and of `audioCtx.resume()` before it, is
  a boolean parameter `playSucceeded`.
- Track ids (from `crypto.randomUUID`), loaded durations and the order in
  which the `loadeddata` events fire are parameters of the constructor.
- The DOM list that handleNext and handlePrev walk is the sequence
  `filteredAudios ?? audios` (`Rendered()`). The handlers reach the current
  list item through this list, so they require the current track to be drawn
  in it; otherwise the source's lookup returns null and the handler throws.
- A handler that in the source throws a TypeError when there is no current
  track keeps the assignments made before the throw. Example: handleVolume
  still stores the volume. The TypeError itself is not modelled.

Quirks of the code, modelled as written:

- setCurrentItem gives the new track `state.volume` even while muted, so a
  selection made while muted is audible. handleVolume while muted is audible
  too, and it leaves `isMuted` set.
- Unmuting restores `state.volume`, even when that volume is 0; no earlier
  non-zero volume is kept.
- handleVolume does not clamp. The value comes from a range input whose
  bounds are 0 and 100, which the model requires.
- With a one-track rendered list, next and prev reselect the same track. That
  track is paused and rewound to 0, then played again if `isPlaying` is set.
- `isRepeating` is never read or written after initialisation.

## Model

| member | source | states |
|---|---|---|
| Numerals.NatToString | js/utils.js:2 | The text of a number is a non-empty digit string that starts with '0' only for 0. |
| Numerals.ParseNatToString | js/utils.js:2 | Reading back the text of n gives n. |
| Numerals.NatToStringLength | js/utils.js:2 | The text of n has at most k digits exactly when n < 10^k. |
| TimeFormat.FormatTime | js/utils.js:1-3 | A field is a digit string of at least two characters that starts with '0' exactly when the number is below 10. FormatTimeField adds that it reads back as the number. |
| TimeFormat.Minutes | js/utils.js:6 | The minutes field m is the number of whole minutes in the whole seconds: 60*m <= floor(d) < 60*m + 60. |
| TimeFormat.Seconds | js/utils.js:7 | The seconds field is floor(d) minus 60 times the coerced minutes field, and lies in 0..59. |
| TimeFormat.ToMinAndSec | js/utils.js:5-10 | The clock text is at least 5 characters: digits, then ':', then exactly two digits. ToMinAndSecShape and ToMinAndSecRoundTrip pin the fields. |
| TimeFormat.FormatTimeField | js/utils.js:1-3 | A formatted field is at least two digits and reads back as its number. It starts with '0' exactly when the number is below 10. It is exactly two digits exactly when the number is below 100. |
| TimeFormat.Fields | js/utils.js:6-7 | For d >= 0 the minutes field is floor(d)/60 and the seconds field is floor(d)%60. Seconds lie in 0..59, and 60*minutes + seconds = floor(d). The seconds are computed from the number the padded minutes text coerces back to. |
| TimeFormat.ToMinAndSecShape | js/utils.js:5-10 | The clock text is the minutes field, ':', then a two-digit seconds field. The minutes field has three or more digits exactly when d >= 6000. |
| TimeFormat.ToMinAndSecRoundTrip | js/utils.js:5-10 | The clock text parses back as minutes m and seconds s with s < 60 and 60*m + s = floor(d). |
| TimeFormat.ToMinAndSecSameText | js/utils.js:5-10 | Two durations give the same text exactly when their whole seconds are equal. |
| TimeFormat.Examples | js/utils.js:5-10 | 65 gives "01:05", 9 gives "00:09", 600 gives "10:00", 6000.5 gives "100:00". |
| Text.TrimStartShape | js/AudioPlayer/index.js:397 | The leading part dropped by trim consists of whitespace or line terminators only, and what is left does not start with one. |
| Text.TrimEndShape | js/AudioPlayer/index.js:397 | The trailing part dropped by trim consists of whitespace or line terminators only, and what is left does not end with one. |
| Text.TrimSlice | js/AudioPlayer/index.js:397 | The result of trim is a slice of its input, and it neither starts nor ends with a trimmable character. |
| Text.Trim | js/AudioPlayer/index.js:397 | trim never lengthens its input, and its result neither starts nor ends with a WhiteSpace or LineTerminator character. TrimSlice adds that it is a slice of the input. |
| Text.LowerChar | js/AudioPlayer/index.js:397 | A capital ASCII letter maps to its small letter; every other character is kept. |
| Text.ToLower | js/AudioPlayer/index.js:397 | toLowerCase keeps the length and lowers each character in place. |
| Text.Contains | js/AudioPlayer/index.js:402 | A text only includes a needle that is no longer than itself. ContainsAt ties includes to a slice position in both directions. |
| Text.Normalize | js/AudioPlayer/index.js:397 | The normalised form has the length of the trimmed text and holds no ASCII capital. |
| Text.ContainsAt | js/AudioPlayer/index.js:402 | includes holds exactly when the needle is the slice of the text at some position. |
| Playlist.AudioElement.constructor | js/AudioPlayer/index.js:86-87 | A new element has the media url and the loaded duration. It is paused at position 0 with full volume. |
| Playlist.AudioElement.Play | js/AudioPlayer/index.js:230 | play() unpauses the element exactly when it succeeds. Position and volume are kept. |
| Playlist.AudioElement.Pause | js/AudioPlayer/index.js:222 | pause() leaves the element paused, with position and volume kept. |
| Playlist.FindById | js/AudioPlayer/index.js:234 | find by id returns an entry exactly when one has that id, and what it returns is a catalog entry with that id. |
| Playlist.FindByIdFirst | js/AudioPlayer/index.js:234 | When the id is present, find returns the first entry that has it. |
| Playlist.FindByIdDistinct | js/AudioPlayer/index.js:309 | With distinct ids, looking up the id of an entry finds that entry. |
| Playlist.IndexOfId | js/AudioPlayer/index.js:333 | The list item selected by data-id is the first entry with that id. |
| Playlist.NextOf | js/AudioPlayer/index.js:333-337 | The next track is an entry of the rendered list. With distinct ids and more than one entry, it is a different track from the current one. |
| Playlist.PrevOf | js/AudioPlayer/index.js:319-324 | The previous track is an entry of the rendered list. With distinct ids and more than one entry, it is a different track from the current one. |
| Playlist.NeighboursAt | js/AudioPlayer/index.js:316-341 | Next of entry k is entry (k+1) mod n, and prev of entry k is entry (k+n-1) mod n. |
| Playlist.WrapAround | js/AudioPlayer/index.js:316-341 | Next of the last entry is the first, and prev of the first entry is the last. |
| Playlist.NextPrevRoundTrip | js/AudioPlayer/index.js:316-341 | Over an unchanged list, prev of next is the start, and so is next of prev. |
| Playlist.SubseqDistinctIds | js/AudioPlayer/index.js:157 | A sublist of a catalog with distinct ids has distinct ids. |
| Playlist.Matches | js/AudioPlayer/index.js:400-402 | A track only matches a query whose trimmed text is no longer than its trimmed name. FilterSelects ties the filter to this test. |
| Playlist.Filter | js/AudioPlayer/index.js:399-403 | The search result is an order-preserving sublist of the catalog. |
| Playlist.FilterSelects | js/AudioPlayer/index.js:396-403 | Every kept entry matches (its trimmed lower-cased name includes the trimmed lower-cased query), and every matching entry is kept. |
| Playlist.FilterBlankQuery | js/AudioPlayer/index.js:396-403 | A query that trims to nothing keeps the whole catalog in order. |
| Playlist.FilterExample | js/AudioPlayer/index.js:396-403 | Over the catalog Royalty, Explorer: "roy" keeps Royalty only, and "" keeps both. |
| Player.SeekPosition | js/AudioPlayer/index.js:363-364 | The seek target is value/100 of the duration, rounded down. It is never past the end. |
| Player.ProgressValue | js/AudioPlayer/index.js:264 | The progress slider gets currentTime*100/duration rounded to the nearest step, half up. The value is at most 100, and from the end of the track on it is exactly 100. A zero duration gives the midpoint 50. |
| Player.RoundedPercent | js/AudioPlayer/index.js:264 | The rounded-half-up quotient brackets currentTime*100/duration. It is at most 100 up to the end of the track and at least 100 from the end on. |
| Player.AudioPlayer.constructor | js/AudioPlayer/index.js:60-81 | After construction and init the invariant holds. Entry i comes from input i, every element is fresh and paused at 0, and the first track is current at the initial volume 70 with no flag set and no search. |
| Player.AudioPlayer.InitAudios | js/AudioPlayer/index.js:83-105 | Whatever order the loads finish in, entry i is built from input i. Its url is data.url + "/audio.mp3". Its thumbnail url is data.url + "/thumb.jpg" exactly when hasThumb and absent otherwise. It has the given id and a fresh paused element. The invariant holds and no other field changes. |
| Player.AudioPlayer.Rendered | js/AudioPlayer/index.js:157 | The list drawn is an order-preserving sublist of a consistent catalog. RenderedFromCatalog adds distinct ids. |
| Player.AudioPlayer.RenderedFromCatalog | js/AudioPlayer/index.js:157 | The rendered list is an order-preserving sublist of the catalog with distinct ids. |
| Player.AudioPlayer.Lookup | js/AudioPlayer/index.js:234-235 | With no id the first track is chosen, and nothing when the catalog is empty. With an id, the entry with that id is chosen, and nothing when no entry has it. |
| Player.AudioPlayer.RenderAudioList | js/AudioPlayer/index.js:154-159 | The list drawn is filteredAudios when set, else the catalog. The count label reads back as the length of the full catalog. |
| Player.AudioPlayer.PauseCurrentItem | js/AudioPlayer/index.js:217-224 | The current track, if any, is paused and rewound to 0, with its volume kept. |
| Player.AudioPlayer.TogglePlaying | js/AudioPlayer/index.js:226-231 | The current track plays, if play() succeeds, when isPlaying is set, and is paused otherwise. |
| Player.AudioPlayer.SetCurrentItem | js/AudioPlayer/index.js:233-253 | An id that is not in the catalog changes nothing. Otherwise the found track becomes current: the previous track is paused and rewound, the new track gets state.volume and plays exactly when isPlaying is set and play() succeeds, and every other field and element is unchanged. |
| Player.AudioPlayer.MakeCurrent | js/AudioPlayer/index.js:239-240 | Once the previous track is paused, the chosen track becomes current and gets state.volume. Its playback state and position are kept, no other field changes, and the invariant holds. |
| Player.AudioPlayer.HandlePlayPause | js/AudioPlayer/index.js:278-299 | isPlaying flips. When starting fails, or there is no current track, it ends false. Afterwards the current track is paused exactly when isPlaying is false. |
| Player.AudioPlayer.HandleChooseMusic | js/AudioPlayer/index.js:301-314 | Anything but a click or Enter on a track item, and choosing the current track again, changes nothing. Otherwise the chosen track becomes current as in setCurrentItem. |
| Player.AudioPlayer.RenderedInCatalog | js/AudioPlayer/index.js:308-309 | An id drawn in the list is the id of a catalog entry. |
| Player.AudioPlayer.CurrentRendered | js/AudioPlayer/index.js:319 | When the current id is drawn in the list, the current track itself is drawn. |
| Player.AudioPlayer.LookupRendered | js/AudioPlayer/index.js:324-327 | Looking up the id of a drawn entry finds that entry. |
| Player.AudioPlayer.HandleNext | js/AudioPlayer/index.js:330-341 | The entry after the current one in the rendered list (the first, after the last) becomes current. This is a switch as in setCurrentItem. |
| Player.AudioPlayer.HandlePrev | js/AudioPlayer/index.js:316-328 | The entry before the current one in the rendered list (the last, before the first) becomes current. This is a switch as in setCurrentItem. |
| Player.AudioPlayer.HandleEnded | js/AudioPlayer/index.js:273-275 | The ended event makes exactly the step of handleNext. |
| Player.AudioPlayer.HandleStartRewind | js/AudioPlayer/index.js:351-355 | A pointer press or a key whose code includes "Arrow" sets isRewinding. Other keys change nothing. |
| Player.AudioPlayer.HandleRewindSlider | js/AudioPlayer/index.js:347-349 | The progress slider takes the input value, and nothing else changes. |
| Player.AudioPlayer.HandleEndRewind | js/AudioPlayer/index.js:357-365 | A pointer release or an Arrow key clears isRewinding and seeks the current track to the slider's fraction of its duration. Other keys change nothing. |
| Player.AudioPlayer.TimeUpdate | js/AudioPlayer/index.js:262-271 | The time label always shows toMinAndSec of the position. The progress slider follows the position only while no scrub is in progress. |
| Player.AudioPlayer.HandleVolume | js/AudioPlayer/index.js:367-375 | The value becomes both state.volume and the current track's volume. isMuted and playback are unchanged. |
| Player.AudioPlayer.HandleMuteVolume | js/AudioPlayer/index.js:377-394 | isMuted flips and state.volume never changes. The current track gets volume 0 when muting and state.volume when unmuting. |
| Player.AudioPlayer.HandleSearch | js/AudioPlayer/index.js:396-406 | filteredAudios becomes the filter of the catalog by the query. The catalog, the current track and the flags are unchanged. |
| Scenarios.NextThenPrev | js/AudioPlayer/index.js:316-341 | With the rendered list unchanged, next then prev returns to the start, with isPlaying unchanged. |
| Scenarios.PrevThenNext | js/AudioPlayer/index.js:316-341 | With the rendered list unchanged, prev then next returns to the start, with isPlaying unchanged. |
| Scenarios.MuteTwice | js/AudioPlayer/index.js:377-394 | Two mute toggles restore the flag and the stored volume. An unmuted current track gets back the audio volume it had. |
| Scenarios.SearchKeepsPlayback | js/AudioPlayer/index.js:396-406 | A search keeps the current track and isPlaying. Every entry it draws is found again by its id. |

## Left out

- DOM rendering is not modelled. This covers the HTML of the track list, setActiveMusic, renderCurrentItem, the slider gradients of setSliderValue, the play/pause icons, and the initVariables/events listener wiring. For the list, only the choice of which sequence is drawn is modelled.
- The background animation (renderBackgroundAnimation) is not modelled. It runs the Web Audio analyser and a requestAnimationFrame loop and is cosmetic only.
- The asynchronous loading machinery is not modelled: Promise, loadeddata, createMediaElementSource and crypto.randomUUID. Ids, durations and the load-completion order are constructor parameters.
- Concurrency is not modelled. The await points in handlePlayPause are folded into one `playSucceeded` outcome, and the togglePlaying that setCurrentItem defers with setTimeout runs at once.
- Player.AudioPlayer.constructor requires every track to finish loading. If a loadeddata event never fires (media that cannot be reached or decoded), Promise.all in initAudios (js/AudioPlayer/index.js:104) never settles. renderAudioList, setCurrentItem and the listener wiring (js/AudioPlayer/index.js:74-80) then never run, and the player hangs with an empty list. The source has no load-failure policy; the model describes only runs where every load completes.
- Player.AudioPlayer.HandleEnded models one ended listener. The source adds a fresh ended listener on every selection (js/AudioPlayer/index.js:250, 273-275). A track selected k times therefore runs handleNext k times when it ends, and skips k-1 tracks ahead. This skipping is not modelled.
- Player.AudioPlayer.TimeUpdate: the model covers the listener of the current track only. setCurrentItem adds a timeupdate and an ended listener on every selection, and these accumulate. A listener of an earlier track that fires after a switch (say, for the rewind to 0) is not modelled.
- debounce (js/utils.js:12-19) is not modelled because it is timer-based: the model runs each search at once. isMobileScreen (js/utils.js:21) is not modelled because it is a media-query probe.
- js/main.js is not part of this model beyond its two track names, which appear in the filter example.
- Floating point is not modelled. Positions and durations are whole seconds and volumes are whole percentages.
- Player.SeekPosition rounds the seek target down to a whole second, where the source seeks to the exact fraction of the duration.
- TimeFormat.ToMinAndSec: a negative duration is excluded. In the source, a negative minutes field pads to text like "0-1", which coerces to NaN. NaN and infinite durations are excluded too.
- Text.LowerChar lowers ASCII capitals only. toLowerCase's other Unicode case mappings are not modelled.
- Player.ProgressValue assumes the progress slider's markup: min 0, max 100, step 1. The markup and the sliders' initial values are not part of this model.
- Player.AudioPlayer.HandleVolume requires the value to be within 0..100, the bounds of the volume range input. The source itself does not clamp.
