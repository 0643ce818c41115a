/**
 * The state machine of js/AudioPlayer/index.js: the `state` object of the
 * AudioPlayer class and the handlers that change it. DOM rendering is
 * reduced to the values the handlers read back from the page: the rendered
 * track list, the progress slider position and the current-time label.
 */
module Player {
  import opened Options
  import opened Numerals
  import opened TimeFormat
  import opened Text
  import opened Playlist

  /** A pointer (mouse or touch) event on the progress slider, or a key event with its key code. */
  datatype SliderEvent = Pointer | Key(code: string)

  /** What an event on the track list hit: a rendered track item (with its data-id) or anything else. */
  datatype ListTarget = MusicItem(id: TrackId) | OtherElement

  /** A click or a keydown on the track list. */
  datatype ListEvent = Click(target: ListTarget) | KeyDown(target: ListTarget, code: string)

  /** state.volume before any change: 0.7, here 70 percent. */
  const INITIAL_VOLUME: nat := 70

  /** Scrub start and end react to pointer events and to keys whose code includes "Arrow". */
  predicate ScrubKey(e: SliderEvent) {
    e.Pointer? || Contains(e.code, "Arrow")
  }

  /** handleChooseMusic reacts to a click on a track item and to Enter on one. */
  predicate Chooses(e: ListEvent) {
    e.target.MusicItem? && (e.Click? || e.code == "Enter")
  }

  /**
   * The media position handleEndRewind seeks to: value / 100 * duration,
   * rounded down to whole seconds.
   */
  function SeekPosition(value: nat, duration: nat): (p: nat)
    requires value <= 100
    ensures p <= duration
    ensures p * 100 <= value * duration < (p + 1) * 100
  {
    assert value * duration <= 100 * duration;
    value * duration / 100
  }

  /**
   * The progress slider position timeupdate sets: currentTime * 100 / duration,
   * as the range input (min 0, max 100, step 1) stores it: rounded to the
   * nearest step, at most 100, and its midpoint 50 when the quotient is not a
   * number (a zero duration).
   */
  function ProgressValue(position: nat, duration: nat): (v: nat)
    ensures v <= 100
    ensures duration == 0 ==> v == 50
    ensures 0 < duration <= position ==> v == 100
    ensures 0 < duration && position <= duration ==>
      2 * v * duration <= 200 * position + duration < 2 * v * duration + 2 * duration
  {
    if duration == 0 then 50
    else
      var q := (200 * position + duration) / (2 * duration);
      RoundedPercent(position, duration);
      if q > 100 then 100 else q
  }

  /** The quotient behind ProgressValue: a percentage rounded half up, 100 or more from the end on. */
  lemma RoundedPercent(position: nat, duration: nat)
    requires duration > 0
    ensures var q := (200 * position + duration) / (2 * duration);
      && 2 * q * duration <= 200 * position + duration < 2 * q * duration + 2 * duration
      && (position <= duration ==> q <= 100)
      && (duration <= position ==> q >= 100)
  {
    var x, d := 200 * position + duration, 2 * duration;
    var q := x / d;
    DivBounds(x, d);
    assert 2 * q * duration == q * d;
    if position <= duration {
      assert x < 101 * d;
      MulCancel(q, 101, d);
    }
    if duration <= position {
      assert 100 * d <= x < (q + 1) * d;
      MulCancel(100, q + 1, d);
    }
  }

  lemma DivBounds(x: nat, d: nat)
    requires d > 0
    ensures (x / d) * d <= x < (x / d) * d + d
  {
  }

  lemma MulCancel(a: nat, b: nat, d: nat)
    requires d > 0 && a * d < b * d
    ensures a < b
  {
    if a >= b {
      MulMonotone(b, a, d);
    }
  }

  lemma MulMonotone(a: nat, b: nat, d: nat)
    requires a <= b
    ensures a * d <= b * d
  {
  }

  class AudioPlayer {
    var isPlaying: bool
    var isRepeating: bool
    var isRewinding: bool
    var isMuted: bool
    /** state.volume, as a percentage */
    var volume: nat
    /** state.current; None while it is still the empty object */
    var current: Option<Track>
    /** state.filteredAudios; None while it is null */
    var filteredAudios: Option<seq<Track>>
    var audios: seq<Track>
    /** the value of the progress slider, a percentage */
    var rewindSlider: nat
    /** the current-time label next to the progress slider */
    var progressText: string

    /**
     * The player as the constructor leaves it: the state defaults, then
     * initAudios, renderAudioList and setCurrentItem() on the first track.
     */
    constructor (audioData: seq<TrackData>, ids: seq<TrackId>, durations: seq<nat>, order: seq<nat>)
      requires LoadPlan(audioData, ids, durations, order)
      ensures Valid()
      ensures |audios| == |audioData|
      ensures forall i :: 0 <= i < |audios| ==> EntryFrom(audios[i], audioData[i], ids[i], durations[i])
      ensures forall i :: 0 <= i < |audios| ==>
        fresh(audios[i].audio) && audios[i].audio.paused && audios[i].audio.currentTime == 0
      ensures current == if audios == [] then None else Some(audios[0])
      ensures audios != [] ==> audios[0].audio.volume == INITIAL_VOLUME
      ensures !isPlaying && !isRepeating && !isRewinding && !isMuted && volume == INITIAL_VOLUME
      ensures filteredAudios == None
    {
      isPlaying := false;
      isRepeating := false;
      isRewinding := false;
      isMuted := false;
      volume := INITIAL_VOLUME;
      current := None;
      filteredAudios := None;
      audios := [];
      rewindSlider := 0;
      progressText := "";
      new;
      InitAudios(audioData, ids, durations, order);
      var _, _ := RenderAudioList();
      SetCurrentItem(None, false);
    }

    /**
     * initAudios: entry i of the catalog is built from input i, with a fresh
     * paused element for its media url, whatever the order in which the loads
     * complete (`order`) fills the slots.
     */
    method InitAudios(audioData: seq<TrackData>, ids: seq<TrackId>, durations: seq<nat>, order: seq<nat>)
      requires Valid() && audios == [] && current.None? && filteredAudios.None?
      requires LoadPlan(audioData, ids, durations, order)
      modifies this
      ensures Valid()
      ensures |audios| == |audioData|
      ensures forall i :: 0 <= i < |audios| ==> EntryFrom(audios[i], audioData[i], ids[i], durations[i])
      ensures forall i :: 0 <= i < |audios| ==>
        && fresh(audios[i].audio) && audios[i].audio.paused
        && audios[i].audio.currentTime == 0 && audios[i].audio.volume == 100
      ensures current == None && filteredAudios == None
      ensures isPlaying == old(isPlaying) && isRepeating == old(isRepeating) && isRewinding == old(isRewinding)
      ensures isMuted == old(isMuted) && volume == old(volume)
      ensures rewindSlider == old(rewindSlider) && progressText == old(progressText)
    {
      var n := |audioData|;
      var slots := new Option<Track>[n](_ => None);
      for k := 0 to n
        invariant unchanged(this)
        invariant forall j :: 0 <= j < n ==> (slots[j].Some? <==> j in order[..k])
        invariant forall j :: 0 <= j < n && slots[j].Some? ==>
          && EntryFrom(slots[j].value, audioData[j], ids[j], durations[j])
          && fresh(slots[j].value.audio) && slots[j].value.audio.paused
          && slots[j].value.audio.currentTime == 0 && slots[j].value.audio.volume == 100
        invariant forall j1, j2 :: 0 <= j1 < j2 < n && slots[j1].Some? && slots[j2].Some? ==>
          slots[j1].value.audio != slots[j2].value.audio
      {
        var i := order[k];
        var audio := new AudioElement(audioData[i].url + "/audio.mp3", durations[i]);
        slots[i] := Some(NewTrack(audioData[i], ids[i], audio));
      }
      assert order[..n] == order;
      assert forall j :: 0 <= j < n ==> slots[j].Some?;
      audios := seq(n, j requires 0 <= j < n && slots[j].Some? reads slots => slots[j].value);
    }

    /** The media elements of the catalog. */
    ghost function Elements(): set<AudioElement>
      reads this
    {
      set t | t in audios :: t.audio
    }

    /** The media element of the current track, if there is one. */
    function CurrentElements(): set<AudioElement>
      reads this
    {
      if current.Some? then {current.value.audio} else {}
    }

    /** The entries, ids and elements agree, and the current and filtered tracks come from the catalog. */
    ghost predicate Catalogued()
      reads this
    {
      && DistinctIds(audios)
      && DistinctElements(audios)
      && (forall i :: 0 <= i < |audios| ==> audios[i].duration == audios[i].audio.duration)
      && (current.Some? ==> current.value in audios)
      && (filteredAudios.Some? ==> IsSubseq(filteredAudios.value, audios))
    }

    /** An element only plays when it is the current track's and isPlaying is set. */
    ghost predicate OnlyCurrentPlays()
      reads this, Elements()
    {
      && (isPlaying ==> current.Some?)
      && forall i :: 0 <= i < |audios| && !audios[i].audio.paused ==> isPlaying && current == Some(audios[i])
    }

    /** Unless muted, the current track plays at the stored volume. */
    ghost predicate AudibleAtStateVolume()
      reads this, CurrentElements()
    {
      current.Some? && !isMuted ==> current.value.audio.volume == volume
    }

    ghost predicate Valid()
      reads this, Elements()
    {
      && volume <= 100
      && rewindSlider <= 100
      && Catalogued()
      && OnlyCurrentPlays()
      && (current.Some? ==> current.value.audio in Elements())
      && AudibleAtStateVolume()
    }

    /** The list renderAudioList draws: the filtered tracks when a search has run, else the catalog. */
    function Rendered(): (r: seq<Track>)
      reads this
      ensures Catalogued() ==> IsSubseq(r, audios)
    {
      if filteredAudios.Some? then filteredAudios.value
      else
        SubseqOfItself(audios);
        audios
    }

    /** The rendered list is drawn from the catalog, in catalog order, without repeated ids. */
    lemma RenderedFromCatalog()
      requires Valid()
      ensures IsSubseq(Rendered(), audios)
      ensures DistinctIds(Rendered())
      ensures forall i :: 0 <= i < |Rendered()| ==> Rendered()[i] in audios
    {
      if filteredAudios.Some? {
        SubseqMembers(filteredAudios.value, audios);
        SubseqDistinctIds(filteredAudios.value, audios);
      } else {
        SubseqOfItself(audios);
      }
    }

    /** The track setCurrentItem chooses: the one with the id, or the first when no id is given. */
    function Lookup(itemId: Option<TrackId>): (r: Option<Track>)
      reads this
      ensures r.Some? ==> r.value in audios
      ensures itemId.None? ==> (r.Some? <==> audios != []) && (r.Some? ==> r.value == audios[0])
      ensures itemId.Some? ==> (r.Some? <==> HasId(audios, itemId.value)) && (r.Some? ==> r.value.id == itemId.value)
    {
      if itemId.Some? then FindById(audios, itemId.value)
      else if |audios| > 0 then Some(audios[0])
      else None
    }

    /**
     * The state after the selection of `t` when `prev` was current: nothing
     * but the current track changed; the previous track is paused and
     * rewound; `t` carries the stored volume and plays exactly when isPlaying
     * is set and play() succeeds; no other element changed.
     */
    twostate predicate SwitchedTo(prev: Option<Track>, t: Track, playSucceeded: bool)
      reads this, Elements(), t.audio, if prev.Some? then {prev.value.audio} else {}
    {
      && old(current) == prev
      && current == Some(t)
      && audios == old(audios) && filteredAudios == old(filteredAudios)
      && isPlaying == old(isPlaying) && isRepeating == old(isRepeating)
      && isRewinding == old(isRewinding) && isMuted == old(isMuted) && volume == old(volume)
      && rewindSlider == old(rewindSlider) && progressText == old(progressText)
      && (prev.Some? && prev != Some(t) ==>
            && prev.value.audio.paused
            && prev.value.audio.currentTime == 0
            && prev.value.audio.volume == old(prev.value.audio.volume))
      && t.audio.volume == volume
      && t.audio.paused == !(isPlaying && playSucceeded)
      && t.audio.currentTime == (if prev == Some(t) then 0 else old(t.audio.currentTime))
      && forall i :: 0 <= i < |audios| && audios[i] != t && Some(audios[i]) != prev ==>
           unchanged(audios[i].audio)
    }

    /** renderAudioList: the list to draw and the count label, which always counts the whole catalog. */
    method RenderAudioList() returns (items: seq<Track>, count: string)
      requires Valid()
      ensures items == Rendered()
      ensures IsSubseq(items, audios)
      ensures filteredAudios.None? ==> items == audios
      ensures AllDigits(count) && ParseNat(count) == |audios|
    {
      RenderedFromCatalog();
      items := if filteredAudios.Some? then filteredAudios.value else audios;
      count := NatToString(|audios|);
      ParseNatToString(|audios|);
    }

    /** pauseCurrentItem: the current track, if any, is paused and rewound to 0. */
    method PauseCurrentItem()
      requires Valid()
      modifies CurrentElements()
      ensures Valid()
      ensures current.Some? ==>
        && current.value.audio.paused
        && current.value.audio.currentTime == 0
        && current.value.audio.volume == old(current.value.audio.volume)
    {
      if current.Some? {
        current.value.audio.Pause();
        current.value.audio.currentTime := 0;
      }
    }

    /** togglePlaying: play the current track when isPlaying is set, pause it otherwise. */
    method TogglePlaying(playSucceeded: bool)
      requires Valid() && current.Some?
      modifies CurrentElements()
      ensures Valid()
      ensures current.value.audio.paused ==
        if isPlaying then old(current.value.audio.paused) && !playSucceeded else true
      ensures current.value.audio.currentTime == old(current.value.audio.currentTime)
      ensures current.value.audio.volume == old(current.value.audio.volume)
    {
      if isPlaying {
        current.value.audio.Play(playSucceeded);
      } else {
        current.value.audio.Pause();
      }
    }

    /**
     * setCurrentItem: an id that is not in the catalog (or no track at all)
     * changes nothing; otherwise the selection switches to the found track,
     * whose deferred togglePlaying uses `playSucceeded` as play()'s outcome.
     */
    method SetCurrentItem(itemId: Option<TrackId>, playSucceeded: bool)
      requires Valid()
      modifies this, Elements()
      ensures Valid()
      ensures old(Lookup(itemId)).None? ==> unchanged(this) && unchanged(old(Elements()))
      ensures old(Lookup(itemId)).Some? ==> SwitchedTo(old(current), old(Lookup(itemId)).value, playSucceeded)
    {
      var target := Lookup(itemId);
      if target.None? {
        return;
      }
      var t := target.value;
      ghost var prev := current;
      ElementsApart(t);
      if prev.Some? {
        ElementsApart(prev.value);
      }
      label before:
      PauseCurrentItem();
      MakeCurrent(t);
      TogglePlaying(playSucceeded);
      forall i | 0 <= i < |audios| && audios[i] != t && Some(audios[i]) != prev
        ensures unchanged@before(audios[i].audio)
      {
        assert audios[i].audio != t.audio;
      }
    }

    /**
     * The step of setCurrentItem between the pause of the previous track and
     * the deferred togglePlaying: `t` becomes current and gets the stored
     * volume, while every element is paused.
     */
    method MakeCurrent(t: Track)
      requires Valid() && t in audios
      requires current.Some? ==> current.value.audio.paused
      modifies this, t.audio
      ensures Valid()
      ensures current == Some(t)
      ensures t.audio.volume == volume
      ensures t.audio.paused == old(t.audio.paused) && t.audio.currentTime == old(t.audio.currentTime)
      ensures audios == old(audios) && filteredAudios == old(filteredAudios)
      ensures isPlaying == old(isPlaying) && isRepeating == old(isRepeating)
      ensures isRewinding == old(isRewinding) && isMuted == old(isMuted) && volume == old(volume)
      ensures rewindSlider == old(rewindSlider) && progressText == old(progressText)
    {
      current := Some(t);
      t.audio.volume := volume;
    }

    /**
     * handlePlayPause: isPlaying flips. Starting needs the audio context to
     * resume and play() to succeed (both folded into `playSucceeded`); when
     * either fails, or there is no current track, isPlaying ends false.
     */
    method HandlePlayPause(playSucceeded: bool)
      requires Valid()
      modifies this, CurrentElements()
      ensures Valid()
      ensures current == old(current) && audios == old(audios) && filteredAudios == old(filteredAudios)
      ensures old(isPlaying) ==> !isPlaying
      ensures !old(isPlaying) ==> (isPlaying <==> current.Some? && playSucceeded)
      ensures current.Some? ==> (current.value.audio.paused <==> !isPlaying)
      ensures current.Some? ==>
        && current.value.audio.currentTime == old(current.value.audio.currentTime)
        && current.value.audio.volume == old(current.value.audio.volume)
      ensures isRepeating == old(isRepeating) && isRewinding == old(isRewinding) && isMuted == old(isMuted)
      ensures volume == old(volume) && rewindSlider == old(rewindSlider) && progressText == old(progressText)
    {
      var wasPlaying := isPlaying;
      isPlaying := !wasPlaying;
      if !wasPlaying {
        if current.Some? && playSucceeded {
          current.value.audio.Play(true);
        } else {
          isPlaying := false;
        }
      } else {
        current.value.audio.Pause();
      }
    }

    /**
     * handleChooseMusic: a click on a track item, or Enter on one, selects
     * that track unless it is already current; every other event, and the
     * reselection of the current track, changes nothing.
     */
    method HandleChooseMusic(e: ListEvent, playSucceeded: bool)
      requires Valid()
      requires e.target.MusicItem? ==> HasId(Rendered(), e.target.id)
      modifies this, Elements()
      ensures Valid()
      ensures !Chooses(e) || (old(current).Some? && old(current).value.id == e.target.id) ==>
        unchanged(this) && unchanged(old(Elements()))
      ensures Chooses(e) && !(old(current).Some? && old(current).value.id == e.target.id) ==>
        HasId(old(audios), e.target.id)
        && SwitchedTo(old(current), FindById(old(audios), e.target.id).value, playSucceeded)
    {
      if !e.target.MusicItem? {
        return;
      }
      if e.KeyDown? && e.code != "Enter" {
        return;
      }
      RenderedInCatalog(e.target.id);
      var selected := FindById(audios, e.target.id).value;
      if current.Some? && selected.id == current.value.id {
        return;
      }
      SetCurrentItem(Some(selected.id), playSucceeded);
    }

    /** An id drawn in the list is an id of the catalog. */
    lemma RenderedInCatalog(id: TrackId)
      requires Valid() && HasId(Rendered(), id)
      ensures HasId(audios, id)
    {
      RenderedFromCatalog();
      var i :| 0 <= i < |Rendered()| && Rendered()[i].id == id;
      var t := Rendered()[i];
      var j :| 0 <= j < |audios| && audios[j] == t;
      assert audios[j].id == id;
    }

    /** When the current track's id is drawn in the list, the current track itself is drawn. */
    lemma CurrentRendered()
      requires Valid() && current.Some? && HasId(Rendered(), current.value.id)
      ensures current.value in Rendered()
    {
      RenderedFromCatalog();
      var i :| 0 <= i < |Rendered()| && Rendered()[i].id == current.value.id;
      var j :| 0 <= j < |audios| && audios[j] == Rendered()[i];
      var c :| 0 <= c < |audios| && audios[c] == current.value;
      assert audios[j].id == audios[c].id;
      assert j == c;
    }

    /** Every other catalog entry plays through a different element than `t`. */
    lemma ElementsApart(t: Track)
      requires Valid() && t in audios
      ensures forall i :: 0 <= i < |audios| && audios[i] != t ==> audios[i].audio != t.audio
    {
      var k :| 0 <= k < |audios| && audios[k] == t;
      forall i | 0 <= i < |audios| && audios[i] != t
        ensures audios[i].audio != t.audio
      {
        assert i != k;
      }
    }

    /** The lookup by the id of a rendered track finds that very track. */
    lemma LookupRendered(t: Track)
      requires Valid() && t in Rendered()
      ensures Lookup(Some(t.id)) == Some(t)
    {
      RenderedFromCatalog();
      FindByIdDistinct(audios, t);
    }

    /**
     * handleNext: the track after the current one in the rendered list, or
     * the first after the last, becomes current. The current track must be
     * in the rendered list (the source looks its list item up and fails
     * otherwise).
     */
    method HandleNext(playSucceeded: bool)
      requires Valid()
      requires current.Some? && HasId(Rendered(), current.value.id)
      modifies this, Elements()
      ensures Valid()
      ensures SwitchedTo(old(current), NextOf(old(Rendered()), old(current).value.id), playSucceeded)
    {
      var next := NextOf(Rendered(), current.value.id);
      LookupRendered(next);
      ElementsApart(current.value);
      PauseCurrentItem();
      SetCurrentItem(Some(next.id), playSucceeded);
    }

    /** handlePrev: the track before the current one in the rendered list, or the last before the first. */
    method HandlePrev(playSucceeded: bool)
      requires Valid()
      requires current.Some? && HasId(Rendered(), current.value.id)
      modifies this, Elements()
      ensures Valid()
      ensures SwitchedTo(old(current), PrevOf(old(Rendered()), old(current).value.id), playSucceeded)
    {
      var prev := PrevOf(Rendered(), current.value.id);
      LookupRendered(prev);
      ElementsApart(current.value);
      PauseCurrentItem();
      SetCurrentItem(Some(prev.id), playSucceeded);
    }

    /** The `ended` listener: exactly the step of handleNext. */
    method HandleEnded(playSucceeded: bool)
      requires Valid()
      requires current.Some? && HasId(Rendered(), current.value.id)
      modifies this, Elements()
      ensures Valid()
      ensures SwitchedTo(old(current), NextOf(old(Rendered()), old(current).value.id), playSucceeded)
    {
      HandleNext(playSucceeded);
    }

    /** handleStartRewind: a pointer press or an arrow key starts a scrub; other keys are ignored. */
    method HandleStartRewind(e: SliderEvent)
      requires Valid()
      modifies this
      ensures Valid()
      ensures volume == old(volume) && current == old(current) && audios == old(audios)
      ensures isRewinding == (ScrubKey(e) || old(isRewinding))
      ensures isPlaying == old(isPlaying) && isRepeating == old(isRepeating) && isMuted == old(isMuted)
      ensures filteredAudios == old(filteredAudios)
      ensures rewindSlider == old(rewindSlider) && progressText == old(progressText)
    {
      if e.Key? && !Contains(e.code, "Arrow") {
        return;
      }
      isRewinding := true;
    }

    /** handleRewindSlider: the slider follows the user's input. */
    method HandleRewindSlider(value: nat)
      requires Valid() && value <= 100
      modifies this
      ensures Valid()
      ensures isRewinding == old(isRewinding) && volume == old(volume) && current == old(current)
      ensures rewindSlider == value
      ensures isPlaying == old(isPlaying) && isRepeating == old(isRepeating) && isMuted == old(isMuted)
      ensures audios == old(audios) && filteredAudios == old(filteredAudios) && progressText == old(progressText)
    {
      rewindSlider := value;
    }

    /**
     * handleEndRewind: a pointer release or an arrow key ends the scrub and
     * seeks the current track to the slider's fraction of its duration; other
     * keys are ignored.
     */
    method HandleEndRewind(e: SliderEvent)
      requires Valid()
      modifies this, CurrentElements()
      ensures Valid()
      ensures volume == old(volume) && current == old(current) && audios == old(audios)
      ensures !ScrubKey(e) ==> unchanged(this) && unchanged(old(CurrentElements()))
      ensures ScrubKey(e) ==> !isRewinding
      ensures ScrubKey(e) && current.Some? ==>
        current.value.audio.currentTime == SeekPosition(rewindSlider, current.value.audio.duration)
      ensures current.Some? ==>
        current.value.audio.paused == old(current.value.audio.paused)
        && current.value.audio.volume == old(current.value.audio.volume)
      ensures isPlaying == old(isPlaying) && isRepeating == old(isRepeating) && isMuted == old(isMuted)
      ensures filteredAudios == old(filteredAudios)
      ensures rewindSlider == old(rewindSlider) && progressText == old(progressText)
    {
      if e.Key? && !Contains(e.code, "Arrow") {
        return;
      }
      isRewinding := false;
      if current.Some? {
        var audio := current.value.audio;
        audio.currentTime := SeekPosition(rewindSlider, audio.duration);
      }
    }

    /**
     * The timeupdate listener of the current track: the time label always
     * shows the position; the progress slider follows it only while no scrub
     * is in progress.
     */
    method TimeUpdate()
      requires Valid()
      modifies this
      ensures Valid()
      ensures isRewinding == old(isRewinding) && volume == old(volume) && current == old(current)
      ensures current.Some? ==> progressText == ToMinAndSec(current.value.audio.currentTime as real)
      ensures current.None? ==> progressText == old(progressText)
      ensures isRewinding || current.None? ==> rewindSlider == old(rewindSlider)
      ensures !isRewinding && current.Some? ==>
        rewindSlider == ProgressValue(current.value.audio.currentTime, current.value.duration)
      ensures isPlaying == old(isPlaying) && isRepeating == old(isRepeating) && isMuted == old(isMuted)
      ensures audios == old(audios) && filteredAudios == old(filteredAudios)
    {
      if current.None? {
        return;
      }
      var audio := current.value.audio;
      progressText := ToMinAndSec(audio.currentTime as real);
      var currentValue := ProgressValue(audio.currentTime, current.value.duration);
      if isRewinding {
        return;
      }
      rewindSlider := currentValue;
    }

    /**
     * handleVolume: the slider value becomes both the stored volume and the
     * current track's volume; the mute flag is left as it is.
     */
    method HandleVolume(value: nat)
      requires Valid() && value <= 100
      modifies this, CurrentElements()
      ensures Valid()
      ensures isRewinding == old(isRewinding) && current == old(current) && audios == old(audios)
      ensures volume == value
      ensures current.Some? ==> current.value.audio.volume == value
      ensures current.Some? ==>
        current.value.audio.paused == old(current.value.audio.paused)
        && current.value.audio.currentTime == old(current.value.audio.currentTime)
      ensures isPlaying == old(isPlaying) && isRepeating == old(isRepeating) && isMuted == old(isMuted)
      ensures filteredAudios == old(filteredAudios)
      ensures rewindSlider == old(rewindSlider) && progressText == old(progressText)
    {
      volume := value;
      if current.Some? {
        current.value.audio.volume := value;
      }
    }

    /**
     * handleMuteVolume: the mute flag flips; muting silences the current
     * track, unmuting gives it the stored volume back, which itself never
     * changes.
     */
    method HandleMuteVolume()
      requires Valid()
      modifies this, CurrentElements()
      ensures Valid()
      ensures isRewinding == old(isRewinding) && current == old(current) && audios == old(audios)
      ensures isMuted == !old(isMuted)
      ensures volume == old(volume)
      ensures current.Some? ==> current.value.audio.volume == if isMuted then 0 else volume
      ensures current.Some? ==>
        current.value.audio.paused == old(current.value.audio.paused)
        && current.value.audio.currentTime == old(current.value.audio.currentTime)
      ensures isPlaying == old(isPlaying) && isRepeating == old(isRepeating)
      ensures filteredAudios == old(filteredAudios)
      ensures rewindSlider == old(rewindSlider) && progressText == old(progressText)
    {
      var currentVolume: nat;
      if !isMuted {
        isMuted := true;
        currentVolume := 0;
      } else {
        isMuted := false;
        currentVolume := volume;
      }
      if current.Some? {
        current.value.audio.volume := currentVolume;
      }
    }

    /**
     * handleSearch: the filtered list becomes the catalog entries whose
     * normalised name includes the normalised query, and the list is drawn
     * again; the catalog and the current track stay as they are.
     */
    method HandleSearch(value: string)
      requires Valid()
      modifies this
      ensures Valid()
      ensures isRewinding == old(isRewinding) && volume == old(volume) && current == old(current)
      ensures filteredAudios == Some(Filter(audios, value))
      ensures isPlaying == old(isPlaying) && isRepeating == old(isRepeating) && isMuted == old(isMuted)
      ensures audios == old(audios) && rewindSlider == old(rewindSlider) && progressText == old(progressText)
    {
      var found := Filter(audios, value);
      assert IsSubseq(found, audios);
      filteredAudios := Some(found);
      var _, _ := RenderAudioList();
    }
  }
}
