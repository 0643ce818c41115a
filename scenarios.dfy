/**
 * Sequences of handler calls on one player, and what they add up to.
 */
module Scenarios {
  import opened Options
  import opened Playlist
  import opened Player

  /** With the rendered list unchanged, next then prev comes back to the track it started from. */
  method NextThenPrev(p: AudioPlayer, firstPlay: bool, secondPlay: bool)
    requires p.Valid() && p.current.Some? && HasId(p.Rendered(), p.current.value.id)
    modifies p, p.Elements()
    ensures p.Valid()
    ensures p.current == old(p.current)
    ensures p.audios == old(p.audios) && p.filteredAudios == old(p.filteredAudios)
    ensures p.isPlaying == old(p.isPlaying)
  {
    p.CurrentRendered();
    p.RenderedFromCatalog();
    var start := p.current.value;
    var list := p.Rendered();
    NextPrevRoundTrip(list, start);
    p.HandleNext(firstPlay);
    assert p.current == Some(NextOf(list, start.id));
    assert p.Rendered() == list;
    p.CurrentRendered();
    p.HandlePrev(secondPlay);
  }

  /** With the rendered list unchanged, prev then next comes back to the track it started from. */
  method PrevThenNext(p: AudioPlayer, firstPlay: bool, secondPlay: bool)
    requires p.Valid() && p.current.Some? && HasId(p.Rendered(), p.current.value.id)
    modifies p, p.Elements()
    ensures p.Valid()
    ensures p.current == old(p.current)
    ensures p.audios == old(p.audios) && p.filteredAudios == old(p.filteredAudios)
    ensures p.isPlaying == old(p.isPlaying)
  {
    p.CurrentRendered();
    p.RenderedFromCatalog();
    var start := p.current.value;
    var list := p.Rendered();
    NextPrevRoundTrip(list, start);
    p.HandlePrev(firstPlay);
    assert p.current == Some(PrevOf(list, start.id));
    assert p.Rendered() == list;
    p.CurrentRendered();
    p.HandleNext(secondPlay);
  }

  /**
   * Mute then unmute (or the reverse): the flag and the stored volume are as
   * before, and an audible current track is back at the volume it had.
   */
  method MuteTwice(p: AudioPlayer)
    requires p.Valid()
    modifies p, p.CurrentElements()
    ensures p.Valid()
    ensures p.isMuted == old(p.isMuted) && p.volume == old(p.volume) && p.current == old(p.current)
    ensures p.current.Some? && !old(p.isMuted) ==>
      p.current.value.audio.volume == old(p.current.value.audio.volume)
    ensures p.current.Some? && old(p.isMuted) ==> p.current.value.audio.volume == 0
  {
    p.HandleMuteVolume();
    p.HandleMuteVolume();
  }

  /** A search never stops the track that is playing nor changes what is current. */
  method SearchKeepsPlayback(p: AudioPlayer, query: string)
    requires p.Valid()
    modifies p
    ensures p.Valid()
    ensures p.current == old(p.current) && p.isPlaying == old(p.isPlaying)
    ensures p.Rendered() == Filter(p.audios, query)
    ensures forall t :: t in p.Rendered() ==> FindById(p.audios, t.id) == Some(t)
  {
    p.HandleSearch(query);
    forall t | t in p.Rendered()
      ensures FindById(p.audios, t.id) == Some(t)
    {
      p.LookupRendered(t);
    }
  }
}
